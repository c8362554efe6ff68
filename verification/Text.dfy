/**
 Byte strings. The broker's strings are UTF-8; here a string is its encoding, one
 `char` per byte. Every separator the broker cuts on is ASCII, so cutting the
 encoding and cutting the text give the same pieces.
 */
module Text {

  datatype Option<+T> = None | Some(value: T)

  // ---- cutting and joining ----

  /** Rust's `str::split(c)`: always at least one piece, empty pieces kept. */
  function Split(s: string, c: char): (parts: seq<string>)
    ensures |parts| >= 1
    ensures forall i :: 0 <= i < |parts| ==> c !in parts[i]
  {
    if s == "" then [""]
    else
      var rest := Split(s[1..], c);
      if s[0] == c then [""] + rest else [[s[0]] + rest[0]] + rest[1..]
  }

  function Join(parts: seq<string>, sep: string): string
  {
    if |parts| == 0 then ""
    else if |parts| == 1 then parts[0]
    else parts[0] + sep + Join(parts[1..], sep)
  }

  /** A separator cuts the text into two independent halves. */
  lemma {:induction false} SplitAt(a: string, c: char, b: string)
    ensures Split(a + [c] + b, c) == Split(a, c) + Split(b, c)
  {
    if a == "" {
      assert a + [c] + b == [c] + b;
      assert ([c] + b)[1..] == b;
    } else {
      assert (a + [c] + b)[1..] == a[1..] + [c] + b;
      SplitAt(a[1..], c, b);
    }
  }

  lemma {:induction false} SplitWhole(s: string, c: char)
    requires c !in s
    ensures Split(s, c) == [s]
  {
    if s != "" {
      SplitWhole(s[1..], c);
      assert [s[0]] + s[1..] == s;
    }
  }

  lemma {:induction false} SplitJoin(parts: seq<string>, c: char)
    requires |parts| >= 1
    requires forall i :: 0 <= i < |parts| ==> c !in parts[i]
    ensures Split(Join(parts, [c]), c) == parts
  {
    SplitWhole(parts[0], c);
    if |parts| > 1 {
      SplitJoin(parts[1..], c);
      SplitAt(parts[0], c, Join(parts[1..], [c]));
    }
  }

  lemma {:induction false} JoinSplit(s: string, c: char)
    ensures Join(Split(s, c), [c]) == s
  {
    if s != "" {
      var rest := Split(s[1..], c);
      JoinSplit(s[1..], c);
      if s[0] == c {
        assert ([""] + rest)[1..] == rest;
        assert [c] + s[1..] == s;
      } else {
        var parts := [[s[0]] + rest[0]] + rest[1..];
        assert parts[1..] == rest[1..];
        assert [s[0]] + s[1..] == s;
        if |rest| > 1 {
          assert Join(parts, [c]) == [s[0]] + (rest[0] + [c] + Join(rest[1..], [c]));
        }
      }
    }
  }

  /** The parts that are not empty. */
  function NonEmpty(parts: seq<string>): seq<string>
  {
    if parts == [] then []
    else (if parts[0] == "" then [] else [parts[0]]) + NonEmpty(parts[1..])
  }

  /** Text without separators only lengthens the first part. */
  lemma {:induction false} SplitPrefix(v: string, t: string, c: char)
    requires c !in v
    ensures Split(v + t, c) == [v + Split(t, c)[0]] + Split(t, c)[1..]
  {
    var st := Split(t, c);
    if v == "" {
      assert v + t == t && v + st[0] == st[0];
      assert st == [st[0]] + st[1..];
    } else {
      assert (v + t)[1..] == v[1..] + t && v[0] in v;
      SplitPrefix(v[1..], t, c);
      assert [v[0]] + (v[1..] + st[0]) == v + st[0];
    }
  }

  lemma {:induction false} SplitLength(a: string, b: string, c: char)
    ensures |Split(a + b, c)| == |Split(a, c)| + |Split(b, c)| - 1
  {
    if a == "" {
      assert a + b == b;
    } else {
      assert (a + b)[1..] == a[1..] + b;
      SplitLength(a[1..], b, c);
    }
  }

  lemma {:induction false} JoinAppend(a: seq<string>, b: seq<string>, sep: string)
    requires a != [] && b != []
    ensures Join(a + b, sep) == Join(a, sep) + sep + Join(b, sep)
  {
    if |a| == 1 {
      assert (a + b)[1..] == b;
    } else {
      assert (a + b)[1..] == a[1..] + b;
      JoinAppend(a[1..], b, sep);
    }
  }

  lemma JoinOne(s: string, sep: string)
    ensures Join([s], sep) == s
  {
  }

  /** The tail after the last separator is determined by the whole. */
  lemma {:induction false} LastFieldUnique(x: string, a: string, y: string, b: string, c: char)
    requires c !in a && c !in b
    requires x + [c] + a == y + [c] + b
    ensures a == b
  {
    SplitAt(x, c, a);
    SplitAt(y, c, b);
    SplitWhole(a, c);
    SplitWhole(b, c);
    assert Split(x + [c] + a, c)[|Split(x, c)|] == a;
    assert Split(y + [c] + b, c)[|Split(y, c)|] == b;
  }

  // ---- decimal numbers ----

  predicate IsDigit(c: char) { '0' <= c <= '9' }

  const U64_BOUND: nat := 0x1_0000_0000_0000_0000

  /** `u64::to_string`. */
  function Dec(n: nat): (s: string)
    ensures s != "" && forall i :: 0 <= i < |s| ==> IsDigit(s[i])
  {
    var d := [('0' as int + n % 10) as char];
    if n < 10 then d else Dec(n / 10) + d
  }

  function Value(s: string): nat
    requires forall i :: 0 <= i < |s| ==> IsDigit(s[i])
  {
    if s == "" then 0
    else
      assert IsDigit(s[|s| - 1]);
      10 * Value(s[..|s| - 1]) + (s[|s| - 1] as int - '0' as int)
  }

  /** `str::parse::<u64>`: one optional plus sign, then digits; leading zeros are accepted. */
  function ParseU64(s: string): Option<nat>
  {
    var t := if s != "" && s[0] == '+' then s[1..] else s;
    if t == "" || exists i :: 0 <= i < |t| && !IsDigit(t[i]) then None
    else if Value(t) >= U64_BOUND then None
    else Some(Value(t))
  }

  lemma {:induction false} ValueOfDec(n: nat)
    ensures Value(Dec(n)) == n
  {
    if n >= 10 {
      var d := [('0' as int + n % 10) as char];
      ValueOfDec(n / 10);
      assert (Dec(n / 10) + d)[..|Dec(n / 10)|] == Dec(n / 10);
    }
  }

  lemma {:induction false} ParseOfDec(n: nat)
    ensures ParseU64(Dec(n)) == if n < U64_BOUND then Some(n) else None
  {
    ValueOfDec(n);
    assert IsDigit(Dec(n)[0]);
  }

  lemma {:induction false} DecInjective(m: nat, n: nat)
    requires Dec(m) == Dec(n)
    ensures m == n
  {
    ValueOfDec(m);
    ValueOfDec(n);
  }

  // ---- UTF-8 ----

  predicate Cont(c: char) { 0x80 <= c as int <= 0xBF }

  /** Length of the well-formed UTF-8 sequence at the head of `s`; 0 when there is none. */
  function Width(s: string): (w: nat)
    ensures w <= |s|
  {
    if s == "" then 0
    else
      var b := s[0] as int;
      if b < 0x80 then 1
      else if 0xC2 <= b <= 0xDF then if |s| >= 2 && Cont(s[1]) then 2 else 0
      else if 0xE0 <= b <= 0xEF then
        if |s| >= 3 && Cont(s[1]) && Cont(s[2])
           && (b == 0xE0 ==> s[1] as int >= 0xA0) && (b == 0xED ==> s[1] as int <= 0x9F) then 3 else 0
      else if 0xF0 <= b <= 0xF4 then
        if |s| >= 4 && Cont(s[1]) && Cont(s[2]) && Cont(s[3])
           && (b == 0xF0 ==> s[1] as int >= 0x90) && (b == 0xF4 ==> s[1] as int <= 0x8F) then 4 else 0
      else 0
  }

  predicate Utf8(s: string)
  {
    s == "" || (Width(s) > 0 && Utf8(s[Width(s)..]))
  }

  lemma WidthAppend(a: string, b: string)
    requires Width(a) > 0
    ensures Width(a + b) == Width(a)
  {
    assert (a + b)[0] == a[0];
    assert |a| >= 2 ==> (a + b)[1] == a[1];
    assert |a| >= 3 ==> (a + b)[2] == a[2];
    assert |a| >= 4 ==> (a + b)[3] == a[3];
  }

  lemma {:induction false} Utf8Append(a: string, b: string)
    requires Utf8(a) && Utf8(b)
    ensures Utf8(a + b)
    decreases |a|
  {
    if a == "" {
      assert a + b == b;
    } else {
      var w := Width(a);
      WidthAppend(a, b);
      hide Width;
      assert (a + b)[w..] == a[w..] + b;
      Utf8Append(a[w..], b);
    }
  }

  lemma {:induction false} Utf8Ascii(s: string)
    requires forall i :: 0 <= i < |s| ==> s[i] as int < 0x80
    ensures Utf8(s)
  {
    if s != "" { Utf8Ascii(s[1..]); }
  }

  lemma {:induction false} Utf8Join(parts: seq<string>, sep: string)
    requires Utf8(sep)
    requires forall i :: 0 <= i < |parts| ==> Utf8(parts[i])
    ensures Utf8(Join(parts, sep))
  {
    if |parts| > 1 {
      Utf8Join(parts[1..], sep);
      Utf8Append(parts[0], sep);
      Utf8Append(parts[0] + sep, Join(parts[1..], sep));
    }
  }

  // ---- trimming ----

  /** One encoded Unicode white-space character (the `White_Space` property). */
  predicate IsSpace(s: string)
  {
    || (|s| == 1 && (9 <= s[0] as int <= 13 || s[0] == ' '))
    || (|s| == 2 && s[0] as int == 0xC2 && (s[1] as int == 0x85 || s[1] as int == 0xA0))
    || (|s| == 3 && s[0] as int == 0xE1 && s[1] as int == 0x9A && s[2] as int == 0x80)
    || (|s| == 3 && s[0] as int == 0xE2 && s[1] as int == 0x80
        && (0x80 <= s[2] as int <= 0x8A || s[2] as int == 0xA8 || s[2] as int == 0xA9 || s[2] as int == 0xAF))
    || (|s| == 3 && s[0] as int == 0xE2 && s[1] as int == 0x81 && s[2] as int == 0x9F)
    || (|s| == 3 && s[0] as int == 0xE3 && s[1] as int == 0x80 && s[2] as int == 0x80)
  }

  function TrimStart(s: string): string
  {
    if |s| >= 1 && IsSpace(s[..1]) then TrimStart(s[1..])
    else if |s| >= 2 && IsSpace(s[..2]) then TrimStart(s[2..])
    else if |s| >= 3 && IsSpace(s[..3]) then TrimStart(s[3..])
    else s
  }

  function TrimEnd(s: string): string
  {
    if |s| >= 1 && IsSpace(s[|s| - 1..]) then TrimEnd(s[..|s| - 1])
    else if |s| >= 2 && IsSpace(s[|s| - 2..]) then TrimEnd(s[..|s| - 2])
    else if |s| >= 3 && IsSpace(s[|s| - 3..]) then TrimEnd(s[..|s| - 3])
    else s
  }

  /** `str::trim`. */
  function Trim(s: string): string { TrimEnd(TrimStart(s)) }

  lemma NotWideSpace(s: string)
    requires |s| >= 2 && (s[0] as int < 0x80 || s[|s| - 1] as int < 0x80)
    ensures !IsSpace(s)
  {
  }

  lemma {:induction false} TrimStartNone(s: string)
    requires |s| >= 1 ==> !IsSpace(s[..1])
    requires |s| >= 2 ==> !IsSpace(s[..2])
    requires |s| >= 3 ==> !IsSpace(s[..3])
    ensures TrimStart(s) == s
  {
    hide IsSpace;
  }

  lemma {:induction false} TrimEndNone(s: string)
    requires |s| >= 1 ==> !IsSpace(s[|s| - 1..])
    requires |s| >= 2 ==> !IsSpace(s[|s| - 2..])
    requires |s| >= 3 ==> !IsSpace(s[|s| - 3..])
    ensures TrimEnd(s) == s
  {
    hide IsSpace;
  }

  lemma {:induction false} TrimAscii(s: string)
    requires s != "" && s[0] as int < 0x80 && s[|s| - 1] as int < 0x80
    requires !IsSpace(s[..1]) && !IsSpace(s[|s| - 1..])
    ensures Trim(s) == s
  {
    hide IsSpace, TrimStart, TrimEnd;
    if |s| >= 2 { NotWideSpace(s[..2]); NotWideSpace(s[|s| - 2..]); }
    if |s| >= 3 { NotWideSpace(s[..3]); NotWideSpace(s[|s| - 3..]); }
    TrimStartNone(s);
    TrimEndNone(s);
  }

  // ---- hashes ----

  predicate IsHex(c: char) { '0' <= c <= '9' || 'a' <= c <= 'f' }

  /** The text form of a SHA-256 value: 64 lower-case hexadecimal digits. */
  predicate IsDigest(s: string)
  {
    |s| == 64 && forall i :: 0 <= i < |s| ==> IsHex(s[i])
  }

  ghost predicate IsHash(h: string -> string)
  {
    forall s: string :: IsDigest(h(s))
  }

  /** SHA-256 is left uninterpreted: any function onto digests. Nothing assumes it injective. */
  type Hash = h: string -> string | IsHash(h)
    ghost witness (s: string) => seq(64, _ => '0')

  /** Two different texts with one hash. */
  predicate Collision(h: Hash, a: string, b: string)
  {
    a != b && h(a) == h(b)
  }
}
