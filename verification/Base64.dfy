/**
 Two independent base64 codecs over the alphabet of section 4 of RFC 4648: the broker's, which
 works chunk by chunk (`proto.rs`), and the shell's, which streams (`rpc_client.ml`).
 */
module Base64 {
  import opened Text

  type byte = x: int | 0 <= x < 256
  type sextet = x: int | 0 <= x < 64

  // ---- the alphabet ----

  function Sym(v: sextet): char
  {
    if v < 26 then ('A' as int + v) as char
    else if v < 52 then ('a' as int + v - 26) as char
    else if v < 62 then ('0' as int + v - 52) as char
    else if v == 62 then '+' else '/'
  }

  function Val(c: char): Option<sextet>
  {
    if 'A' <= c <= 'Z' then Some(c as int - 'A' as int)
    else if 'a' <= c <= 'z' then Some(c as int - 'a' as int + 26)
    else if '0' <= c <= '9' then Some(c as int - '0' as int + 52)
    else if c == '+' then Some(62)
    else if c == '/' then Some(63)
    else None
  }

  lemma ValOfSym(v: sextet)
    ensures Val(Sym(v)) == Some(v) && Sym(v) != '='
  {
  }

  // ---- arithmetic of groups ----

  lemma DivUnique(n: int, d: int, q: int, r: int)
    requires d > 0 && n == d * q + r && 0 <= r < d
    ensures n / d == q && n % d == r
  {
    MulMono(d, n / d + 1, q);
    MulMono(d, q + 1, n / d);
  }

  lemma MulMono(d: int, a: int, b: int)
    requires d > 0
    ensures a <= b ==> d * a <= d * b
  {
  }

  /** The bytes that four sextets make. */
  function Byte0(v0: sextet, v1: sextet): (b: byte) { var x: int, y: int := v0, v1; x * 4 + y / 16 }
  function Byte1(v1: sextet, v2: sextet): (b: byte) { var x: int, y: int := v1, v2; x % 16 * 16 + y / 4 }
  function Byte2(v2: sextet, v3: sextet): (b: byte) { var x: int, y: int := v2, v3; x % 4 * 64 + y }

  function GroupOf(v0: sextet, v1: sextet, v2: sextet, v3: sextet): (n: nat)
  {
    var a: int, b: int, c: int, d: int := v0, v1, v2, v3;
    ((a * 64 + b) * 64 + c) * 64 + d
  }

  /** A 24-bit group cut into bytes. */
  lemma GroupBytes(v0: sextet, v1: sextet, v2: sextet, v3: sextet)
    ensures
      var n := GroupOf(v0, v1, v2, v3);
      n / 0x1_0000 % 256 == Byte0(v0, v1) && n / 0x100 % 256 == Byte1(v1, v2) && n % 256 == Byte2(v2, v3)
  {
    var n: int := GroupOf(v0, v1, v2, v3);
    var b0: int, b1: int, b2: int := Byte0(v0, v1), Byte1(v1, v2), Byte2(v2, v3);
    assert n == 0x1_0000 * b0 + 0x100 * b1 + b2;
    DivUnique(n, 0x1_0000, b0, 0x100 * b1 + b2);
    DivUnique(n, 0x100, 0x100 * b0 + b1, b2);
    DivUnique(0x100 * b0 + b1, 0x100, b0, b1);
    DivUnique(b0, 0x100, 0, b0);
  }

  // ---- encoding ----

  datatype Quartet = Quartet(a: sextet, b: sextet, c: sextet, d: sextet)

  /** The four sextets of three bytes. */
  function Quad(a: byte, b: byte, c: byte): (q: Quartet)
    ensures Byte0(q.a, q.b) == a && Byte1(q.b, q.c) == b && Byte2(q.c, q.d) == c
  {
    var x: int, y: int, z: int := a, b, c;
    DivUnique(x % 4 * 16 + y / 16, 16, x % 4, y / 16);
    DivUnique(y % 16 * 4 + z / 64, 4, y % 16, z / 64);
    Quartet(x / 4, x % 4 * 16 + y / 16, y % 16 * 4 + z / 64, z % 64)
  }

  function Encode(data: seq<byte>): string
  {
    if |data| == 0 then ""
    else if |data| == 1 then
      var q := Quad(data[0], 0, 0);
      [Sym(q.a), Sym(q.b), '=', '=']
    else if |data| == 2 then
      var q := Quad(data[0], data[1], 0);
      [Sym(q.a), Sym(q.b), Sym(q.c), '=']
    else
      var q := Quad(data[0], data[1], data[2]);
      [Sym(q.a), Sym(q.b), Sym(q.c), Sym(q.d)] + Encode(data[3..])
  }

  function GroupOfBytes(a: byte, b: byte, c: byte): (n: nat)
  {
    var x: int, y: int, z: int := a, b, c;
    x * 0x1_0000 + y * 0x100 + z
  }

  /** Shifting and masking a 24-bit group gives the four sextets. */
  lemma QuadOfGroup(a: byte, b: byte, c: byte)
    ensures
      var n := GroupOfBytes(a, b, c);
      var q := Quad(a, b, c);
      n / 0x4_0000 % 64 == q.a && n / 0x1000 % 64 == q.b && n / 0x40 % 64 == q.c && n % 64 == q.d
  {
    var q := Quad(a, b, c);
    var n: int := GroupOfBytes(a, b, c);
    var v0: int, v1: int, v2: int, v3: int := q.a, q.b, q.c, q.d;
    assert n == 0x4_0000 * v0 + 0x1000 * v1 + 0x40 * v2 + v3;
    DivUnique(n, 0x4_0000, v0, 0x1000 * v1 + 0x40 * v2 + v3);
    DivUnique(v0, 64, 0, v0);
    DivUnique(n, 0x1000, 0x40 * v0 + v1, 0x40 * v2 + v3);
    DivUnique(0x40 * v0 + v1, 0x40, v0, v1);
    DivUnique(n, 0x40, 0x1000 * v0 + 0x40 * v1 + v2, v3);
    DivUnique(0x1000 * v0 + 0x40 * v1 + v2, 0x40, 0x40 * v0 + v1, v2);
  }

  /** The characters of one chunk, written the way both encoders write them. */
  lemma {:induction false} ChunkText(chunk: seq<byte>, b1: byte, b2: byte)
    requires 1 <= |chunk| <= 3
    requires b1 == (if |chunk| > 1 then chunk[1] else 0) && b2 == (if |chunk| > 2 then chunk[2] else 0)
    ensures
      var n := GroupOfBytes(chunk[0], b1, b2);
      Encode(chunk) == [Sym(n / 0x4_0000 % 64), Sym(n / 0x1000 % 64),
                        if |chunk| > 1 then Sym(n / 0x40 % 64) else '=',
                        if |chunk| > 2 then Sym(n % 64) else '=']
  {
    hide GroupOfBytes, Quad, Sym;
    QuadOfGroup(chunk[0], b1, b2);
    if |chunk| == 3 { assert Encode(chunk[3..]) == ""; }
  }

  lemma {:induction false} EncodeSnoc(done: seq<byte>, chunk: seq<byte>)
    requires |done| % 3 == 0
    ensures Encode(done + chunk) == Encode(done) + Encode(chunk)
  {
    if done == [] {
      assert done + chunk == chunk;
    } else {
      assert (done + chunk)[3..] == done[3..] + chunk;
      EncodeSnoc(done[3..], chunk);
    }
  }

  lemma EncodeNothing()
    ensures Encode([]) == ""
  {
  }

  /** `b64_encode` of the broker: three bytes at a time, the last chunk padded. */
  method EncodeChunks(data: seq<byte>) returns (out: string)
    ensures out == Encode(data)
  {
    hide Encode, GroupOfBytes, Sym;
    EncodeNothing();
    assert data[..0] == [];
    out := "";
    var i := 0;
    while i < |data|
      invariant 0 <= i <= |data| && (i % 3 == 0 || i == |data|)
      invariant out == Encode(data[..i])
    {
      var end := if i + 3 <= |data| then i + 3 else |data|;
      var chunk := data[i..end];
      var b0 := chunk[0];
      var b1: byte := if |chunk| > 1 then chunk[1] else 0;
      var b2: byte := if |chunk| > 2 then chunk[2] else 0;
      var n := GroupOfBytes(b0, b1, b2);
      var four := [Sym(n / 0x4_0000 % 64), Sym(n / 0x1000 % 64),
                   if |chunk| > 1 then Sym(n / 0x40 % 64) else '=',
                   if |chunk| > 2 then Sym(n % 64) else '='];
      ChunkText(chunk, b1, b2);
      EncodeSnoc(data[..i], chunk);
      assert data[..end] == data[..i] + chunk;
      out := out + four;
      i := end;
    }
    assert data[..i] == data;
  }

  /** `b64_encode` of the shell: an index stepping by three past the end. */
  method EncodeIndexed(data: seq<byte>) returns (out: string)
    ensures out == Encode(data)
  {
    hide Encode, GroupOfBytes, Sym;
    EncodeNothing();
    assert data[..0] == [];
    var n := |data|;
    out := "";
    var i := 0;
    while i < n
      invariant 0 <= i && i % 3 == 0
      invariant out == Encode(data[..if i <= n then i else n])
    {
      var b0 := data[i];
      var b1: byte := if i + 1 < n then data[i + 1] else 0;
      var b2: byte := if i + 2 < n then data[i + 2] else 0;
      var x := GroupOfBytes(b0, b1, b2);
      ghost var end := if i + 3 <= n then i + 3 else n;
      ghost var chunk := data[i..end];
      ChunkText(chunk, b1, b2);
      EncodeSnoc(data[..i], chunk);
      assert data[..end] == data[..i] + chunk;
      out := out + [Sym(x / 0x4_0000 % 64), Sym(x / 0x1000 % 64)]
                 + [if i + 1 < n then Sym(x / 0x40 % 64) else '=']
                 + [if i + 2 < n then Sym(x % 64) else '='];
      assert out == Encode(data[..i]) + Encode(chunk);
      i := i + 3;
    }
    assert data[..n] == data;
  }

  // ---- what a run of sextets decodes to ----

  /** The whole bytes in a run of sextets; what is left over is dropped. */
  function Bytes(vs: seq<sextet>): seq<byte>
  {
    if |vs| < 2 then []
    else if |vs| == 2 then [Byte0(vs[0], vs[1])]
    else if |vs| == 3 then [Byte0(vs[0], vs[1]), Byte1(vs[1], vs[2])]
    else [Byte0(vs[0], vs[1]), Byte1(vs[1], vs[2]), Byte2(vs[2], vs[3])] + Bytes(vs[4..])
  }

  predicate InAlphabet(s: string) { forall i :: 0 <= i < |s| ==> s[i] == '=' || Val(s[i]).Some? }

  function Vals(s: string): seq<sextet>
  {
    if s == "" then []
    else (if Val(s[0]).Some? then [Val(s[0]).value] else []) + Vals(s[1..])
  }

  lemma {:induction false} ValsAppend(a: string, b: string)
    ensures Vals(a + b) == Vals(a) + Vals(b)
  {
    hide Val;
    if a == "" {
      assert a + b == b;
    } else {
      assert (a + b)[1..] == a[1..] + b;
      ValsAppend(a[1..], b);
    }
  }

  lemma ValsFour(a: sextet, b: sextet, c: char, d: char)
    ensures Vals([Sym(a), Sym(b), c, d]) == [a, b] + Vals([c, d])
  {
    hide Sym, Val;
    ValOfSym(a);
    ValOfSym(b);
    var s := [Sym(a), Sym(b), c, d];
    assert s[1..] == [Sym(b), c, d] && s[1..][1..] == [c, d];
    assert Vals(s[1..]) == [b] + Vals([c, d]);
  }

  lemma ValsTwo(c: char, d: char)
    ensures
      var a, b := if Val(c).Some? then [Val(c).value] else [], if Val(d).Some? then [Val(d).value] else [];
      Vals([c, d]) == a + b
  {
    hide Val;
    assert [c, d][1..] == [d] && [d][1..] == "";
    assert Vals([d]) == if Val(d).Some? then [Val(d).value] else [];
  }

  /** Decoding what was encoded gives the data back. */
  lemma {:induction false} BytesOfEncode(data: seq<byte>)
    ensures Bytes(Vals(Encode(data))) == data && InAlphabet(Encode(data))
  {
    hide Quad, Vals, Sym, Val, Byte0, Byte1, Byte2;
    if |data| == 0 {
      NoVals();
    } else if |data| == 1 {
      var q := Quad(data[0], 0, 0);
      ValsFour(q.a, q.b, '=', '=');
      ValsTwo('=', '=');
      PadIsNone();
      assert Vals(Encode(data)) == [q.a, q.b];
      SymInAlphabet(q);
    } else if |data| == 2 {
      var q := Quad(data[0], data[1], 0);
      ValsFour(q.a, q.b, Sym(q.c), '=');
      ValsTwo(Sym(q.c), '=');
      PadIsNone();
      SymInAlphabet(q);
      assert Vals(Encode(data)) == [q.a, q.b, q.c];
    } else {
      BytesOfEncode(data[3..]);
      BytesOfFour(data);
    }
  }

  lemma NoVals()
    ensures Vals("") == []
  {
  }

  lemma PadIsNone()
    ensures Val('=') == None
  {
  }

  lemma SymInAlphabet(q: Quartet)
    ensures Val(Sym(q.a)) == Some(q.a) && Val(Sym(q.b)) == Some(q.b)
    ensures Val(Sym(q.c)) == Some(q.c) && Val(Sym(q.d)) == Some(q.d)
  {
    ValOfSym(q.a);
    ValOfSym(q.b);
    ValOfSym(q.c);
    ValOfSym(q.d);
  }

  lemma {:induction false} BytesOfFour(data: seq<byte>)
    requires |data| > 2
    requires Bytes(Vals(Encode(data[3..]))) == data[3..] && InAlphabet(Encode(data[3..]))
    ensures Bytes(Vals(Encode(data))) == data && InAlphabet(Encode(data))
  {
    hide Quad, Vals, Sym, Val, Byte0, Byte1, Byte2;
    var q := Quad(data[0], data[1], data[2]);
    var four := [Sym(q.a), Sym(q.b), Sym(q.c), Sym(q.d)];
    var rest := Vals(Encode(data[3..]));
    SymInAlphabet(q);
    ValsFour(q.a, q.b, Sym(q.c), Sym(q.d));
    ValsTwo(Sym(q.c), Sym(q.d));
    assert Encode(data) == four + Encode(data[3..]);
    ValsAppend(four, Encode(data[3..]));
    var vs := [q.a, q.b, q.c, q.d] + rest;
    assert Vals(Encode(data)) == vs;
    assert vs[4..] == rest;
    assert data == [data[0], data[1], data[2]] + data[3..];
  }

  // ---- the chunked decoder of the broker ----

  function NoPad(s: string): string
  {
    if s == "" then "" else (if s[0] == '=' then "" else [s[0]]) + NoPad(s[1..])
  }

  /** The group of a chunk and how many bits of it are set; characters off the alphabet add nothing. */
  function Group(chunk: string): (g: (nat, nat))
    ensures g.1 == 6 * |Vals(chunk)|
  {
    if chunk == "" then (0, 0)
    else
      var k := |chunk| - 1;
      var g := Group(chunk[..k]);
      assert chunk == chunk[..k] + [chunk[k]];
      ValsAppend(chunk[..k], [chunk[k]]);
      assert [chunk[k]][1..] == "";
      if Val(chunk[k]).Some? then (g.0 * 64 + Val(chunk[k]).value, g.1 + 6) else g
  }


  function Pow2(n: nat): (p: nat)
    ensures p >= 1
  {
    if n == 0 then 1 else 2 * Pow2(n - 1)
  }

  /** The bytes of one chunk of at most four characters. */
  function ChunkBytes(chunk: string): seq<byte>
    requires |chunk| <= 4
  {
    var g := Group(chunk);
    GroupBound(chunk);
    var n := g.0 * Pow2(24 - g.1);
    Spread(n)[..g.1 / 8]
  }

  lemma SmallPow2()
    ensures Pow2(0) == 1 && Pow2(2) == 4 && Pow2(4) == 16
    ensures Pow2(6) == 64 && Pow2(12) == 4096 && Pow2(18) == 0x4_0000
  {
    Pow2Six(0);
    Pow2Six(6);
    Pow2Six(12);
  }

  lemma Pow2Six(n: nat)
    ensures Pow2(n + 6) == 64 * Pow2(n)
  {
    assert Pow2(n + 6) == 2 * Pow2(n + 5) && Pow2(n + 5) == 2 * Pow2(n + 4) && Pow2(n + 4) == 2 * Pow2(n + 3);
    assert Pow2(n + 3) == 2 * Pow2(n + 2) && Pow2(n + 2) == 2 * Pow2(n + 1) && Pow2(n + 1) == 2 * Pow2(n);
  }

  lemma {:induction false} ValsShorter(s: string)
    ensures |Vals(s)| <= |s|
  {
    if s != "" { ValsShorter(s[1..]); }
  }

  lemma GroupBound(chunk: string)
    requires |chunk| <= 4
    ensures Group(chunk).1 <= 24
  {
    ValsShorter(chunk);
  }

  function ChunkedDecode(cs: string): seq<byte>
  {
    if cs == "" then []
    else
      var n := if |cs| >= 4 then 4 else |cs|;
      ChunkBytes(cs[..n]) + ChunkedDecode(cs[n..])
  }

  /** The inner loop of the broker's decoder. */
  method CollectGroup(chunk: string) returns (n: nat, bits: nat)
    ensures (n, bits) == Group(chunk)
  {
    hide Val;
    n, bits := 0, 0;
    for j := 0 to |chunk|
      invariant (n, bits) == Group(chunk[..j])
    {
      assert chunk[..j + 1][..j] == chunk[..j];
      var v := Val(chunk[j]);
      if v.Some? { n, bits := n * 64 + v.value, bits + 6; }
    }
    assert chunk[..|chunk|] == chunk;
  }

  /** The bytes of a group, high byte first. */
  function Spread(n: nat): (b: seq<byte>)
    ensures |b| == 3
  {
    [n / 0x1_0000 % 256, n / 0x100 % 256, n % 256]
  }

  lemma ChunkedCons(cs: string, i: nat, end: nat)
    requires i < |cs| && end == if i + 4 <= |cs| then i + 4 else |cs|
    ensures ChunkedDecode(cs[i..]) == ChunkBytes(cs[i..end]) + ChunkedDecode(cs[end..])
  {
    hide ChunkBytes;
    assert cs[i..][..end - i] == cs[i..end] && cs[i..][end - i..] == cs[end..];
  }

  lemma NothingDecodes()
    ensures ChunkedDecode("") == []
  {
  }

  /** `b64_decode` of the broker. */
  method DecodeChunks(s: string) returns (out: seq<byte>)
    ensures out == ChunkedDecode(NoPad(s))
  {
    hide ChunkedDecode, NoPad, Group, Pow2, Spread;
    var cs := NoPad(s);
    out := [];
    var i := 0;
    assert cs[0..] == cs;
    while i < |cs|
      invariant 0 <= i <= |cs|
      invariant out + ChunkedDecode(cs[i..]) == ChunkedDecode(cs)
    {
      var end := if i + 4 <= |cs| then i + 4 else |cs|;
      var chunk := cs[i..end];
      var n, bits := CollectGroup(chunk);
      GroupBound(chunk);
      n := n * Pow2(24 - bits);
      var nbytes := bits / 8;
      var bytes := Spread(n);
      ChunkedCons(cs, i, end);
      out := out + bytes[..nbytes];
      i := end;
    }
    assert cs[i..] == "";
    NothingDecodes();
  }

  predicate AllSyms(s: string) { forall i :: 0 <= i < |s| ==> Val(s[i]).Some? }

  lemma {:induction false} NoPadSyms(s: string)
    requires InAlphabet(s)
    ensures AllSyms(NoPad(s)) && Vals(NoPad(s)) == Vals(s)
  {
    if s != "" {
      NoPadSyms(s[1..]);
      var h := if s[0] == '=' then "" else [s[0]];
      assert NoPad(s) == h + NoPad(s[1..]);
      ValsAppend(h, NoPad(s[1..]));
      assert h != "" ==> h[1..] == "";
    }
  }

  lemma {:induction false} ValsOfSyms(s: string)
    requires AllSyms(s)
    ensures |Vals(s)| == |s| && forall i :: 0 <= i < |s| ==> Vals(s)[i] == Val(s[i]).value
  {
    if s != "" { ValsOfSyms(s[1..]); }
  }

  /** Sextets shifted together, high one first. */
  function Shift(vs: seq<sextet>): nat
  {
    if vs == [] then 0 else Shift(vs[..|vs| - 1]) * 64 + vs[|vs| - 1]
  }

  lemma ShiftSnoc(vs: seq<sextet>, x: sextet)
    ensures Shift(vs + [x]) == Shift(vs) * 64 + x
  {
    assert (vs + [x])[..|vs|] == vs;
  }

  lemma {:induction false} GroupIsShift(chunk: string)
    ensures Group(chunk) == (Shift(Vals(chunk)), 6 * |Vals(chunk)|)
  {
    hide Val;
    if chunk != "" {
      var k := |chunk| - 1;
      GroupIsShift(chunk[..k]);
      assert chunk == chunk[..k] + [chunk[k]] && [chunk[k]][1..] == "";
      ValsAppend(chunk[..k], [chunk[k]]);
      if Val(chunk[k]).Some? {
        assert Vals(chunk) == Vals(chunk[..k]) + [Val(chunk[k]).value];
        ShiftSnoc(Vals(chunk[..k]), Val(chunk[k]).value);
      } else {
        assert Vals(chunk) == Vals(chunk[..k]);
      }
    }
  }

  /** A group of one to four sextets, moved to the top of its 24 bits. */
  lemma ShiftFour(vs: seq<sextet>)
    requires |vs| <= 4
    ensures
      var v: seq<sextet> := vs + [0, 0, 0, 0];
      Shift(vs) * Pow2(24 - 6 * |vs|) == GroupOf(v[0], v[1], v[2], v[3])
  {
    hide Pow2, Shift;
    SmallPow2();
    assert Shift([]) == 0 by { NoShift(); }
    if |vs| == 0 {
      assert vs == [];
    } else {
      ShiftSnoc([], vs[0]);
      if |vs| == 1 {
        assert vs == [] + [vs[0]] && Pow2(24 - 6 * |vs|) == 0x4_0000;
      } else {
        ShiftSnoc([] + [vs[0]], vs[1]);
        if |vs| == 2 {
          assert vs == [] + [vs[0]] + [vs[1]] && Pow2(24 - 6 * |vs|) == 4096;
        } else {
          ShiftSnoc([] + [vs[0]] + [vs[1]], vs[2]);
          if |vs| == 3 {
            assert vs == [] + [vs[0]] + [vs[1]] + [vs[2]] && Pow2(24 - 6 * |vs|) == 64;
          } else {
            ShiftSnoc([] + [vs[0]] + [vs[1]] + [vs[2]], vs[3]);
            assert vs == [] + [vs[0]] + [vs[1]] + [vs[2]] + [vs[3]] && Pow2(24 - 6 * |vs|) == 1;
          }
        }
      }
    }
  }

  lemma NoShift()
    ensures Shift([]) == 0
  {
  }

  /** A chunk gives the whole bytes of its symbols, whatever strays stand among them. */
  lemma {:induction false} ChunkIsBytes(chunk: string)
    requires |chunk| <= 4
    ensures ChunkBytes(chunk) == Bytes(Vals(chunk))
  {
    hide Group, Pow2, Val, Vals, Byte0, Byte1, Byte2, Shift;
    var vs := Vals(chunk);
    ValsShorter(chunk);
    GroupIsShift(chunk);
    ShiftFour(vs);
    var v: seq<sextet> := vs + [0, 0, 0, 0];
    GroupBytes(v[0], v[1], v[2], v[3]);
    assert |vs| == 4 ==> vs[4..] == [];
  }

  lemma {:induction false} ChunkedIsBytes(cs: string)
    requires AllSyms(cs)
    ensures ChunkedDecode(cs) == Bytes(Vals(cs))
  {
    hide ChunkBytes;
    if cs != "" {
      var n := if |cs| >= 4 then 4 else |cs|;
      assert cs == cs[..n] + cs[n..];
      ChunkIsBytes(cs[..n]);
      ChunkedIsBytes(cs[n..]);
      ValsAppend(cs[..n], cs[n..]);
      ValsOfSyms(cs[..n]);
      BytesFour(Vals(cs[..n]), Vals(cs[n..]));
      if n < 4 { assert cs[n..] == ""; }
    }
  }

  lemma BytesFour(a: seq<sextet>, b: seq<sextet>)
    requires |a| == 4 || b == []
    ensures Bytes(a + b) == Bytes(a) + Bytes(b)
  {
    if |a| == 4 {
      assert (a + b)[4..] == b && a[4..] == [];
    } else {
      assert a + b == a;
    }
  }

  // ---- the streaming decoder of the shell ----

  /** The shell's integers have 63 bits, and its accumulator is never masked. */
  const INT63: nat := 0x8000_0000_0000_0000

  /** Bits waiting in the accumulator, and the bytes written. */
  datatype Stream = Stream(acc: nat, bits: nat, out: seq<byte>)

  function Feed(st: Stream, c: char): Stream
  {
    if Val(c).None? then st
    else
      var acc := (st.acc * 64 + Val(c).value) % INT63;
      if st.bits + 6 >= 8 then
        Stream(acc, st.bits - 2, st.out + [acc / Pow2(st.bits - 2) % 256])
      else Stream(acc, st.bits + 6, st.out)
  }

  function FeedAll(st: Stream, s: string): Stream
    decreases |s|
  {
    if s == "" then st else FeedAll(Feed(st, s[0]), s[1..])
  }

  /** `b64_decode` of the shell. */
  method DecodeStream(s: string) returns (out: seq<byte>)
    ensures out == FeedAll(Stream(0, 0, []), s).out
  {
    out := [];
    var acc: nat, bits: nat := 0, 0;
    for i := 0 to |s|
      invariant FeedAll(Stream(acc, bits, out), s[i..]) == FeedAll(Stream(0, 0, []), s)
    {
      assert s[i..][0] == s[i] && s[i..][1..] == s[i + 1..];
      var v := Val(s[i]);
      if v.Some? {
        acc, bits := (acc * 64 + v.value) % INT63, bits + 6;
        if bits >= 8 {
          bits := bits - 8;
          out := out + [acc / Pow2(bits) % 256];
        }
      }
    }
    assert s[|s|..] == "";
  }

  /** Only the low twelve bits of the accumulator ever reach the output. */
  lemma LowBits(acc: nat, v: sextet)
    ensures (acc * 64 + v) % INT63 % 4096 == acc % 64 * 64 + v
    ensures (acc * 64 + v) % INT63 % 64 == v
  {
    var u: int := v;
    var x, k := acc * 64 + u, 0x8_0000_0000_0000;
    DivUnique(x, 4096, acc / 64, acc % 64 * 64 + u);
    DivUnique(x % INT63, 4096, x / 4096 - k * (x / INT63), x % 4096);
    DivUnique(x % INT63, 64, 64 * (x % INT63 / 4096) + acc % 64, u);
  }

  /** Each shift takes its byte from those bits. */
  lemma Extract(acc: nat, p: sextet, v: sextet)
    requires acc % 4096 == p * 64 + v
    ensures acc / 16 % 256 == Byte0(p, v) && acc / 4 % 256 == Byte1(p, v) && acc % 256 == Byte2(p, v)
  {
    var a: int, b: int, k := p, v, acc / 4096;
    assert acc == 4096 * k + (a * 64 + b);
    DivUnique(acc, 16, 256 * k + (a * 4 + b / 16), b % 16);
    DivUnique(256 * k + (a * 4 + b / 16), 256, k, a * 4 + b / 16);
    DivUnique(acc, 4, 1024 * k + a * 16 + b / 4, b % 4);
    DivUnique(1024 * k + a * 16 + b / 4, 256, 4 * k + a / 16, a % 16 * 16 + b / 4);
    DivUnique(acc, 256, 16 * k + a / 4, a % 4 * 64 + b);
  }

  /** The four phases: waiting bits 0, 6, 4, 2, with the byte each one emits. */
  lemma FeedPhase(st: Stream, c: char, prev: sextet)
    requires Val(c).Some? && (st.bits == 0 || st.acc % 64 == prev)
    ensures
      var v := Val(c).value;
      var r := Feed(st, c);
      && r.acc % 64 == v
      && (st.bits == 0 ==> r == Stream(r.acc, 6, st.out))
      && (st.bits == 6 ==> r == Stream(r.acc, 4, st.out + [Byte0(prev, v)]))
      && (st.bits == 4 ==> r == Stream(r.acc, 2, st.out + [Byte1(prev, v)]))
      && (st.bits == 2 ==> r == Stream(r.acc, 0, st.out + [Byte2(prev, v)]))
  {
    hide Val, Pow2, Byte0, Byte1, Byte2;
    var v := Val(c).value;
    LowBits(st.acc, v);
    if st.bits != 0 { Extract((st.acc * 64 + v) % INT63, prev, v); }
    SmallPow2();
  }

  lemma {:induction false} FeedSyms(st: Stream, s: string)
    requires AllSyms(s) && st.bits == 0
    ensures FeedAll(st, s).out == st.out + Bytes(Vals(s))
    decreases |s|
  {
    hide Feed, Val, Vals, Byte0, Byte1, Byte2;
    if s == "" {
      NoVals();
    } else {
      ValsOfSyms(s);
      var vs := Vals(s);
      var s1 := Feed(st, s[0]);
      FeedPhase(st, s[0], 0);
      assert FeedAll(st, s) == FeedAll(s1, s[1..]);
      if |s| >= 2 {
        var s2 := Feed(s1, s[1]);
        FeedPhase(s1, s[1], vs[0]);
        assert s[1..][1..] == s[2..];
        assert FeedAll(s1, s[1..]) == FeedAll(s2, s[2..]);
        if |s| >= 3 {
          var s3 := Feed(s2, s[2]);
          FeedPhase(s2, s[2], vs[1]);
          assert s[2..][1..] == s[3..];
          assert FeedAll(s2, s[2..]) == FeedAll(s3, s[3..]);
          if |s| >= 4 {
            var s4 := Feed(s3, s[3]);
            FeedPhase(s3, s[3], vs[2]);
            assert s[3..][1..] == s[4..];
            assert FeedAll(s3, s[3..]) == FeedAll(s4, s[4..]);
            FeedSyms(s4, s[4..]);
            ValsTail(s);
            assert s4.out + Bytes(vs[4..]) == st.out + Bytes(vs);
          }
        }
      }
    }
  }

  lemma {:induction false} ValsTail(s: string)
    requires AllSyms(s) && |s| >= 4
    ensures |Vals(s)| >= 4 && Vals(s)[4..] == Vals(s[4..])
  {
    ValsOfSyms(s);
    ValsOfSyms(s[4..]);
  }

  lemma {:induction false} FeedSkipsPad(st: Stream, s: string)
    requires InAlphabet(s)
    ensures FeedAll(st, s) == FeedAll(st, NoPad(s))
    decreases |s|
  {
    if s != "" {
      FeedSkipsPad(Feed(st, s[0]), s[1..]);
      if s[0] != '=' {
        assert NoPad(s)[1..] == NoPad(s[1..]);
      } else {
        assert NoPad(s) == NoPad(s[1..]);
      }
    }
  }

  // ---- agreement ----

  /** On every string over the alphabet and the pad, the two decoders give the same bytes. */
  lemma {:induction false} DecodersAgree(s: string)
    requires InAlphabet(s)
    ensures ChunkedDecode(NoPad(s)) == FeedAll(Stream(0, 0, []), s).out == Bytes(Vals(s))
  {
    hide ChunkedDecode, FeedAll, Bytes, NoPad, Vals;
    NoPadSyms(s);
    ChunkedIsBytes(NoPad(s));
    FeedSkipsPad(Stream(0, 0, []), s);
    FeedSyms(Stream(0, 0, []), NoPad(s));
  }

  /** Both decoders invert both encoders, for all byte strings. */
  lemma {:induction false} RoundTrip(data: seq<byte>)
    ensures ChunkedDecode(NoPad(Encode(data))) == data
    ensures FeedAll(Stream(0, 0, []), Encode(data)).out == data
  {
    hide ChunkedDecode, FeedAll, Encode;
    BytesOfEncode(data);
    DecodersAgree(Encode(data));
  }
}
