/**
 The request-target normaliser (`net.rs`): percent checking and dot-segment removal,
 written so that the allowlist and the server cannot read one path differently.
 */
module Target {
  import opened Text

  // ---- percent escapes ----

  function HexVal(c: char): Option<nat>
  {
    if '0' <= c <= '9' then Some(c as int - '0' as int)
    else if 'a' <= c <= 'f' then Some(c as int - 'a' as int + 10)
    else if 'A' <= c <= 'F' then Some(c as int - 'A' as int + 10)
    else None
  }

  /** A well-formed escape at the head of `s`. */
  predicate Escape(s: string)
  {
    |s| >= 3 && s[0] == '%' && HexVal(s[1]).Some? && HexVal(s[2]).Some?
  }

  function Escaped(s: string): (c: char)
    requires Escape(s)
    ensures c as int < 256
  {
    (16 * HexVal(s[1]).value + HexVal(s[2]).value) as char
  }

  /** Every escape is well formed and none hides a separator or a dot. */
  predicate PercentOk(s: string)
  {
    if s == "" then true
    else if s[0] == '%' then
      Escape(s) && Escaped(s) != '/' && Escaped(s) != '\\' && Escaped(s) != '.' && PercentOk(s[3..])
    else PercentOk(s[1..])
  }

  /** `reject_bad_percent`, the index loop of the source. */
  method RejectBadPercent(s: string) returns (ok: bool)
    ensures ok <==> PercentOk(s)
  {
    var i := 0;
    while i < |s|
      invariant 0 <= i <= |s|
      invariant PercentOk(s) <==> PercentOk(s[i..])
    {
      if s[i] == '%' {
        if i + 2 >= |s| { return false; }
        var h1, h2 := HexVal(s[i + 1]), HexVal(s[i + 2]);
        if h1 == None || h2 == None { return false; }
        var dec := (16 * h1.value + h2.value) as char;
        assert s[i..][1] == s[i + 1] && s[i..][2] == s[i + 2];
        assert s[i..][3..] == s[i + 3..];
        if dec == '/' || dec == '\\' || dec == '.' { return false; }
        i := i + 3;
      } else {
        assert s[i..][1..] == s[i + 1..];
        i := i + 1;
      }
    }
    ok := true;
  }

  /** Percent-decoding, once, as a server does it; malformed escapes stay as they are. */
  function Decode(s: string): string
  {
    if s == "" then ""
    else if Escape(s) then [Escaped(s)] + Decode(s[3..])
    else [s[0]] + Decode(s[1..])
  }

  function DecodeAll(parts: seq<string>): (r: seq<string>)
    ensures |r| == |parts|
  {
    seq(|parts|, i requires 0 <= i < |parts| => Decode(parts[i]))
  }

  // ---- dot segments ----

  /** `remove_dot_segments` on the cut path; `None` climbs above the root. */
  function Resolve(segs: seq<string>, out: seq<string>): Option<seq<string>>
    decreases |segs|
  {
    if segs == [] then Some(out)
    else if segs[0] == "" || segs[0] == "." then Resolve(segs[1..], out)
    else if segs[0] == ".." then
      if out == [] then None else Resolve(segs[1..], out[..|out| - 1])
    else Resolve(segs[1..], out + [segs[0]])
  }

  method RemoveDotSegments(path: string) returns (norm: Option<string>)
    ensures norm.Some? <==> Resolve(Split(path, '/'), []).Some?
    ensures norm.Some? ==> norm.value == "/" + Join(Resolve(Split(path, '/'), []).value, "/")
  {
    var segs := Split(path, '/');
    var out: seq<string> := [];
    var i := 0;
    while i < |segs|
      invariant 0 <= i <= |segs|
      invariant Resolve(segs[i..], out) == Resolve(Split(path, '/'), [])
    {
      var seg := segs[i];
      assert segs[i..][1..] == segs[i + 1..];
      if seg == "" || seg == "." {
      } else if seg == ".." {
        if out == [] { return None; }
        out := out[..|out| - 1];
      } else {
        out := out + [seg];
      }
      i := i + 1;
    }
    norm := Some("/" + Join(out, "/"));
  }

  // ---- the canonical target ----

  predicate CharOk(c: char)
  {
    0x20 < c as int && c as int != 0x7f && c != '\\'
  }

  predicate CharsOk(s: string) { forall i :: 0 <= i < |s| ==> CharOk(s[i]) }

  /** Where the query starts; the length when there is none. */
  function QueryAt(s: string): (n: nat)
    ensures n <= |s| && '?' !in s[..n] && (n < |s| ==> s[n] == '?')
  {
    if s == "" || s[0] == '?' then 0
    else
      assert s[..1 + QueryAt(s[1..])] == [s[0]] + s[1..][..QueryAt(s[1..])];
      1 + QueryAt(s[1..])
  }

  function PathOf(raw: string): string { raw[..QueryAt(raw)] }
  function QueryOf(raw: string): string { raw[QueryAt(raw)..] }

  predicate Acceptable(raw: string)
  {
    && raw != "" && raw[0] == '/' && !(|raw| >= 2 && raw[1] == '/')
    && CharsOk(raw) && PercentOk(PathOf(raw)) && PercentOk(QueryOf(raw))
  }

  /** `canonical_request_target`. */
  function Canonical(raw: string): Option<string>
  {
    if !Acceptable(raw) then None
    else
      var segs := Resolve(Split(PathOf(raw), '/'), []);
      if segs == None then None else Some("/" + Join(segs.value, "/") + QueryOf(raw))
  }

  method CanonicalRequestTarget(raw: string) returns (r: Option<string>)
    ensures r == Canonical(raw)
  {
    if raw == "" || raw[0] != '/' { return None; }
    if |raw| >= 2 && raw[1] == '/' { return None; }
    for i := 0 to |raw|
      invariant forall j :: 0 <= j < i ==> CharOk(raw[j])
    {
      var b := raw[i] as int;
      if b < 0x20 || b == 0x7f || b == 0x20 || raw[i] == '\\' { return None; }
    }
    var q := QueryAt(raw);
    var pathOk := RejectBadPercent(raw[..q]);
    if !pathOk { return None; }
    var queryOk := RejectBadPercent(raw[q..]);
    if !queryOk { return None; }
    var norm := RemoveDotSegments(raw[..q]);
    if norm == None { return None; }
    r := Some(norm.value + raw[q..]);
  }

  // ---- decoding and cutting ----

  lemma {:induction false} EscapeAppend(a: string, b: string)
    requires Escape(a)
    ensures Escape(a + b) && Escaped(a + b) == Escaped(a)
  {
    assert (a + b)[0] == a[0] && (a + b)[1] == a[1] && (a + b)[2] == a[2];
  }

  lemma DecodeAllCons(head: string, rest: seq<string>)
    ensures DecodeAll([head] + rest) == [Decode(head)] + DecodeAll(rest)
  {
  }

  /** Putting a character that is not the separator in front changes only the first piece. */
  lemma SplitCons(c: char, s: string, sep: char)
    requires c != sep
    ensures Split([c] + s, sep) == [[c] + Split(s, sep)[0]] + Split(s, sep)[1..]
  {
    assert ([c] + s)[1..] == s;
  }

  lemma {:induction false} SplitEscape(s: string)
    requires Escape(s)
    ensures Split(s, '/') == [s[..3] + Split(s[3..], '/')[0]] + Split(s[3..], '/')[1..]
  {
    hide Split;
    var r := Split(s[3..], '/');
    assert s[2..] == [s[2]] + s[3..] && s[1..] == [s[1]] + s[2..] && s == [s[0]] + s[1..];
    SplitCons(s[2], s[3..], '/');
    SplitCons(s[1], s[2..], '/');
    SplitCons(s[0], s[1..], '/');
    assert [s[0]] + ([s[1]] + ([s[2]] + r[0])) == s[..3] + r[0];
  }

  lemma DecodeCons(s: string)
    requires s != "" && PercentOk(s)
    ensures s[0] == '%' ==> Decode(s) == [Escaped(s)] + Decode(s[3..]) && Escaped(s) != '/' && PercentOk(s[3..])
    ensures s[0] != '%' ==> Decode(s) == [s[0]] + Decode(s[1..]) && PercentOk(s[1..])
  {
  }

  lemma PlainHead(c: char, rest: string)
    requires c != '%' && PercentOk(rest)
    ensures PercentOk([c] + rest) && Decode([c] + rest) == [c] + Decode(rest)
  {
    assert ([c] + rest)[1..] == rest;
  }

  ghost predicate AllPercentOk(parts: seq<string>)
  {
    forall i :: 0 <= i < |parts| ==> PercentOk(parts[i])
  }

  /** A slash is never part of an escape, so decoding and cutting at slashes commute. */
  lemma {:induction false} DecodeSplit(s: string)
    requires PercentOk(s)
    ensures Split(Decode(s), '/') == DecodeAll(Split(s, '/'))
    ensures AllPercentOk(Split(s, '/'))
    decreases |s|
  {
    if s == "" {
      assert DecodeAll([""]) == [""];
    } else {
      hide Decode, PercentOk, Escape, Split;
      DecodeCons(s);
      if s[0] == '%' {
        DecodeSplit(s[3..]);
        DecodeSplitEscape(s);
      } else {
        DecodeSplit(s[1..]);
        DecodeSplitPlain(s);
      }
    }
  }

  lemma {:induction false} DecodeSplitEscape(s: string)
    requires s != "" && PercentOk(s) && s[0] == '%'
    requires Split(Decode(s[3..]), '/') == DecodeAll(Split(s[3..], '/')) && AllPercentOk(Split(s[3..], '/'))
    ensures Split(Decode(s), '/') == DecodeAll(Split(s, '/')) && AllPercentOk(Split(s, '/'))
  {
    var r := Split(s[3..], '/');
    DecodeCons(s);
    SplitEscape(s);
    EscapeHead(s, r[0]);
    hide Decode, PercentOk, Split;
    SplitCons(Escaped(s), Decode(s[3..]), '/');
    DecodeAllCons(s[..3] + r[0], r[1..]);
    assert DecodeAll(r)[1..] == DecodeAll(r[1..]);
  }

  lemma {:induction false} DecodeSplitPlain(s: string)
    requires s != "" && PercentOk(s) && s[0] != '%'
    requires Split(Decode(s[1..]), '/') == DecodeAll(Split(s[1..], '/')) && AllPercentOk(Split(s[1..], '/'))
    ensures Split(Decode(s), '/') == DecodeAll(Split(s, '/')) && AllPercentOk(Split(s, '/'))
  {
    hide Decode, PercentOk, Split, Escape;
    var r := Split(s[1..], '/');
    DecodeCons(s);
    assert s == [s[0]] + s[1..];
    if s[0] == '/' {
      SplitAt("", '/', s[1..]);
      SplitAt("", '/', Decode(s[1..]));
      assert "" + ['/'] + s[1..] == s && "" + ['/'] + Decode(s[1..]) == Decode(s);
      EmptyPiece();
      DecodeAllCons("", r);
    } else {
      SplitCons(s[0], s[1..], '/');
      SplitCons(s[0], Decode(s[1..]), '/');
      PlainHead(s[0], r[0]);
      DecodeAllCons([s[0]] + r[0], r[1..]);
      assert DecodeAll(r)[1..] == DecodeAll(r[1..]);
    }
  }

  lemma EmptyPiece()
    ensures Split("", '/') == [""] && Decode("") == "" && PercentOk("")
  {
  }

  lemma {:induction false} EscapeHead(s: string, rest: string)
    requires s != "" && s[0] == '%' && PercentOk(s) && PercentOk(rest)
    ensures PercentOk(s[..3] + rest) && Decode(s[..3] + rest) == [Escaped(s)] + Decode(rest)
  {
    var t := s[..3] + rest;
    assert t[0] == s[0] && t[1] == s[1] && t[2] == s[2] && t[3..] == rest;
  }

  /** Decoding never invents an empty or a dot segment. */
  lemma {:induction false} DecodeSpecial(p: string)
    requires PercentOk(p)
    ensures Decode(p) == "" <==> p == ""
    ensures Decode(p) == "." <==> p == "."
    ensures Decode(p) == ".." <==> p == ".."
  {
    if p != "" {
      if p[0] == '%' {
        assert Decode(p)[0] == Escaped(p);
      } else {
        DecodeSpecialTail(p);
      }
    }
  }

  lemma {:induction false} DecodeSpecialTail(p: string)
    requires PercentOk(p) && p != "" && p[0] != '%'
    ensures Decode(p) == "." <==> p == "."
    ensures Decode(p) == ".." <==> p == ".."
  {
    var t := p[1..];
    assert Decode(p) == [p[0]] + Decode(t) && Decode(p)[1..] == Decode(t);
    assert Decode(t) == "" <==> t == "";
    assert p == [p[0]] + t;
    if t != "" && t[0] == '%' {
      assert Decode(t)[0] == Escaped(t);
    } else if t != "" {
      assert Decode(t) == [t[0]] + Decode(t[1..]);
      assert Decode(t[1..]) == "" <==> t[1..] == "";
      assert t == [t[0]] + t[1..];
    }
  }

  /** Dot removal looks only at whether a segment is empty or dots, which decoding keeps. */
  lemma {:induction false} ResolveCommutes(segs: seq<string>, out: seq<string>)
    requires AllPercentOk(segs)
    ensures Resolve(DecodeAll(segs), DecodeAll(out)).Some? <==> Resolve(segs, out).Some?
    ensures Resolve(segs, out).Some? ==>
              Resolve(DecodeAll(segs), DecodeAll(out)).value == DecodeAll(Resolve(segs, out).value)
    decreases |segs|
  {
    if segs != [] {
      DecodeSpecial(segs[0]);
      assert DecodeAll(segs)[1..] == DecodeAll(segs[1..]);
      if segs[0] == "" || segs[0] == "." {
        ResolveCommutes(segs[1..], out);
      } else if segs[0] == ".." {
        if out != [] {
          assert DecodeAll(out)[..|out| - 1] == DecodeAll(out[..|out| - 1]);
          ResolveCommutes(segs[1..], out[..|out| - 1]);
        }
      } else {
        assert DecodeAll(out + [segs[0]]) == DecodeAll(out) + [Decode(segs[0])];
        ResolveCommutes(segs[1..], out + [segs[0]]);
      }
    }
  }

  // ---- the shape of a normalised path ----

  /** A segment that names something: a piece of a path that is neither empty nor dots. */
  predicate Proper(s: string)
  {
    s != "" && s != "." && s != ".." && '/' !in s
  }

  predicate Usable(s: string) { CharsOk(s) && PercentOk(s) && '?' !in s && '/' !in s }

  lemma {:induction false} ResolveKeeps(segs: seq<string>, out: seq<string>)
    requires forall i :: 0 <= i < |segs| ==> Usable(segs[i])
    requires forall i :: 0 <= i < |out| ==> Usable(out[i]) && Proper(out[i])
    ensures Resolve(segs, out).Some? ==>
      forall i :: 0 <= i < |Resolve(segs, out).value| ==>
        Usable(Resolve(segs, out).value[i]) && Proper(Resolve(segs, out).value[i])
    decreases |segs|
  {
    hide Usable, Proper;
    if segs != [] {
      if segs[0] == "" || segs[0] == "." {
        ResolveKeeps(segs[1..], out);
      } else if segs[0] == ".." {
        if out != [] { ResolveKeeps(segs[1..], out[..|out| - 1]); }
      } else {
        UsableProper(segs[0]);
        ResolveKeeps(segs[1..], out + [segs[0]]);
      }
    }
  }

  lemma UsableProper(s: string)
    requires Usable(s) && s != "" && s != "." && s != ".."
    ensures Proper(s)
  {
  }

  /** Proper segments are left alone. */
  lemma {:induction false} ResolveFixed(segs: seq<string>, out: seq<string>)
    requires forall i :: 0 <= i < |segs| ==> Proper(segs[i])
    ensures Resolve(segs, out) == Some(out + segs)
    decreases |segs|
  {
    if segs == [] {
      assert out + segs == out;
    } else {
      ResolveFixed(segs[1..], out + [segs[0]]);
      assert out + [segs[0]] + segs[1..] == out + segs;
    }
  }

  lemma {:induction false} PiecesCharsOk(s: string)
    requires CharsOk(s) && '?' !in s
    ensures forall i :: 0 <= i < |Split(s, '/')| ==> CharsOk(Split(s, '/')[i]) && '?' !in Split(s, '/')[i]
  {
    if s != "" { PiecesCharsOk(s[1..]); }
  }

  lemma PathPieces(raw: string)
    requires Acceptable(raw)
    ensures forall i :: 0 <= i < |Split(PathOf(raw), '/')| ==> Usable(Split(PathOf(raw), '/')[i])
  {
    hide PercentOk, Split, CharsOk;
    var path := PathOf(raw);
    assert CharsOk(path) by { PrefixCharsOk(raw, QueryAt(raw)); }
    PiecesCharsOk(path);
    DecodeSplit(path);
  }

  lemma PrefixCharsOk(s: string, n: nat)
    requires CharsOk(s) && n <= |s|
    ensures CharsOk(s[..n]) && CharsOk(s[n..])
  {
  }

  /** The segments of a target, in order. */
  function Segments(raw: string): seq<string>
    requires Canonical(raw).Some?
  {
    Resolve(Split(PathOf(raw), '/'), []).value
  }

  lemma {:induction false} SegmentsProper(raw: string)
    requires Canonical(raw).Some?
    ensures forall i :: 0 <= i < |Segments(raw)| ==> Usable(Segments(raw)[i]) && Proper(Segments(raw)[i])
  {
    hide Usable, Proper, Resolve, Split;
    PathPieces(raw);
    ResolveKeeps(Split(PathOf(raw), '/'), []);
  }

  // ---- commutation ----

  /** Nonempty pieces of a path. */
  function Pieces(path: string): seq<string> { NonEmpty(Split(path, '/')) }

  lemma {:induction false} NonEmptyFixed(parts: seq<string>)
    requires forall i :: 0 <= i < |parts| ==> parts[i] != ""
    ensures NonEmpty(parts) == parts
  {
    if parts != [] {
      NonEmptyFixed(parts[1..]);
      assert [parts[0]] + parts[1..] == parts;
    }
  }

  /** The canonical path is the rooted join of the segments, and cuts back into them. */
  lemma {:induction false} CanonicalPath(raw: string)
    requires Canonical(raw).Some?
    ensures PathOf(Canonical(raw).value) == "/" + Join(Segments(raw), "/")
    ensures QueryOf(Canonical(raw).value) == QueryOf(raw)
    ensures Split(PathOf(Canonical(raw).value), '/') == [""] + if Segments(raw) == [] then [""] else Segments(raw)
    ensures Pieces(PathOf(Canonical(raw).value)) == Segments(raw)
  {
    hide Usable, Resolve, Acceptable;
    var segs := Segments(raw);
    var path := "/" + Join(segs, "/");
    SegmentsProper(raw);
    assert forall i :: 0 <= i < |segs| ==> '/' !in segs[i] && segs[i] != "";
    assert '?' !in path by { NoQueryInJoin(segs); }
    QueryAfter(path, QueryOf(raw));
    SplitAt("", '/', Join(segs, "/"));
    assert "" + ['/'] + Join(segs, "/") == path;
    assert Split("", '/') == [""];
    if segs != [] { SplitJoin(segs, '/'); }
    NonEmptyFixed(segs);
    RootedPieces(segs);
  }

  lemma RootedPieces(segs: seq<string>)
    ensures NonEmpty([""] + segs) == NonEmpty(segs) && NonEmpty(["", ""]) == []
  {
    assert ([""] + segs)[1..] == segs;
    assert ["", ""][1..] == [""] && [""][1..] == [];
    assert NonEmpty([""]) == NonEmpty([]);
  }

  lemma {:induction false} NoQueryInJoin(segs: seq<string>)
    requires forall i :: 0 <= i < |segs| ==> Usable(segs[i])
    ensures '?' !in Join(segs, "/")
  {
    if |segs| > 1 { NoQueryInJoin(segs[1..]); }
  }

  lemma {:induction false} QueryAfter(path: string, query: string)
    requires '?' !in path && (query == "" || query[0] == '?')
    ensures PathOf(path + query) == path && QueryOf(path + query) == query
  {
    var all := path + query;
    if path == "" {
      assert all == query;
    } else {
      assert all[1..] == path[1..] + query;
      QueryAfter(path[1..], query);
    }
  }

  /**
   Decoding and normalising commute: a server that decodes the raw path once and then resolves
   dots reaches the segments of the canonical path, decoded one by one.
   */
  lemma {:induction false} DecodeThenResolve(raw: string)
    requires Canonical(raw).Some?
    ensures Resolve(Split(Decode(PathOf(raw)), '/'), [])
         == Some(DecodeAll(Pieces(PathOf(Canonical(raw).value))))
  {
    hide Split, Resolve, Decode, PercentOk;
    DecodeSplit(PathOf(raw));
    ResolveCommutes(Split(PathOf(raw), '/'), []);
    CanonicalPath(raw);
    assert DecodeAll([]) == [];
  }

  /** A server that decodes the canonical target instead reaches the same segments. */
  lemma {:induction false} DecodeCanonical(raw: string)
    requires Canonical(raw).Some?
    ensures Resolve(Split(Decode(PathOf(Canonical(raw).value)), '/'), [])
         == Resolve(Split(Decode(PathOf(raw)), '/'), [])
  {
    CanonicalIdempotent(raw);
    DecodeThenResolve(raw);
    DecodeThenResolve(Canonical(raw).value);
  }

  lemma {:induction false} DecodedClean(p: string)
    requires PercentOk(p) && CharsOk(p) && '/' !in p
    ensures '/' !in Decode(p) && '\\' !in Decode(p)
    decreases |p|
  {
    if p != "" {
      if p[0] == '%' {
        DecodedClean(p[3..]);
      } else {
        DecodedClean(p[1..]);
      }
    }
  }

  /** No decoded segment is empty, dots, or holds a separator of either kind. */
  lemma {:induction false} DecodedSegmentsProper(raw: string)
    requires Canonical(raw).Some?
    ensures forall i :: 0 <= i < |Segments(raw)| ==>
      Proper(Decode(Segments(raw)[i])) && '\\' !in Decode(Segments(raw)[i])
  {
    SegmentsProper(raw);
    hide Split, Resolve, Decode, PercentOk;
    forall i | 0 <= i < |Segments(raw)|
      ensures Proper(Decode(Segments(raw)[i])) && '\\' !in Decode(Segments(raw)[i])
    {
      DecodeSpecial(Segments(raw)[i]);
      DecodedClean(Segments(raw)[i]);
    }
  }

  // ---- idempotence ----

  lemma {:induction false} PercentOkSlash(a: string, b: string)
    requires PercentOk(a) && PercentOk(b)
    ensures PercentOk(a + b)
    decreases |a|
  {
    if a == "" {
      assert a + b == b;
    } else if a[0] == '%' {
      assert (a + b)[..3] == a[..3] && (a + b)[3..] == a[3..] + b;
      EscapeAppend(a, b);
      PercentOkSlash(a[3..], b);
    } else {
      assert (a + b)[1..] == a[1..] + b;
      PercentOkSlash(a[1..], b);
    }
  }

  lemma {:induction false} JoinOk(segs: seq<string>)
    requires forall i :: 0 <= i < |segs| ==> Usable(segs[i])
    ensures PercentOk(Join(segs, "/")) && CharsOk(Join(segs, "/"))
  {
    if |segs| > 1 {
      JoinOk(segs[1..]);
      assert PercentOk("/");
      PercentOkSlash(segs[0], "/");
      PercentOkSlash(segs[0] + "/", Join(segs[1..], "/"));
    }
  }

  lemma {:induction false} JoinHead(segs: seq<string>)
    requires forall i :: 0 <= i < |segs| ==> Proper(segs[i])
    ensures segs != [] ==> Join(segs, "/") != "" && Join(segs, "/")[0] != '/'
  {
    if segs != [] { assert segs[0][0] != '/'; }
  }

  lemma {:induction false} CanonicalAcceptable(raw: string)
    requires Canonical(raw).Some?
    ensures Acceptable(Canonical(raw).value)
  {
    hide Usable, Resolve, Split, PercentOk;
    var segs := Segments(raw);
    var c := Canonical(raw).value;
    CanonicalPath(raw);
    SegmentsProper(raw);
    JoinOk(segs);
    JoinHead(segs);
    assert PercentOk("/") by { SlashOk(); }
    PercentOkSlash("/", Join(segs, "/"));
    PrefixCharsOk(raw, QueryAt(raw));
  }

  lemma SlashOk()
    ensures PercentOk("/")
  {
  }

  /** `canonical_request_target` is idempotent, query included. */
  lemma {:induction false} CanonicalIdempotent(raw: string)
    requires Canonical(raw).Some?
    ensures Canonical(Canonical(raw).value) == Canonical(raw)
  {
    hide Usable, Acceptable, Join, Proper;
    var segs := Segments(raw);
    CanonicalAcceptable(raw);
    CanonicalPath(raw);
    SegmentsProper(raw);
    ResolveFixed(segs, []);
    assert [] + segs == segs;
    var cut := Split(PathOf(Canonical(raw).value), '/');
    assert cut[1..] == if segs == [] then [""] else segs;
    assert segs == [] ==> [""][1..] == [];
    assert Resolve(cut, []) == Some(segs);
  }

  // ---- section 5.2.4 of RFC 3986 ----

  /**
   The remove_dot_segments procedure of section 5.2.4 of RFC 3986 on the segments of a rooted
   path: it keeps empty segments, ends in a slash after a final dot segment, and clamps at the root.
   */
  function RfcRemove(segs: seq<string>, out: seq<string>): seq<string>
    decreases |segs|
  {
    if segs == [] then out
    else
      var popped := if segs[0] == ".." && out != [] then out[..|out| - 1] else out;
      if segs[0] == "." || segs[0] == ".." then
        if |segs| == 1 then popped + [""] else RfcRemove(segs[1..], popped)
      else RfcRemove(segs[1..], out + [segs[0]])
  }

  /** Along the procedure no `..` climbs above the root or takes back an empty segment. */
  predicate Smooth(segs: seq<string>, out: seq<string>)
    decreases |segs|
  {
    if segs == [] then true
    else if segs[0] == ".." then
      out != [] && out[|out| - 1] != "" && Smooth(segs[1..], out[..|out| - 1])
    else if segs[0] == "." then Smooth(segs[1..], out)
    else Smooth(segs[1..], out + [segs[0]])
  }

  lemma {:induction false} NonEmptySnoc(parts: seq<string>, s: string)
    ensures NonEmpty(parts + [s]) == NonEmpty(parts) + if s == "" then [] else [s]
  {
    if parts == [] {
      assert [s][1..] == [];
    } else {
      assert (parts + [s])[1..] == parts[1..] + [s];
      NonEmptySnoc(parts[1..], s);
    }
  }

  /** How many segments a list pushes: all but the dots and the empty ones. */
  function Pushes(segs: seq<string>): nat
  {
    if segs == [] then 0
    else (if segs[0] == "" || segs[0] == "." || segs[0] == ".." then 0 else 1) + Pushes(segs[1..])
  }

  function Ups(segs: seq<string>): nat
  {
    if segs == [] then 0 else (if segs[0] == ".." then 1 else 0) + Ups(segs[1..])
  }

  lemma {:induction false} ResolveLength(segs: seq<string>, out: seq<string>)
    ensures Resolve(segs, out).Some? ==> |Resolve(segs, out).value| == |out| + Pushes(segs) - Ups(segs)
    decreases |segs|
  {
    if segs != [] {
      if segs[0] == "" || segs[0] == "." {
        ResolveLength(segs[1..], out);
      } else if segs[0] == ".." {
        if out != [] { ResolveLength(segs[1..], out[..|out| - 1]); }
      } else {
        ResolveLength(segs[1..], out + [segs[0]]);
      }
    }
  }

  function Popped(seg: string, out: seq<string>): seq<string>
  {
    if seg == ".." && out != [] then out[..|out| - 1] else out
  }

  lemma {:induction false} PoppedLength(seg: string, out: seq<string>)
    ensures seg == ".." && out != [] && out[|out| - 1] != "" ==>
      NonEmpty(out) == NonEmpty(Popped(seg, out)) + [out[|out| - 1]]
    ensures !(seg == ".." && out != [] && out[|out| - 1] != "") ==> NonEmpty(Popped(seg, out)) == NonEmpty(out)
  {
    if out != [] {
      assert out == out[..|out| - 1] + [out[|out| - 1]];
      NonEmptySnoc(out[..|out| - 1], out[|out| - 1]);
    }
  }

  /** The procedure never takes back more than one segment for each `..`, and fewer when it is not smooth. */
  lemma {:induction false} RfcLength(segs: seq<string>, out: seq<string>)
    ensures |NonEmpty(RfcRemove(segs, out))| >= |NonEmpty(out)| + Pushes(segs) - Ups(segs)
    ensures !Smooth(segs, out) ==> |NonEmpty(RfcRemove(segs, out))| > |NonEmpty(out)| + Pushes(segs) - Ups(segs)
    decreases |segs|
  {
    if segs != [] {
      var popped := Popped(segs[0], out);
      PoppedLength(segs[0], out);
      if segs[0] == "." || segs[0] == ".." {
        NonEmptySnoc(popped, "");
        assert NonEmpty(popped) + [] == NonEmpty(popped);
        if |segs| > 1 {
          RfcLength(segs[1..], popped);
        } else {
          assert segs[1..] == [] && Smooth(segs[1..], popped) && Pushes(segs[1..]) == Ups(segs[1..]) == 0;
        }
      } else {
        NonEmptySnoc(out, segs[0]);
        RfcLength(segs[1..], out + [segs[0]]);
      }
    }
  }

  lemma {:induction false} SmoothAgrees(segs: seq<string>, out: seq<string>)
    requires Smooth(segs, out)
    ensures Resolve(segs, NonEmpty(out)) == Some(NonEmpty(RfcRemove(segs, out)))
    decreases |segs|
  {
    if segs != [] {
      var popped := Popped(segs[0], out);
      PoppedLength(segs[0], out);
      if segs[0] == "." || segs[0] == ".." {
        assert segs[0] == ".." ==> NonEmpty(out)[..|NonEmpty(out)| - 1] == NonEmpty(popped);
        NonEmptySnoc(popped, "");
        assert NonEmpty(popped) + [] == NonEmpty(popped);
        if |segs| > 1 { SmoothAgrees(segs[1..], popped); }
        assert |segs| == 1 ==> segs[1..] == [];
      } else {
        NonEmptySnoc(out, segs[0]);
        assert NonEmpty(out) + [] == NonEmpty(out);
        SmoothAgrees(segs[1..], out + [segs[0]]);
      }
    }
  }

  /** The two procedures keep the same segments if and only if the standard's run is smooth. */
  lemma {:induction false} ResolveAgreesWithRfc(segs: seq<string>)
    ensures Resolve(segs, []) == Some(NonEmpty(RfcRemove(segs, []))) <==> Smooth(segs, [])
  {
    assert NonEmpty([]) == [];
    if Smooth(segs, []) { SmoothAgrees(segs, []); }
    RfcLength(segs, []);
    ResolveLength(segs, []);
  }

  /**
   Against the standard, on every acceptable target: the canonical path has the segments that the
   procedure of section 5.2.4 of RFC 3986 keeps, up to empty ones, if and only if no `..` of the path
   climbs above the root or takes back an empty segment.
   */
  lemma {:induction false} AgreesWithRfc(raw: string)
    requires Acceptable(raw)
    ensures
      var segs := Split(PathOf(raw), '/')[1..];
      (Canonical(raw).Some? && Pieces(PathOf(Canonical(raw).value)) == NonEmpty(RfcRemove(segs, [])))
      <==> Smooth(segs, [])
  {
    hide Resolve, RfcRemove, Smooth, Pieces, NonEmpty, PercentOk;
    var path := PathOf(raw);
    RootedPath(raw);
    ResolveAgreesWithRfc(Split(path, '/')[1..]);
    if Canonical(raw).Some? { CanonicalPath(raw); }
  }

  /** The empty segment before the first slash adds nothing. */
  lemma {:induction false} RootedPath(raw: string)
    requires Acceptable(raw)
    ensures Resolve(Split(PathOf(raw), '/'), []) == Resolve(Split(PathOf(raw), '/')[1..], [])
  {
    var path := PathOf(raw);
    assert path[0] == '/';
    assert Split(path, '/')[0] == "";
  }
}
