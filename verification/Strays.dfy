/**
 Base64 text with characters off the alphabet: exactly which placements of strays leave the two
 decoders in agreement whatever the symbols are.
 */
module Strays {
  import opened Text
  import opened Base64

  function ByBroker(s: string): seq<byte> { ChunkedDecode(NoPad(s)) }
  function ByShell(s: string): seq<byte> { FeedAll(Stream(0, 0, []), s).out }

  function Head(cs: string): string { if |cs| >= 4 then cs[..4] else cs }
  function Tail(cs: string): (t: string)
    ensures cs != "" ==> |t| < |cs|
    ensures Head(cs) + t == cs
  {
    if |cs| >= 4 then cs[4..] else ""
  }

  /** Every chunk before the last chunk that holds a symbol has no symbol or four. */
  predicate Aligned(cs: string)
    decreases |cs|
  {
    if cs == "" then true
    else (|Vals(Head(cs))| == 0 || |Vals(Head(cs))| == 4 || Vals(Tail(cs)) == []) && Aligned(Tail(cs))
  }

  // ---- what each decoder makes of strays ----

  /** The symbols of a text, without pads and strays. */
  function Syms(s: string): string
  {
    if s == "" then "" else (if Val(s[0]).Some? then [s[0]] else "") + Syms(s[1..])
  }

  lemma {:induction false} SymsKeep(s: string)
    ensures AllSyms(Syms(s)) && Vals(Syms(s)) == Vals(s)
  {
    hide Val;
    if s != "" {
      SymsKeep(s[1..]);
      var h := if Val(s[0]).Some? then [s[0]] else "";
      ValsAppend(h, Syms(s[1..]));
      assert h != "" ==> h[1..] == "";
    }
  }

  lemma {:induction false} FeedSkips(st: Stream, s: string)
    ensures FeedAll(st, s) == FeedAll(st, Syms(s))
    decreases |s|
  {
    if s != "" {
      FeedSkips(Feed(st, s[0]), s[1..]);
      assert Val(s[0]).Some? ==> Syms(s)[0] == s[0] && Syms(s)[1..] == Syms(s[1..]);
      assert Val(s[0]).None? ==> Syms(s) == Syms(s[1..]);
    }
  }

  /** The shell decodes the symbols and nothing else. */
  lemma {:induction false} ShellSkipsStrays(s: string)
    ensures ByShell(s) == Bytes(Vals(s))
  {
    hide FeedAll, Bytes, Vals, Syms;
    SymsKeep(s);
    FeedSkips(Stream(0, 0, []), s);
    FeedSyms(Stream(0, 0, []), Syms(s));
  }

  lemma {:induction false} NoPadKeeps(s: string)
    ensures Vals(NoPad(s)) == Vals(s) && '=' !in NoPad(s)
  {
    if s != "" {
      NoPadKeeps(s[1..]);
      var h := if s[0] == '=' then "" else [s[0]];
      ValsAppend(h, NoPad(s[1..]));
      assert h != "" ==> h[1..] == "";
    }
  }

  lemma {:induction false} BrokerStep(cs: string)
    requires cs != ""
    ensures ChunkedDecode(cs) == Bytes(Vals(Head(cs))) + ChunkedDecode(Tail(cs))
    ensures Vals(cs) == Vals(Head(cs)) + Vals(Tail(cs))
  {
    hide ChunkBytes, Vals, Bytes;
    ChunkIsBytes(Head(cs));
    ValsAppend(Head(cs), Tail(cs));
    assert |cs| < 4 ==> cs[|cs|..] == "" && cs[..|cs|] == cs;
  }

  lemma {:induction false} BytesOfParts(a: seq<sextet>, b: seq<sextet>)
    requires |a| == 0 || |a| == 4 || b == []
    ensures Bytes(a + b) == Bytes(a) + Bytes(b)
  {
    if a == [] { assert a + b == b; } else { BytesFour(a, b); }
  }

  lemma {:induction false} AlignedAgree(cs: string)
    requires Aligned(cs)
    ensures ChunkedDecode(cs) == Bytes(Vals(cs))
    decreases |cs|
  {
    hide Bytes, Vals;
    if cs == "" {
      NoVals();
      NothingDecodes();
      assert Bytes([]) == [] by { NoBytes(); }
    } else {
      BrokerStep(cs);
      AlignedAgree(Tail(cs));
      BytesOfParts(Vals(Head(cs)), Vals(Tail(cs)));
    }
  }

  lemma NoBytes()
    ensures Bytes([]) == []
  {
  }

  // ---- the same strays with other symbols ----

  /** Symbols stand in the same places, and everything else is the same. */
  predicate SameShape(s: string, t: string)
  {
    && |s| == |t|
    && forall i :: 0 <= i < |s| ==> if Val(s[i]).Some? then Val(t[i]).Some? else t[i] == s[i]
  }

  /** Every symbol replaced by the symbol for zero. */
  function Zeroed(s: string): (t: string)
    ensures |t| == |s|
  {
    seq(|s|, i requires 0 <= i < |s| => if Val(s[i]).Some? then 'A' else s[i])
  }

  function Zeros(n: nat): (vs: seq<sextet>)
    ensures |vs| == n
  {
    if n == 0 then [] else [0] + Zeros(n - 1)
  }

  lemma {:induction false} ZeroedVals(s: string)
    ensures Vals(Zeroed(s)) == Zeros(|Vals(s)|) && SameShape(s, Zeroed(s))
  {
    if s != "" {
      ZeroedVals(s[1..]);
      assert Zeroed(s)[1..] == Zeroed(s[1..]);
    }
  }

  /** Zeros, and a one in the last place that holds a symbol. */
  function Marked(s: string): (t: string)
    ensures |t| == |s|
  {
    if s == "" then ""
    else if Val(s[0]).Some? then (if Vals(s[1..]) == [] then ['B'] + s[1..] else ['A'] + Marked(s[1..]))
    else [s[0]] + Marked(s[1..])
  }

  lemma {:induction false} MarkedVals(s: string)
    ensures SameShape(s, Marked(s))
    ensures Vals(s) != [] ==> Vals(Marked(s)) == Zeros(|Vals(s)| - 1) + [1]
  {
    if s != "" {
      var m := Marked(s);
      MarkedVals(s[1..]);
      assert m == [m[0]] + m[1..];
      if Val(s[0]).Some? && Vals(s[1..]) == [] {
        assert m[1..] == s[1..];
        assert Zeros(0) + [1] == [1];
      } else {
        assert m[1..] == Marked(s[1..]);
        if Val(s[0]).Some? {
          assert [0] + (Zeros(|Vals(s[1..])| - 1) + [1]) == Zeros(|Vals(s)| - 1) + [1];
        }
      }
    }
  }

  /**
   Symbols that tell the decoders apart: zeros, but for the last symbol of the first chunk out of
   line, whose lowest bit the broker drops.
   */
  function Spoilt(cs: string): (t: string)
    requires !Aligned(cs)
    ensures |t| == |cs|
    decreases |cs|
  {
    var k := |Vals(Head(cs))|;
    if k == 0 || k == 4 || Vals(Tail(cs)) == [] then Zeroed(Head(cs)) + Spoilt(Tail(cs))
    else Marked(Head(cs)) + Zeroed(Tail(cs))
  }

  lemma {:induction false} ShapeParts(a: string, b: string, x: string, y: string)
    requires SameShape(a, x) && SameShape(b, y)
    ensures SameShape(a + b, x + y)
  {
  }

  lemma {:induction false} SpoiltShape(cs: string)
    requires !Aligned(cs)
    ensures SameShape(cs, Spoilt(cs))
    decreases |cs|
  {
    hide SameShape, Vals, Val;
    var h, t := Head(cs), Tail(cs);
    ZeroedVals(h);
    ZeroedVals(t);
    MarkedVals(h);
    var k := |Vals(h)|;
    if k == 0 || k == 4 || Vals(t) == [] {
      SpoiltShape(t);
      ShapeParts(h, t, Zeroed(h), Spoilt(t));
    } else {
      ShapeParts(h, t, Marked(h), Zeroed(t));
    }
  }

  predicate AllZero(bs: seq<byte>) { forall i :: 0 <= i < |bs| ==> bs[i] == 0 }

  lemma {:induction false} ZeroBytes(n: nat)
    ensures AllZero(Bytes(Zeros(n)))
  {
    var vs := Zeros(n);
    ZerosAt(n);
    if n >= 4 {
      assert vs[4..] == Zeros(n - 4) by { ZerosAt(n - 4); }
      ZeroBytes(n - 4);
    }
  }

  lemma {:induction false} ZerosAt(n: nat)
    ensures forall i :: 0 <= i < n ==> Zeros(n)[i] == 0
  {
    if n > 0 { ZerosAt(n - 1); }
  }

  lemma {:induction false} MarkDropped(k: nat)
    requires 1 <= k <= 3
    ensures AllZero(Bytes(Zeros(k - 1) + [1]))
  {
    ZerosAt(k - 1);
  }

  lemma {:induction false} MarkSeen(k: nat, n: nat)
    requires 1 <= k <= 3 && n >= 1
    ensures !AllZero(Bytes(Zeros(k - 1) + [1] + Zeros(n)))
  {
    var vs: seq<sextet> := Zeros(k - 1) + [1] + Zeros(n);
    ZerosAt(k - 1);
    ZerosAt(n);
    var bs := Bytes(vs);
    assert vs[k - 1] == 1 && vs[k] == 0;
    assert k == 1 ==> bs[0] == Byte0(1, 0);
    assert k == 2 ==> bs[1] == Byte1(1, 0);
    assert k == 3 ==> bs[2] == Byte2(1, 0);
  }

  lemma {:induction false} HeadTail(a: string, b: string, cs: string)
    requires |a| == |Head(cs)| && |b| == |Tail(cs)|
    ensures Head(a + b) == a && Tail(a + b) == b
  {
    var s := a + b;
    if |cs| >= 4 {
      assert s[..4] == a && s[4..] == b;
    } else {
      assert b == "" && s == a;
    }
  }

  /** Zeros all through: whatever the placement, the broker reads zeros. */
  lemma {:induction false} BrokerZeros(cs: string)
    ensures AllZero(ChunkedDecode(Zeroed(cs)))
    decreases |cs|
  {
    hide Bytes, Vals;
    if cs == "" {
      assert Zeroed(cs) == "";
      NothingDecodes();
    } else {
      var z := Zeroed(cs);
      BrokerStep(z);
      assert z == Zeroed(Head(cs)) + Zeroed(Tail(cs));
      HeadTail(Zeroed(Head(cs)), Zeroed(Tail(cs)), cs);
      ZeroedVals(Head(cs));
      ZeroBytes(|Vals(Head(cs))|);
      BrokerZeros(Tail(cs));
    }
  }

  lemma {:induction false} SpoiltParts(cs: string)
    requires !Aligned(cs)
    ensures cs != "" && Spoilt(cs) != ""
    ensures
      var h, t := Head(cs), Tail(cs);
      var k := |Vals(h)|;
      if k == 0 || k == 4 || Vals(t) == [] then
        !Aligned(t) && Head(Spoilt(cs)) == Zeroed(h) && Tail(Spoilt(cs)) == Spoilt(t)
      else
        1 <= k <= 3 && Head(Spoilt(cs)) == Marked(h) && Tail(Spoilt(cs)) == Zeroed(t)
  {
    hide Vals;
    var h, t := Head(cs), Tail(cs);
    var k := |Vals(h)|;
    ValsShorter(h);
    if k == 0 || k == 4 || Vals(t) == [] {
      HeadTail(Zeroed(h), Spoilt(t), cs);
    } else {
      HeadTail(Marked(h), Zeroed(t), cs);
    }
  }

  lemma {:induction false} BrokerMissesMark(cs: string)
    requires !Aligned(cs)
    ensures AllZero(ChunkedDecode(Spoilt(cs)))
    decreases |cs|
  {
    hide Bytes, Vals, Spoilt, ChunkedDecode, Aligned, Zeroed, Marked;
    var h, t := Head(cs), Tail(cs);
    var k := |Vals(h)|;
    SpoiltParts(cs);
    BrokerStep(Spoilt(cs));
    if k == 0 || k == 4 || Vals(t) == [] {
      ZeroedVals(h);
      ZeroBytes(k);
      BrokerMissesMark(t);
    } else {
      MarkedVals(h);
      MarkDropped(k);
      BrokerZeros(t);
    }
  }

  lemma {:induction false} NoSymbolsAligned(cs: string)
    requires Vals(cs) == []
    ensures Aligned(cs)
    decreases |cs|
  {
    if cs != "" {
      ValsAppend(Head(cs), Tail(cs));
      NoSymbolsAligned(Tail(cs));
    }
  }

  lemma {:induction false} ShellSeesMark(cs: string)
    requires !Aligned(cs)
    ensures !AllZero(Bytes(Vals(Spoilt(cs))))
    decreases |cs|
  {
    hide Bytes, Vals, Spoilt, ChunkedDecode, Aligned, Zeroed, Marked, AllZero;
    var h, t := Head(cs), Tail(cs);
    var k := |Vals(h)|;
    SpoiltParts(cs);
    BrokerStep(Spoilt(cs));
    if k == 0 || k == 4 || Vals(t) == [] {
      if Vals(t) == [] { NoSymbolsAligned(t); }
      ZeroedVals(h);
      ShellSeesMark(t);
      BytesOfParts(Zeros(k), Vals(Spoilt(t)));
      NonZeroAfter(Bytes(Zeros(k)), Bytes(Vals(Spoilt(t))));
    } else {
      MarkedVals(h);
      ZeroedVals(t);
      MarkSeen(k, |Vals(t)|);
    }
  }

  lemma NonZeroAfter(a: seq<byte>, b: seq<byte>)
    requires !AllZero(b)
    ensures !AllZero(a + b)
  {
    var i :| 0 <= i < |b| && b[i] != 0;
    assert (a + b)[|a| + i] == b[i];
  }

  // ---- with the pads back in ----

  /** `s` with its characters other than pads replaced, in order, by those of `cs`. */
  function Refill(s: string, cs: string): (t: string)
    requires |cs| == |NoPad(s)|
    ensures |t| == |s|
  {
    if s == "" then ""
    else if s[0] == '=' then ['='] + Refill(s[1..], cs)
    else [cs[0]] + Refill(s[1..], cs[1..])
  }

  lemma {:induction false} RefillShape(s: string, cs: string)
    requires SameShape(NoPad(s), cs)
    ensures SameShape(s, Refill(s, cs)) && NoPad(Refill(s, cs)) == cs
  {
    if s == "" {
      assert cs == "";
    } else {
      var t := Refill(s, cs);
      if s[0] == '=' {
        RefillShape(s[1..], cs);
        assert t[1..] == Refill(s[1..], cs);
      } else {
        var rest := NoPad(s);
        assert rest[0] == s[0] && rest[1..] == NoPad(s[1..]);
        assert cs[0] != '=' by { PadIsNone(); }
        RefillShape(s[1..], cs[1..]);
        assert t[1..] == Refill(s[1..], cs[1..]) && t[0] == cs[0];
        assert cs == [cs[0]] + cs[1..];
      }
      ShapeParts([s[0]], s[1..], [t[0]], t[1..]);
      assert s == [s[0]] + s[1..] && t == [t[0]] + t[1..];
    }
  }

  lemma {:induction false} ShapeVals(s: string, t: string)
    requires SameShape(s, t)
    ensures |Vals(s)| == |Vals(t)|
  {
    if s != "" { ShapeVals(s[1..], t[1..]); }
  }

  lemma {:induction false} ShapeNoPad(s: string, t: string)
    requires SameShape(s, t)
    ensures SameShape(NoPad(s), NoPad(t))
  {
    if s != "" {
      PadIsNone();
      ShapeNoPad(s[1..], t[1..]);
      var a, b := if s[0] == '=' then "" else [s[0]], if t[0] == '=' then "" else [t[0]];
      ShapeParts(a, NoPad(s[1..]), b, NoPad(t[1..]));
    }
  }

  lemma {:induction false} ShapeAligned(s: string, t: string)
    requires SameShape(s, t)
    ensures Aligned(s) <==> Aligned(t)
    decreases |s|
  {
    if s != "" {
      hide Vals;
      assert SameShape(Head(s), Head(t)) && SameShape(Tail(s), Tail(t));
      ShapeVals(Head(s), Head(t));
      ShapeVals(Tail(s), Tail(t));
      ShapeAligned(Tail(s), Tail(t));
    }
  }

  /**
   The exact condition. The strays of a text leave the decoders in agreement whatever symbols stand
   in the other places, if and only if every chunk before the last one with a symbol has none or four.
   */
  lemma {:induction false} StraysAgreeIffAligned(s: string)
    ensures Aligned(NoPad(s)) <==> forall t :: SameShape(s, t) ==> ByBroker(t) == ByShell(t)
  {
    hide Aligned, SameShape, ChunkedDecode, FeedAll, Vals, Bytes, NoPad, Spoilt;
    if Aligned(NoPad(s)) {
      forall t | SameShape(s, t) ensures ByBroker(t) == ByShell(t) {
        ShapeNoPad(s, t);
        ShapeAligned(NoPad(s), NoPad(t));
        AlignedAgree(NoPad(t));
        NoPadKeeps(t);
        ShellSkipsStrays(t);
      }
    } else {
      var t := Differing(s);
      assert SameShape(s, t) && ByBroker(t) != ByShell(t);
    }
  }

  /** A text of the same shape on which the decoders differ. */
  lemma {:induction false} Differing(s: string) returns (t: string)
    requires !Aligned(NoPad(s))
    ensures SameShape(s, t) && ByBroker(t) != ByShell(t)
  {
    hide Aligned, SameShape, ChunkedDecode, FeedAll, Vals, Bytes, NoPad, Spoilt;
    var cs := Spoilt(NoPad(s));
    SpoiltShape(NoPad(s));
    ShapeLength(NoPad(s), cs);
    t := Refill(s, cs);
    RefillShape(s, cs);
    NoPadKeeps(t);
    BrokerMissesMark(NoPad(s));
    ShellSeesMark(NoPad(s));
    ShellSkipsStrays(t);
  }

  lemma ShapeLength(s: string, t: string)
    requires SameShape(s, t)
    ensures |s| == |t|
  {
  }
}
