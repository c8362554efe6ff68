/**
 The path allowlist of an HTTP capability (`net.rs`): the glob matcher, and what a match says
 about the path the server will see.
 */
module Glob {
  import opened Text
  import opened Target

  const ANY_RUN: string := "**"
  const ANY_ONE: string := "*"

  /** `seg_match`. */
  predicate SegMatch(pat: seq<string>, q: seq<string>)
    decreases |pat|
  {
    if pat == [] then q == []
    else if pat[0] == ANY_RUN then exists i :: 0 <= i <= |q| && SegMatch(pat[1..], q[i..])
    else q != [] && (pat[0] == ANY_ONE || pat[0] == q[0]) && SegMatch(pat[1..], q[1..])
  }

  function TrimSlashes(s: string): string
  {
    if s == "" then ""
    else if s[0] == '/' then TrimSlashes(s[1..])
    else if s[|s| - 1] == '/' then TrimSlashes(s[..|s| - 1])
    else s
  }

  /** `path_matches`. */
  predicate PathMatches(pattern: string, path: string)
  {
    SegMatch(Split(TrimSlashes(pattern), '/'), Split(TrimSlashes(path), '/'))
  }

  // ---- what a pattern means ----

  function Concat(pieces: seq<seq<string>>): seq<string>
  {
    if pieces == [] then [] else pieces[0] + Concat(pieces[1..])
  }

  predicate Fits(p: string, piece: seq<string>)
  {
    if p == ANY_RUN then true else if p == ANY_ONE then |piece| == 1 else piece == [p]
  }

  /** `q` is cut into consecutive pieces, one for each pattern segment. */
  predicate Cuts(pat: seq<string>, q: seq<string>, pieces: seq<seq<string>>)
  {
    |pieces| == |pat| && Concat(pieces) == q && forall i :: 0 <= i < |pat| ==> Fits(pat[i], pieces[i])
  }

  lemma {:induction false} MatchHasCut(pat: seq<string>, q: seq<string>) returns (pieces: seq<seq<string>>)
    requires SegMatch(pat, q)
    ensures Cuts(pat, q, pieces)
    decreases |pat|
  {
    if pat == [] {
      pieces := [];
    } else {
      var n := 1;
      if pat[0] == ANY_RUN {
        n :| 0 <= n <= |q| && SegMatch(pat[1..], q[n..]);
      }
      var rest := MatchHasCut(pat[1..], q[n..]);
      pieces := [q[..n]] + rest;
      assert pieces[1..] == rest && q[..n] + q[n..] == q;
      assert pat[0] != ANY_RUN ==> q[..n] == [q[0]];
      forall i | 0 <= i < |pat| ensures Fits(pat[i], pieces[i]) {
        if i > 0 { assert pat[i] == pat[1..][i - 1] && pieces[i] == rest[i - 1]; }
      }
    }
  }

  lemma {:induction false} CutMatches(pat: seq<string>, q: seq<string>, pieces: seq<seq<string>>)
    requires Cuts(pat, q, pieces)
    ensures SegMatch(pat, q)
    decreases |pat|
  {
    if pat != [] {
      var n := |pieces[0]|;
      assert Fits(pat[0], pieces[0]);
      assert q[n..] == Concat(pieces[1..]) && q[..n] == pieces[0];
      forall i | 0 <= i < |pat| - 1 ensures Fits(pat[1..][i], pieces[1..][i]) {
        assert Fits(pat[i + 1], pieces[i + 1]);
      }
      CutMatches(pat[1..], q[n..], pieces[1..]);
      assert pat[0] != ANY_RUN ==> n == 1 && q[0] == pieces[0][0];
    }
  }

  /** Soundness and completeness: a match is exactly a cut. */
  lemma {:induction false} MatchIffCut(pat: seq<string>, q: seq<string>)
    ensures SegMatch(pat, q) <==> exists pieces :: Cuts(pat, q, pieces)
  {
    if SegMatch(pat, q) {
      var pieces := MatchHasCut(pat, q);
    }
    if exists pieces :: Cuts(pat, q, pieces) {
      var pieces :| Cuts(pat, q, pieces);
      CutMatches(pat, q, pieces);
    }
  }

  /** `b` is `a`, or a wildcard at least as wide. */
  predicate Wider(a: string, b: string)
  {
    b == a || b == ANY_RUN || (b == ANY_ONE && a != ANY_RUN)
  }

  /** Widening a literal to `*`, or `*` to `**`, anywhere in a pattern, never loses a match. */
  lemma {:induction false} WideningKeepsMatches(pat: seq<string>, wide: seq<string>, q: seq<string>)
    requires |pat| == |wide| && forall i :: 0 <= i < |pat| ==> Wider(pat[i], wide[i])
    requires SegMatch(pat, q)
    ensures SegMatch(wide, q)
  {
    var pieces := MatchHasCut(pat, q);
    forall i | 0 <= i < |wide| ensures Fits(wide[i], pieces[i]) {
      assert Wider(pat[i], wide[i]) && Fits(pat[i], pieces[i]);
    }
    CutMatches(wide, q, pieces);
  }

  // ---- the allowlist and the server ----

  lemma {:induction false} JoinEnds(segs: seq<string>)
    requires segs != [] && forall i :: 0 <= i < |segs| ==> Proper(segs[i])
    ensures Join(segs, "/") != "" && Join(segs, "/")[0] != '/' && Join(segs, "/")[|Join(segs, "/")| - 1] != '/'
  {
    assert segs[0][0] in segs[0];
    if |segs| == 1 {
      assert segs[0][|segs[0]| - 1] in segs[0];
    } else {
      JoinEnds(segs[1..]);
    }
  }

  /** The segments the matcher sees: the root path counts as one empty segment. */
  function Seen(segs: seq<string>): seq<string> { if segs == [] then [""] else segs }

  /** Matching the canonical path is matching its segments. */
  lemma {:induction false} MatchIsOnSegments(raw: string, pattern: string)
    requires Canonical(raw).Some?
    ensures PathMatches(pattern, PathOf(Canonical(raw).value))
       <==> SegMatch(Split(TrimSlashes(pattern), '/'), Seen(Segments(raw)))
  {
    hide SegMatch, Usable, Acceptable, Resolve;
    var segs := Segments(raw);
    SegmentsProper(raw);
    CanonicalPath(raw);
    var j := Join(segs, "/");
    assert ("/" + j)[1..] == j;
    if segs == [] {
      assert TrimSlashes("/" + j) == TrimSlashes(j) == "";
    } else {
      JoinEnds(segs);
      assert TrimSlashes("/" + j) == TrimSlashes(j) == j;
      SplitJoin(segs, '/');
    }
  }

  predicate Literal(p: string) { p != ANY_RUN && p != ANY_ONE && p != "" }

  lemma {:induction false} LiteralPrefix(pat: seq<string>, q: seq<string>, k: nat)
    requires k <= |pat| && forall i :: 0 <= i < k ==> Literal(pat[i])
    requires SegMatch(pat, q)
    ensures k <= |q| && q[..k] == pat[..k]
    decreases k
  {
    if k > 0 {
      assert Literal(pat[0]);
      forall i | 0 <= i < k - 1 ensures Literal(pat[1..][i]) { assert Literal(pat[i + 1]); }
      LiteralPrefix(pat[1..], q[1..], k - 1);
      assert q[..k] == [q[0]] + q[1..][..k - 1] && pat[..k] == [pat[0]] + pat[1..][..k - 1];
    }
  }

  /**
   The allowlist confines the server: if the canonical path matches a pattern that begins with
   `k` literal segments, then the path the server reaches by decoding the raw target once and
   resolving dots begins with those literals, decoded.
   */
  lemma {:induction false} AllowlistConfinesServer(raw: string, pattern: string, k: nat)
    requires Canonical(raw).Some?
    requires PathMatches(pattern, PathOf(Canonical(raw).value))
    requires k <= |Split(TrimSlashes(pattern), '/')|
    requires forall i :: 0 <= i < k ==> Literal(Split(TrimSlashes(pattern), '/')[i])
    ensures
      var seen := Resolve(Split(Decode(PathOf(raw)), '/'), []);
      && seen.Some? && k <= |seen.value|
      && seen.value[..k] == DecodeAll(Split(TrimSlashes(pattern), '/')[..k])
  {
    hide Resolve, Split, Decode, PathMatches, SegMatch, Acceptable;
    var pat := Split(TrimSlashes(pattern), '/');
    MatchIsOnSegments(raw, pattern);
    LiteralPrefix(pat, Seen(Segments(raw)), k);
    assert k > 0 ==> pat[..k][0] != "";
    assert Segments(raw) == [] ==> k == 0;
    assert Segments(raw)[..k] == pat[..k];
    DecodeThenResolve(raw);
    CanonicalPath(raw);
    assert DecodeAll(Segments(raw))[..k] == DecodeAll(Segments(raw)[..k]);
  }
}
