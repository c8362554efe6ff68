/**
 Reading through derived directories: a chain of `derive_sub` followed by a read is one read of
 the joined path through the top capability, in outcome, bytes and taint.
 */
module Reading {
  import opened Text
  import opened Registry
  import opened Broker
  import opened Paths

  /** Derives `segs` one under the other from `r`, under the names `ids`; every directory opens. */
  function Chain(st: State, d: Disk, r: Ref, segs: seq<string>, ids: seq<Ref>): Option<(State, Ref)>
    requires |ids| == |segs|
    decreases |segs|
  {
    if segs == [] then Some((st, r))
    else if ids[0] in st.caps then None
    else
      var (after, reply) := DeriveSubOp(st, d, ids[0], r, segs[0], true);
      if reply.CapIs? then Chain(after, d, reply.r, segs[1..], ids[1..]) else None
  }

  lemma {:induction false} DeriveFacts(st: State, d: Disk, id: Ref, r: Ref, seg: string)
    requires id !in st.caps && DeriveSubOp(st, d, id, r, seg, true).1.CapIs?
    ensures
      var (after, reply) := DeriveSubOp(st, d, id, r, seg, true);
      && reply == CapIs(id) && r in st.caps && id in after.caps && r in after.caps
      && Extends(st.caps, after.caps) && after.caps[r] == st.caps[r]
      && SafeJoin(st.caps[r].root, seg).Some? && after.caps[id].root == SafeJoin(st.caps[r].root, seg).value
      && after.caps[id].ops == st.caps[r].ops && after.caps[id].taint == st.caps[r].taint
      && after.caps[id].anchored && st.caps[r].anchored && !after.caps[id].revoked && after.caps[id].parent == Some(r)
      && IsActive(after.caps, r)
  {
    hide IsActive, SafeJoin;
    var (after, reply) := DeriveSubOp(st, d, id, r, seg, true);
    var p := st.caps[r];
    var c := BlankCap(Dir).(root := SafeJoin(p.root, seg).value, ops := p.ops, taint := p.taint, anchored := true,
                            parent := Some(r));
    assert after.caps == Insert(st.caps, id, c);
    ParentActivity(st.caps, id, c, r);
  }

  /** What the end of a chain looks like in the final state. */
  lemma {:induction false} ChainFacts(st: State, d: Disk, r: Ref, segs: seq<string>, ids: seq<Ref>)
    requires |ids| == |segs| && segs != [] && Chain(st, d, r, segs, ids).Some?
    ensures
      var (fin, x) := Chain(st, d, r, segs, ids).value;
      && r in st.caps && r in fin.caps && x in fin.caps
      && Extends(st.caps, fin.caps)
      && IsActive(fin.caps, r) && IsActive(fin.caps, x)
      && fin.caps[x].ops == st.caps[r].ops && fin.caps[x].taint == st.caps[r].taint
      && fin.caps[x].anchored && st.caps[r].anchored
      && ChainRoot(st.caps[r].root, segs) == Some(fin.caps[x].root)
    decreases |segs|
  {
    hide DeriveSubOp, IsActive, SafeJoin, Extends;
    var (s1, reply) := DeriveSubOp(st, d, ids[0], r, segs[0], true);
    DeriveFacts(st, d, ids[0], r, segs[0]);
    if |segs| == 1 {
      assert segs[1..] == [] && ids[1..] == [];
      ChildActive(s1.caps, ids[0], r);
    } else {
      ChainFacts(s1, d, ids[0], segs[1..], ids[1..]);
      var (fin, x) := Chain(st, d, r, segs, ids).value;
      ExtendsTransitive(st.caps, s1.caps, fin.caps);
      TopActive(s1.caps, fin.caps, ids[0], r);
    }
  }

  lemma ChildActive(caps: Caps, id: Ref, r: Ref)
    requires id in caps && !caps[id].revoked && caps[id].parent == Some(r) && IsActive(caps, r)
    ensures IsActive(caps, id)
  {
  }

  lemma TopActive(a: Caps, b: Caps, id: Ref, r: Ref)
    requires Extends(a, b) && r in a && id in a && a[id].parent == Some(r) && IsActive(b, id)
    ensures r in b && IsActive(b, r)
  {
  }

  /** Where a chain and a joined path lead: the same root, and the same secrecy. */
  lemma {:induction false} SamePlace(root: string, segs: seq<string>, rel: string)
    requires segs != [] && (forall i :: 0 <= i < |segs| ==> segs[i] != "") && !Absolute(rel)
    requires ChainRoot(root, segs).Some?
    ensures SafeJoin(ChainRoot(root, segs).value, rel) == SafeJoin(root, Join(segs, "/") + "/" + rel)
  {
    hide SafeJoin, Absolute, Climbs;
    ChainRelative(root, segs);
    ChainIsOneJoin(root, segs);
    JoinTwice(root, Join(segs, "/"), rel);
    JoinNonEmpty(segs);
  }

  lemma {:induction false} ChainRelative(root: string, segs: seq<string>)
    requires ChainRoot(root, segs).Some?
    ensures forall i :: 0 <= i < |segs| ==> !Absolute(segs[i])
    decreases |segs|
  {
    if segs != [] {
      ChainRelative(SafeJoin(root, segs[0]).value, segs[1..]);
      assert forall i :: 0 < i < |segs| ==> segs[i] == segs[1..][i - 1];
    }
  }

  lemma JoinNonEmpty(segs: seq<string>)
    requires segs != [] && segs[0] != ""
    ensures Join(segs, "/") != ""
  {
  }

  /**
   Through any chain of derivations on nonempty segments, a read of `rel` gives exactly what a read of
   the joined path through the top capability gives: refusal or the same bytes with the same taint.
   An absolute `rel` is refused through the chain.
   */
  lemma {:induction false} ReadIndependentOfCut(st: State, d: Disk, r: Ref, segs: seq<string>, ids: seq<Ref>,
                                                rel: string, data: Option<string>)
    requires |ids| == |segs| && segs != [] && Chain(st, d, r, segs, ids).Some?
    requires forall i :: 0 <= i < |segs| ==> segs[i] != ""
    ensures
      var (fin, x) := Chain(st, d, r, segs, ids).value;
      ReadInner(fin, x, rel, data) ==
      if Absolute(rel) then None else ReadInner(fin, r, Join(segs, "/") + "/" + rel, data)
  {
    hide Chain, IsActive, ChainRoot, SafeJoin, IsSecretPath, Join;
    var (fin, x) := Chain(st, d, r, segs, ids).value;
    ChainFacts(st, d, r, segs, ids);
    if Absolute(rel) {
      AbsoluteRefused(fin.caps[x].root, rel);
    } else {
      SamePlace(st.caps[r].root, segs, rel);
    }
    TaintIndependentOfCut(st.caps[r].root, segs, rel);
  }

  lemma AbsoluteRefused(root: string, rel: string)
    requires Absolute(rel)
    ensures SafeJoin(root, rel) == None
  {
  }
}
