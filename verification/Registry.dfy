/**
 The capability registry of a session (`lib.rs`): capabilities with parent pointers, activity
 up the parent chain, and revocation that reaches every descendant.
 */
module Registry {
  import opened Text

  type Ref = string

  datatype Taint = Green | Yellow | Project | Secret | External | AgentGenerated
  datatype Op = Read | Write | Delete | List | Exec
  datatype Kind = Dir | Sink | Command | Http | Message

  datatype HttpSpec = HttpSpec(scheme: string, methods: seq<string>, paths: seq<string>)
  datatype MsgSpec = MsgSpec(mailbox: string, prefix: string, oneShot: bool, canReceive: bool)

  /**
   A capability. `anchored`: it holds a directory descriptor. `born` is how many capabilities
   were registered before it; the source keeps no such number, it only makes "older" precise.
   */
  datatype Cap = Cap(kind: Kind, revoked: bool, root: string, ops: seq<Op>, taint: Taint, argv: seq<string>,
                     anchored: bool, http: Option<HttpSpec>, msg: Option<MsgSpec>, parent: Option<Ref>, born: nat)

  /** Parents exist and are older than their children. */
  ghost predicate WellFounded(m: map<Ref, Cap>)
  {
    forall r :: r in m ==>
      && m[r].born < |m|
      && (m[r].parent.Some? ==> m[r].parent.value in m && m[m[r].parent.value].born < m[r].born)
  }

  type Caps = m: map<Ref, Cap> | WellFounded(m) witness map[]

  /** `is_active`: present, not revoked, and no revoked ancestor. Ends because parents are older. */
  predicate IsActive(caps: Caps, r: Ref)
    decreases if r in caps then caps[r].born + 1 else 0
  {
    r in caps && !caps[r].revoked && (caps[r].parent.Some? ==> IsActive(caps, caps[r].parent.value))
  }

  /** `x` is `a` or was derived from it, in any number of steps. */
  predicate Descends(caps: Caps, x: Ref, a: Ref)
    decreases if x in caps then caps[x].born + 1 else 0
  {
    x in caps && (x == a || (caps[x].parent.Some? && Descends(caps, caps[x].parent.value, a)))
  }

  // ---- registering and revoking ----

  predicate CanInsert(caps: Caps, r: Ref, c: Cap)
  {
    r !in caps && (c.parent.Some? ==> c.parent.value in caps)
  }

  function Insert(caps: Caps, r: Ref, c: Cap): (after: Caps)
    requires CanInsert(caps, r, c)
    ensures after == caps[r := c.(born := |caps|)]
  {
    var m: map<Ref, Cap> := caps;
    var after := m[r := c.(born := |m|)];
    assert after.Keys == m.Keys + {r};
    assert |after| == |m| + 1;
    after
  }

  function SetRevoked(caps: Caps, r: Ref): (after: Caps)
    requires r in caps
    ensures after == caps[r := caps[r].(revoked := true)]
  {
    var m: map<Ref, Cap> := caps;
    var after := m[r := m[r].(revoked := true)];
    assert after.Keys == m.Keys;
    assert |after| == |m|;
    after
  }

  /** What every step of a session does to the registry: nothing goes away, flags only rise. */
  ghost predicate Extends(a: Caps, b: Caps)
  {
    forall r :: r in a ==> r in b && b[r] == a[r].(revoked := b[r].revoked) && (a[r].revoked ==> b[r].revoked)
  }

  lemma ExtendsTransitive(a: Caps, b: Caps, c: Caps)
    requires Extends(a, b) && Extends(b, c)
    ensures Extends(a, c)
  {
  }

  lemma InsertExtends(caps: Caps, r: Ref, c: Cap)
    requires CanInsert(caps, r, c)
    ensures Extends(caps, Insert(caps, r, c))
  {
  }

  lemma RevokeExtends(caps: Caps, r: Ref)
    requires r in caps
    ensures Extends(caps, SetRevoked(caps, r))
  {
  }

  /** An inactive capability stays inactive. */
  lemma {:induction false} StaysInactive(a: Caps, b: Caps, r: Ref)
    requires Extends(a, b) && r in a
    ensures IsActive(b, r) ==> IsActive(a, r)
    decreases a[r].born
  {
    if a[r].parent.Some? { StaysInactive(a, b, a[r].parent.value); }
  }

  /** Descent between registered capabilities never changes. */
  lemma {:induction false} DescentFixed(a: Caps, b: Caps, x: Ref, r: Ref)
    requires Extends(a, b) && x in a
    ensures Descends(b, x, r) <==> Descends(a, x, r)
    decreases a[x].born
  {
    if a[x].parent.Some? { DescentFixed(a, b, a[x].parent.value, r); }
  }

  lemma {:induction false} DescendsTransitive(caps: Caps, x: Ref, y: Ref, z: Ref)
    requires Descends(caps, x, y) && Descends(caps, y, z)
    ensures Descends(caps, x, z)
    decreases caps[x].born
  {
    if x != y { DescendsTransitive(caps, caps[x].parent.value, y, z); }
  }

  /** A capability is active only while all its ancestors are. */
  lemma {:induction false} ActiveAncestors(caps: Caps, x: Ref, a: Ref)
    requires Descends(caps, x, a) && IsActive(caps, x)
    ensures IsActive(caps, a) && !caps[a].revoked
    decreases caps[x].born
  {
    if x != a { ActiveAncestors(caps, caps[x].parent.value, a); }
  }

  /** Revoking `r` deactivates exactly `r` and its descendants. */
  lemma {:induction false} RevokeIsExact(caps: Caps, r: Ref, x: Ref)
    requires r in caps
    ensures IsActive(SetRevoked(caps, r), x) <==> IsActive(caps, x) && !Descends(caps, x, r)
    decreases if x in caps then caps[x].born + 1 else 0
  {
    if x in caps && caps[x].parent.Some? { RevokeIsExact(caps, r, caps[x].parent.value); }
  }

  lemma {:induction false} ParentActivity(caps: Caps, r: Ref, c: Cap, x: Ref)
    requires CanInsert(caps, r, c) && x in caps
    ensures IsActive(Insert(caps, r, c), x) <==> IsActive(caps, x)
    decreases caps[x].born
  {
    if caps[x].parent.Some? { ParentActivity(caps, r, c, caps[x].parent.value); }
  }

  /** Registering changes the activity of nothing already there; the newcomer is as active as its parent. */
  lemma {:induction false} InsertActivity(caps: Caps, r: Ref, c: Cap, x: Ref)
    requires CanInsert(caps, r, c)
    ensures x in caps ==> (IsActive(Insert(caps, r, c), x) <==> IsActive(caps, x))
    ensures IsActive(Insert(caps, r, c), r) <==> !c.revoked && (c.parent.Some? ==> IsActive(caps, c.parent.value))
  {
    if x in caps { ParentActivity(caps, r, c, x); }
    if c.parent.Some? { ParentActivity(caps, r, c, c.parent.value); }
  }

  lemma {:induction false} NewcomerDescends(caps: Caps, r: Ref, c: Cap, a: Ref)
    requires CanInsert(caps, r, c) && c.parent.Some? && Descends(caps, c.parent.value, a)
    ensures Descends(Insert(caps, r, c), r, a)
  {
    InsertExtends(caps, r, c);
    DescentFixed(caps, Insert(caps, r, c), c.parent.value, a);
  }
}
