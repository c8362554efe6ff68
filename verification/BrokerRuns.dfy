/**
 What every step of a session keeps, and what follows for every run: permanent revocation, no
 network while mitigation is reduced, the mailbox rules, and nothing done before it is recorded.
 */
module BrokerRuns {
  import opened Text
  import opened Registry
  import opened Broker
  import Consent

  // ---- the invariant, one part for each group of fields ----

  /** A session is broken exactly when some event of its trail missed the log. */
  ghost predicate AuditInv(trail: seq<Event>, stored: seq<bool>, broken: bool)
  {
    |stored| == |trail| && (broken <==> exists i :: 0 <= i < |stored| && !stored[i])
  }

  /** The effect's own intent and every event before it are in the log. */
  ghost predicate EffectOk(trail: seq<Event>, stored: seq<bool>, e: Effect)
  {
    && 0 < e.at <= |trail| && |stored| == |trail|
    && trail[e.at - 1].op == IntentOp(e.kind) && trail[e.at - 1].subject == e.r
    && forall i :: 0 <= i < e.at ==> stored[i]
  }

  ghost predicate EffectInv(trail: seq<Event>, stored: seq<bool>, effects: seq<Effect>)
  {
    forall k :: 0 <= k < |effects| ==> EffectOk(trail, stored, effects[k])
  }

  /** Facets: only a minted root can receive; a derived facet narrows its parent. */
  ghost predicate FacetOk(caps: Caps, c: Cap)
  {
    c.msg.Some? ==>
      && (c.msg.value.canReceive <==> c.parent.None?)
      && (c.parent.Some? ==>
            && c.parent.value in caps && caps[c.parent.value].msg.Some?
            && caps[c.parent.value].msg.value.mailbox == c.msg.value.mailbox
            && HasPrefix(c.msg.value.prefix, caps[c.parent.value].msg.value.prefix))
  }

  ghost predicate FacetInv(caps: Caps) { forall r :: r in caps ==> FacetOk(caps, caps[r]) }

  ghost predicate DeliveryOk(caps: Caps, dl: Delivery)
  {
    && dl.r in caps && caps[dl.r].msg.Some?
    && dl.mailbox == caps[dl.r].msg.value.mailbox
    && HasPrefix(dl.msg.subject, caps[dl.r].msg.value.prefix)
    && dl.msg.taint != Secret
    && (dl.literal ==> caps[dl.r].msg.value.canReceive)
  }

  ghost predicate DeliveryInv(caps: Caps, ds: seq<Delivery>)
  {
    forall i :: 0 <= i < |ds| ==> DeliveryOk(caps, ds[i])
  }

  /** How many messages were delivered through one reference. */
  function CountRef(ds: seq<Delivery>, r: Ref): nat
  {
    if ds == [] then 0
    else CountRef(ds[..|ds| - 1], r) + if ds[|ds| - 1].r == r then 1 else 0
  }

  ghost predicate SpentOk(caps: Caps, ds: seq<Delivery>, r: Ref)
  {
    r in caps && caps[r].msg.Some? && caps[r].msg.value.oneShot ==>
      CountRef(ds, r) <= 1 && (CountRef(ds, r) == 1 ==> caps[r].revoked)
  }

  ghost predicate OneShotInv(caps: Caps, ds: seq<Delivery>) { forall r :: SpentOk(caps, ds, r) }

  function MessagesOf(ds: seq<Delivery>, box: string): seq<Msg>
  {
    if ds == [] then []
    else MessagesOf(ds[..|ds| - 1], box) + if ds[|ds| - 1].mailbox == box then [ds[|ds| - 1].msg] else []
  }

  /** A mailbox holds exactly the messages delivered to it, in order. */
  ghost predicate MailInv(mailboxes: map<string, seq<Msg>>, ds: seq<Delivery>)
  {
    && (forall m :: m in mailboxes ==> mailboxes[m] == MessagesOf(ds, m))
    && (forall i :: 0 <= i < |ds| ==> ds[i].mailbox in mailboxes)
  }

  ghost predicate Core(st: State)
  {
    && AuditInv(st.trail, st.stored, st.broken) && EffectInv(st.trail, st.stored, st.effects)
    && FacetInv(st.caps) && DeliveryInv(st.caps, st.deliveries)
    && OneShotInv(st.caps, st.deliveries) && MailInv(st.mailboxes, st.deliveries)
  }

  /** While mitigation is reduced, no http capability is active. */
  ghost predicate HttpInv(st: State)
  {
    st.reduced ==> forall r :: r in st.caps && st.caps[r].kind == Http ==> !IsActive(st.caps, r)
  }

  ghost predicate Inv(st: State) { Core(st) && HttpInv(st) }

  /** What a step may do to the past: nothing. */
  ghost predicate Progress(a: State, b: State)
  {
    && Extends(a.caps, b.caps) && a.trail <= b.trail && a.stored <= b.stored
    && a.deliveries <= b.deliveries && a.effects <= b.effects
    && (a.broken ==> b.broken) && a.hasSink == b.hasSink && a.key == b.key
  }

  ghost predicate Keeps(a: State, b: State)
  {
    Core(b) && Progress(a, b) && (HttpInv(a) ==> HttpInv(b))
  }

  lemma KeepsTransitive(a: State, b: State, c: State)
    requires Keeps(a, b) && Keeps(b, c)
    ensures Keeps(a, c)
  {
    hide Core, HttpInv, Extends;
    ExtendsTransitive(a.caps, b.caps, c.caps);
  }

  lemma KeepsReflexive(a: State)
    requires Core(a)
    ensures Keeps(a, a)
  {
  }

  // ---- the pieces ----

  lemma {:induction false} EffectsOutlive(trail: seq<Event>, stored: seq<bool>, t2: seq<Event>, s2: seq<bool>,
                                          e: Effect)
    requires EffectOk(trail, stored, e) && trail <= t2 && stored <= s2 && |s2| == |t2|
    ensures EffectOk(t2, s2, e)
  {
  }

  lemma {:induction false} AuditKeeps(st: State, d: Disk, op: string, subject: string, decision: string)
    requires Core(st)
    ensures Keeps(st, Audit(st, d, op, subject, decision))
  {
    hide FacetInv, DeliveryInv, OneShotInv, MailInv, IsActive, EffectOk;
    var b := Audit(st, d, op, subject, decision);
    var n := |st.stored|;
    assert AuditInv(b.trail, b.stored, b.broken) by {
      assert b.stored[n] == RecordOk(st, d);
      if st.broken {
        var i :| 0 <= i < |st.stored| && !st.stored[i];
        assert !b.stored[i];
      }
    }
    forall k | 0 <= k < |b.effects| ensures EffectOk(b.trail, b.stored, b.effects[k]) {
      EffectsOutlive(st.trail, st.stored, b.trail, b.stored, st.effects[k]);
    }
  }

  /** The last event is the intent of this effect. */
  predicate Intended(st: State, k: EffectKind, r: Ref)
  {
    st.trail != [] && st.trail[|st.trail| - 1].op == IntentOp(k) && st.trail[|st.trail| - 1].subject == r
  }

  lemma {:induction false} HappenedKeeps(st: State, k: EffectKind, r: Ref)
    requires Core(st) && !st.broken && Intended(st, k, r)
    ensures Keeps(st, Happened(st, k, r))
  {
    hide FacetInv, DeliveryInv, OneShotInv, MailInv, IsActive;
  }

  lemma {:induction false} CountAbsent(ds: seq<Delivery>, r: Ref)
    requires forall i :: 0 <= i < |ds| ==> ds[i].r != r
    ensures CountRef(ds, r) == 0
  {
    if ds != [] { CountAbsent(ds[..|ds| - 1], r); }
  }

  lemma {:induction false} NoMailYet(ds: seq<Delivery>, box: string)
    requires forall i :: 0 <= i < |ds| ==> ds[i].mailbox != box
    ensures MessagesOf(ds, box) == []
  {
    if ds != [] { NoMailYet(ds[..|ds| - 1], box); }
  }

  /** What a newcomer must look like. */
  ghost predicate NewcomerOk(st: State, c: Cap)
  {
    && FacetOk(st.caps, c)
    && (st.reduced && c.kind == Http ==>
          c.parent.Some? && c.parent.value in st.caps && st.caps[c.parent.value].kind == Http)
  }

  lemma {:induction false} InsertKeeps(st: State, id: Ref, c: Cap)
    requires Core(st) && CanInsert(st.caps, id, c) && NewcomerOk(st, c)
    ensures Keeps(st, st.(caps := Insert(st.caps, id, c)))
  {
    hide AuditInv, EffectInv, MailInv, IsActive, CountRef;
    var b := st.(caps := Insert(st.caps, id, c));
    InsertExtends(st.caps, id, c);
    InsertFacets(st, id, c);
    assert OneShotInv(b.caps, b.deliveries) by {
      forall r ensures SpentOk(b.caps, b.deliveries, r) {
        assert SpentOk(st.caps, st.deliveries, r);
        if r == id { CountAbsent(st.deliveries, r); }
      }
    }
    if HttpInv(st) { InsertHttp(st, id, c); }
  }

  lemma {:induction false} InsertFacets(st: State, id: Ref, c: Cap)
    requires FacetInv(st.caps) && DeliveryInv(st.caps, st.deliveries) && CanInsert(st.caps, id, c) && NewcomerOk(st, c)
    ensures FacetInv(Insert(st.caps, id, c)) && DeliveryInv(Insert(st.caps, id, c), st.deliveries)
  {
    hide HasPrefix;
    var b := Insert(st.caps, id, c);
    forall r | r in b ensures FacetOk(b, b[r]) {
      if r != id { assert FacetOk(st.caps, st.caps[r]); }
    }
    forall i | 0 <= i < |st.deliveries| ensures DeliveryOk(b, st.deliveries[i]) {
      assert DeliveryOk(st.caps, st.deliveries[i]);
    }
  }

  lemma {:induction false} InsertHttp(st: State, id: Ref, c: Cap)
    requires HttpInv(st) && CanInsert(st.caps, id, c) && NewcomerOk(st, c)
    ensures HttpInv(st.(caps := Insert(st.caps, id, c)))
  {
    hide IsActive, FacetOk;
    var b := Insert(st.caps, id, c);
    if st.reduced {
      forall r | r in b && b[r].kind == Http ensures !IsActive(b, r) {
        InsertActivity(st.caps, id, c, r);
      }
    }
  }

  lemma {:induction false} RevokeKeeps(st: State, r: Ref)
    requires Core(st) && r in st.caps
    ensures Keeps(st, st.(caps := SetRevoked(st.caps, r)))
  {
    hide AuditInv, EffectInv, MailInv, IsActive, CountRef, HasPrefix;
    var b := SetRevoked(st.caps, r);
    RevokeExtends(st.caps, r);
    RevokeFacets(st.caps, st.deliveries, r);
    StaysHttpFree(st, st.(caps := b));
  }

  lemma {:induction false} RevokeFacets(caps: Caps, ds: seq<Delivery>, r: Ref)
    requires FacetInv(caps) && DeliveryInv(caps, ds) && OneShotInv(caps, ds) && r in caps
    ensures
      var b := SetRevoked(caps, r);
      FacetInv(b) && DeliveryInv(b, ds) && OneShotInv(b, ds)
  {
    hide CountRef, FacetInv, DeliveryInv;
    var b := SetRevoked(caps, r);
    RevokeShape(caps, ds, r);
    forall x ensures SpentOk(b, ds, x) { assert SpentOk(caps, ds, x); }
  }

  lemma {:induction false} RevokeShape(caps: Caps, ds: seq<Delivery>, r: Ref)
    requires FacetInv(caps) && DeliveryInv(caps, ds) && r in caps
    ensures FacetInv(SetRevoked(caps, r)) && DeliveryInv(SetRevoked(caps, r), ds)
  {
    hide HasPrefix;
    var b := SetRevoked(caps, r);
    forall x | x in b ensures FacetOk(b, b[x]) { assert FacetOk(caps, caps[x]); }
    forall i | 0 <= i < |ds| ensures DeliveryOk(b, ds[i]) { assert DeliveryOk(caps, ds[i]); }
  }

  // ---- delivery ----

  lemma {:induction false} MailGrows(mailboxes: map<string, seq<Msg>>, ds: seq<Delivery>, dl: Delivery)
    requires MailInv(mailboxes, ds) && dl.mailbox in mailboxes
    ensures MailInv(mailboxes[dl.mailbox := mailboxes[dl.mailbox] + [dl.msg]], ds + [dl])
  {
    assert (ds + [dl])[..|ds|] == ds;
  }

  lemma {:induction false} CountGrows(ds: seq<Delivery>, dl: Delivery, r: Ref)
    ensures CountRef(ds + [dl], r) == CountRef(ds, r) + if dl.r == r then 1 else 0
  {
    assert (ds + [dl])[..|ds|] == ds;
  }

  /** The state between the push and the end of a one-shot facet. */
  lemma {:induction false} DeliverKeeps(st: State, r: Ref, subject: string, taint: Taint, body: string, literal: bool)
    requires Core(st) && Intended(st, Posted, r)
    requires Deliver(st, r, subject, taint, body, literal).Some?
    requires literal ==> st.caps[r].msg.value.canReceive
    ensures Keeps(st, Deliver(st, r, subject, taint, body, literal).value)
  {
    hide AuditInv, EffectInv, FacetInv, DeliveryInv, OneShotInv, MailInv, HasPrefix, IsActive;
    var m := st.caps[r].msg.value;
    var letter := Msg(subject, body, taint, st.key);
    var dl := Delivery(r, m.mailbox, letter, literal);
    var b := Deliver(st, r, subject, taint, body, literal).value;
    MailGrows(st.mailboxes, st.deliveries, dl);
    HappenedKeeps(st, Posted, r);
    AppendDelivery(st.caps, st.deliveries, dl);
    DeliverCaps(st, dl, st.deliveries + [dl]);
    assert Core(b);
    if m.oneShot { RevokeExtends(st.caps, r); }
    StaysHttpFree(st, b);
  }

  lemma AppendDelivery(caps: Caps, ds: seq<Delivery>, dl: Delivery)
    requires DeliveryInv(caps, ds) && DeliveryOk(caps, dl)
    ensures DeliveryInv(caps, ds + [dl])
  {
  }

  lemma {:induction false} StaysHttpFree(a: State, b: State)
    requires Extends(a.caps, b.caps) && b.caps.Keys == a.caps.Keys && b.reduced == a.reduced
    ensures HttpInv(a) ==> HttpInv(b)
  {
    hide IsActive;
    if HttpInv(a) && a.reduced {
      forall x | x in b.caps && b.caps[x].kind == Http ensures !IsActive(b.caps, x) {
        StaysInactive(a.caps, b.caps, x);
      }
    }
  }

  lemma {:induction false} DeliverCaps(st: State, dl: Delivery, ds: seq<Delivery>)
    requires FacetInv(st.caps) && DeliveryInv(st.caps, ds) && OneShotInv(st.caps, st.deliveries)
    requires dl.r in st.caps && st.caps[dl.r].msg.Some? && !st.caps[dl.r].revoked && ds == st.deliveries + [dl]
    ensures
      var b := if st.caps[dl.r].msg.value.oneShot then SetRevoked(st.caps, dl.r) else st.caps;
      FacetInv(b) && DeliveryInv(b, ds) && OneShotInv(b, ds)
  {
    hide CountRef, HasPrefix, FacetInv, DeliveryInv;
    RevokeShape(st.caps, ds, dl.r);
    var b := if st.caps[dl.r].msg.value.oneShot then SetRevoked(st.caps, dl.r) else st.caps;
    forall x ensures SpentOk(b, ds, x) {
      assert SpentOk(st.caps, st.deliveries, x);
      CountGrows(st.deliveries, dl, x);
    }
  }

  // ---- the operations ----

  lemma {:induction false} RegisterKeeps(st: State, d: Disk, id: Ref, c: Cap, op: string)
    requires Core(st) && CanInsert(st.caps, id, c) && NewcomerOk(st, c)
    ensures Keeps(st, Register(st, d, id, c, op).0)
  {
    hide Core, HttpInv, Audit, Insert;
    var s1 := st.(caps := Insert(st.caps, id, c));
    InsertKeeps(st, id, c);
    assert Core(s1);
    AuditKeeps(s1, d, op, id, "allow");
    KeepsTransitive(st, s1, Register(st, d, id, c, op).0);
  }

  lemma {:induction false} GrantDirKeeps(st: State, d: Disk, id: Ref, root: string, ops: seq<Op>, taint: Taint,
                                         openOk: bool)
    requires Inv(st) && id !in st.caps
    ensures Keeps(st, GrantDirOp(st, d, id, root, ops, taint, openOk).0)
  {
    hide Core, Register, IsActive;
    KeepsReflexive(st);
    if openOk {
      RegisterKeeps(st, d, id, BlankCap(Dir).(root := root, ops := ops, taint := taint, anchored := true), "grant_dir");
    }
  }

  lemma {:induction false} GrantSinkKeeps(st: State, d: Disk, id: Ref)
    requires Inv(st) && id !in st.caps
    ensures Keeps(st, GrantSinkOp(st, d, id).0)
  {
    hide Core, Register, IsActive;
    RegisterKeeps(st, d, id, BlankCap(Sink), "grant_sink");
  }

  lemma {:induction false} GrantCommandKeeps(st: State, d: Disk, id: Ref, cwd: Ref, argv: seq<string>)
    requires Inv(st) && id !in st.caps
    ensures Keeps(st, GrantCommandOp(st, d, id, cwd, argv).0)
  {
    hide Core, Register, IsActive;
    KeepsReflexive(st);
    var c := GetActive(st, cwd);
    if c.Some? && c.value.kind == Dir {
      RegisterKeeps(st, d, id, BlankCap(Command).(root := c.value.root, ops := [Exec], taint := Yellow,
                                                  argv := argv, anchored := c.value.anchored), "grant_cmd");
    }
  }

  lemma {:induction false} GrantHttpKeeps(st: State, d: Disk, id: Ref, origin: string, spec: HttpSpec, hostOk: bool)
    requires Inv(st) && id !in st.caps
    ensures Keeps(st, GrantHttpOp(st, d, id, origin, spec, hostOk).0)
  {
    hide Core, Register, IsActive, Audit;
    KeepsReflexive(st);
    if st.reduced {
      AuditKeeps(st, d, "grant_http", id, "deny:mitigation_reduced");
    } else if hostOk {
      RegisterKeeps(st, d, id, BlankCap(Http).(root := origin, taint := External, http := Some(spec)), "grant_http");
    }
  }

  lemma {:induction false} SetBootstrapKeeps(st: State, d: Disk, id: Ref, workspace: string, openOk: bool)
    requires Inv(st) && id !in st.caps
    ensures Keeps(st, SetBootstrapOp(st, d, id, workspace, openOk).0)
  {
    hide Keeps, GrantDirOp, IsActive;
    GrantDirKeeps(st, d, id, workspace, [Op.Read, Op.List], Project, openOk);
    var g := GrantDirOp(st, d, id, workspace, [Op.Read, Op.List], Project, openOk).0;
    BootstrapIsFree(st, g, SetBootstrapOp(st, d, id, workspace, openOk).0.bootstrap);
  }

  lemma BootstrapIsFree(a: State, b: State, boot: Option<Ref>)
    requires Keeps(a, b)
    ensures Keeps(a, b.(bootstrap := boot))
  {
    hide IsActive, EffectOk, Extends;
  }

  lemma {:induction false} GrantMessageKeeps(st: State, d: Disk, id: Ref, mailbox: string)
    requires Inv(st) && id !in st.caps && mailbox !in st.mailboxes
    ensures Keeps(st, GrantMessageOp(st, d, id, mailbox).0)
  {
    hide AuditInv, EffectInv, FacetInv, DeliveryInv, OneShotInv, IsActive, Register, MessagesOf;
    var s1 := st.(mailboxes := st.mailboxes[mailbox := []]);
    NoMailYet(st.deliveries, mailbox);
    assert Keeps(st, s1);
    RegisterKeeps(s1, d, id, BlankCap(Message).(msg := Some(MsgSpec(mailbox, "", false, true))), "grant_message");
    hide Core, HttpInv;
    KeepsTransitive(st, s1, GrantMessageOp(st, d, id, mailbox).0);
  }

  lemma {:induction false} DeriveSubKeeps(st: State, d: Disk, id: Ref, r: Ref, seg: string, openOk: bool)
    requires Inv(st) && id !in st.caps
    ensures Keeps(st, DeriveSubOp(st, d, id, r, seg, openOk).0)
  {
    hide Core, Register, IsActive, Paths.SafeJoin;
    KeepsReflexive(st);
    var c := GetActive(st, r);
    if c.Some? && c.value.kind == Dir && c.value.anchored && openOk && Paths.SafeJoin(c.value.root, seg).Some? {
      var child := BlankCap(Dir).(root := Paths.SafeJoin(c.value.root, seg).value, ops := c.value.ops,
                                  taint := c.value.taint, anchored := true, parent := Some(r));
      RegisterKeeps(st, d, id, child, "derive_sub");
    }
  }

  lemma {:induction false} DeriveReadonlyKeeps(st: State, d: Disk, id: Ref, r: Ref)
    requires Inv(st) && id !in st.caps
    ensures Keeps(st, DeriveReadonlyOp(st, d, id, r).0)
  {
    hide Core, Register, IsActive;
    KeepsReflexive(st);
    var c := GetActive(st, r);
    if c.Some? {
      RegisterKeeps(st, d, id, BlankCap(c.value.kind).(root := c.value.root, ops := [Op.Read, Op.List],
                                                       taint := c.value.taint, anchored := c.value.anchored,
                                                       parent := Some(r)), "derive_readonly");
    }
  }

  lemma {:induction false} DeriveMsgKeeps(st: State, d: Disk, id: Ref, r: Ref, add: string, oneShot: bool)
    requires Inv(st) && id !in st.caps
    ensures Keeps(st, DeriveMsgOp(st, d, id, r, add, oneShot).0)
  {
    hide Core, Register, IsActive;
    KeepsReflexive(st);
    var c := GetActive(st, r);
    if c.Some? && c.value.msg.Some? {
      var m := c.value.msg.value;
      RegisterKeeps(st, d, id, BlankCap(Message).(msg := Some(MsgSpec(m.mailbox, m.prefix + add, oneShot, false)),
                                                  parent := Some(r)), "derive_message");
    }
  }

  lemma {:induction false} GateKeeps(st: State, d: Disk, verb: string, r: Ref, ledger: Option<Consent.Outcome>)
    requires Core(st)
    ensures Keeps(st, Gate(st, d, verb, r, ledger).0)
    ensures Gate(st, d, verb, r, ledger).0.caps == st.caps
  {
    hide Core, HttpInv, Progress;
    KeepsReflexive(st);
    AuditKeeps(st, d, "policy.deny", r, "deny");
    AuditKeeps(st, d, "policy.consent", r, "approved");
    AuditKeeps(st, d, "policy.consent", r, "denied");
    AuditKeeps(st, d, "policy.consent", r, "pending");
  }

  lemma {:induction false} BeforeKeeps(st: State, d: Disk, verb: string, k: EffectKind, r: Ref,
                                       ledger: Option<Consent.Outcome>)
    requires Core(st)
    ensures
      var b := Before(st, d, verb, k, r, ledger);
      Keeps(st, b.0) && b.0.caps == st.caps && (b.1.None? ==> Intended(b.0, k, r))
  {
    hide Core, HttpInv, Progress, Gate;
    var g := Gate(st, d, verb, r, ledger);
    GateKeeps(st, d, verb, r, ledger);
    if g.1.None? {
      IntendKeeps(g.0, d, k, r);
      KeepsTransitive(st, g.0, Intend(g.0, d, k, r).0);
    }
  }

  lemma {:induction false} IntendKeeps(st: State, d: Disk, k: EffectKind, r: Ref)
    requires Core(st)
    ensures Keeps(st, Intend(st, d, k, r).0) && Intended(Intend(st, d, k, r).0, k, r)
    ensures Intend(st, d, k, r).0.caps == st.caps
  {
    hide Core, HttpInv, Progress;
    AuditKeeps(st, d, IntentOp(k), r, "attempt");
  }

  /** An effect, if it happened, and the audited result. */
  lemma {:induction false} FinishKeeps(st: State, s0: State, d: Disk, k: EffectKind, r: Ref, done: bool, op: string,
                                       word: string)
    requires Keeps(st, s0) && (done ==> !s0.broken && Intended(s0, k, r))
    ensures Keeps(st, Audit(if done then Happened(s0, k, r) else s0, d, op, r, word))
  {
    hide Core, HttpInv, Progress, Audit, Happened, Intended;
    var s1 := if done then Happened(s0, k, r) else s0;
    KeepsReflexive(s0);
    if done { HappenedKeeps(s0, k, r); }
    KeepsTransitive(st, s0, s1);
    AuditKeeps(s1, d, op, r, word);
    KeepsTransitive(st, s1, Audit(s1, d, op, r, word));
  }

  lemma {:induction false} CloseKeeps(st: State, s0: State, d: Disk, res: Option<State>, r: Ref)
    requires Keeps(st, s0) && (res.Some? ==> Keeps(s0, res.value))
    ensures Keeps(st, Close(s0, d, res, r).0)
  {
    hide Core, HttpInv, Progress, Audit;
    var s1 := if res.Some? then res.value else s0;
    KeepsReflexive(s0);
    KeepsTransitive(st, s0, s1);
    AuditKeeps(s1, d, "post.result", r, Word(res.Some?));
    KeepsTransitive(st, s1, Close(s0, d, res, r).0);
  }

  lemma {:induction false} PostKeeps(st: State, d: Disk, q: Request)
    requires Inv(st) && Fresh(st, q) && (q.Post? || q.PostFrom?)
    ensures Keeps(st, Step(st, d, q).0)
  {
    hide Core, HttpInv, Progress, Before, Deliver, Intended, ReadInner, Close;
    match q
    case Post(r, subject, body, ledger) =>
      var b := Before(st, d, "post", Posted, r, ledger);
      BeforeKeeps(st, d, "post", Posted, r, ledger);
      if b.1.None? {
        var c := GetActive(b.0, r);
        var owner := c.Some? && c.value.msg.Some? && c.value.msg.value.canReceive;
        var res := if owner then Deliver(b.0, r, subject, Green, body, true) else None;
        if res.Some? { DeliverKeeps(b.0, r, subject, Green, body, true); }
        CloseKeeps(st, b.0, d, res, r);
      }
    case PostFrom(r, subject, src, rel, data, ledger) =>
      var b := Before(st, d, "post_from", Posted, r, ledger);
      BeforeKeeps(st, d, "post_from", Posted, r, ledger);
      if b.1.None? {
        var got := ReadInner(b.0, src, rel, data);
        var res := if got.Some? then Deliver(b.0, r, subject, got.value.0, got.value.1, false) else None;
        if res.Some? { DeliverKeeps(b.0, r, subject, got.value.0, got.value.1, false); }
        CloseKeeps(st, b.0, d, res, r);
      }
  }

  lemma {:induction false} EffectKeeps(st: State, d: Disk, q: Request)
    requires Inv(st) && Fresh(st, q) && (q.RunCommand? || q.Send? || q.HttpGet?)
    ensures Keeps(st, Step(st, d, q).0)
  {
    hide Core, HttpInv, Progress, Before, Intend, Intended, Happened, Audit, HttpAllowed, IsActive;
    match q
    case RunCommand(r, output, ledger) =>
      var b := Before(st, d, "exec", Ran, r, ledger);
      BeforeKeeps(st, d, "exec", Ran, r, ledger);
      if b.1.None? {
        var c := GetActive(b.0, r);
        var runs := c.Some? && Exec in c.value.ops && c.value.argv != [] && c.value.anchored;
        FinishKeeps(st, b.0, d, Ran, r, runs, "exec.result", Word(runs && output.Some?));
      }
    case Send(r, taint) =>
      var b := Intend(st, d, Sent, r);
      IntendKeeps(st, d, Sent, r);
      if b.1.None? {
        var c := GetActive(b.0, r);
        var ok := c.Some? && c.value.kind == Sink && taint != Secret;
        FinishKeeps(st, b.0, d, Sent, r, ok, "send.result", Word(ok));
      }
    case HttpGet(r, path, resolved, response, ledger) =>
      var b := Before(st, d, "http_get", Fetched, r, ledger);
      BeforeKeeps(st, d, "http_get", Fetched, r, ledger);
      if b.1.None? {
        var c := GetActive(b.0, r);
        var sends := c.Some? && c.value.http.Some? && HttpAllowed(c.value.http.value, path) && resolved;
        FinishKeeps(st, b.0, d, Fetched, r, sends, "http.result", Word(sends && response.Some?));
      }
  }

  lemma {:induction false} PlainKeeps(st: State, d: Disk, q: Request)
    requires Inv(st) && Fresh(st, q) && (q.MailboxRead? || q.ReadFile? || q.ListDir? || q.TakeBootstrap? || q.Settle?)
    ensures Keeps(st, Step(st, d, q).0)
  {
    hide Core, HttpInv, Progress, Audit, ReadInner, IsActive;
    KeepsReflexive(st);
    match q
    case MailboxRead(r) => AuditKeeps(st, d, "mailbox_read", r, "allow");
    case ReadFile(r, rel, data) => AuditKeeps(st, d, "read", r, Word(ReadInner(st, r, rel, data).Some?));
    case ListDir(r, rel, names) =>
      AuditKeeps(st, d, "list", r, "allow");
      AuditKeeps(st, d, "list", r, "deny");
    case TakeBootstrap => BootstrapIsFree(st, st, None);
    case Settle(id, approve, _, summary) =>
      AuditKeeps(st, d, if approve then "consent.approve" else "consent.deny", id, Word(summary.Some?));
  }

  lemma {:induction false} RevokeOpKeeps(st: State, d: Disk, r: Ref)
    requires Core(st)
    ensures Keeps(st, RevokeOp(st, d, r).0)
    ensures r in st.caps ==> RevokeOp(st, d, r).0.caps == SetRevoked(st.caps, r)
    ensures RevokeOp(st, d, r).0.reduced == st.reduced
  {
    hide Core, HttpInv, Progress;
    if r in st.caps {
      var s1 := st.(caps := SetRevoked(st.caps, r));
      RevokeKeeps(st, r);
      AuditKeeps(s1, d, "revoke", r, "allow");
      KeepsTransitive(st, s1, RevokeOp(st, d, r).0);
    } else {
      AuditKeeps(st, d, "revoke", r, "deny");
    }
  }

  lemma {:induction false} RevokeEachKeeps(st: State, d: Disk, order: seq<Ref>)
    requires Core(st) && forall i :: 0 <= i < |order| ==> order[i] in st.caps
    ensures Keeps(st, RevokeEach(st, d, order)) && RevokeEach(st, d, order).reduced == st.reduced
    ensures RevokeEach(st, d, order).caps.Keys == st.caps.Keys
    ensures forall i :: 0 <= i < |order| ==>
      order[i] in RevokeEach(st, d, order).caps && RevokeEach(st, d, order).caps[order[i]].revoked
    decreases |order|
  {
    hide Core, HttpInv, RevokeOp;
    if order == [] {
      KeepsReflexive(st);
    } else {
      var s1 := RevokeOp(st, d, order[0]).0;
      RevokeOpKeeps(st, d, order[0]);
      forall i | 0 <= i < |order| - 1 ensures order[1..][i] in s1.caps { assert order[1..][i] == order[i + 1]; }
      RevokeEachKeeps(s1, d, order[1..]);
      var s2 := RevokeEach(s1, d, order[1..]);
      KeepsTransitive(st, s1, s2);
      forall i | 0 <= i < |order| ensures order[i] in s2.caps && s2.caps[order[i]].revoked {
        if i > 0 { assert order[i] == order[1..][i - 1]; }
      }
    }
  }

  /** A downgrade leaves no egress capability active. */
  lemma {:induction false} SetMitigationKeeps(st: State, d: Disk, reduced: bool, order: seq<Ref>)
    requires Inv(st) && forall r :: r in order <==> ToRevoke(st.caps, r)
    ensures
      var b := SetMitigationOp(st, d, reduced, order).0;
      && Core(b) && Progress(st, b) && HttpInv(b)
      && (reduced ==> forall r :: r in st.caps && IsEgress(st.caps[r]) ==> b.caps[r].revoked)
  {
    hide AuditInv, EffectInv, FacetInv, DeliveryInv, OneShotInv, MailInv, RevokeEach, Extends, Audit;
    var s1 := st.(reduced := reduced);
    assert Core(s1);
    if reduced {
      var s2 := RevokeEach(s1, d, order);
      DowngradeRevokes(s1, d, order);
      AuditKeeps(s2, d, "mitigation", "reduced", "allow");
      var s3 := SetMitigationOp(st, d, reduced, order).0;
      ExtendsTransitive(st.caps, s2.caps, s3.caps);
      AuditLeaves(s2, d, "mitigation", "reduced", "allow");
    } else {
      assert HttpInv(s1);
      AuditKeeps(s1, d, "mitigation", "full", "allow");
    }
  }

  lemma {:induction false} DowngradeRevokes(st: State, d: Disk, order: seq<Ref>)
    requires Core(st) && forall r :: r in order <==> ToRevoke(st.caps, r)
    ensures
      var b := RevokeEach(st, d, order);
      && Core(b) && Progress(st, b) && HttpInv(b) && b.reduced == st.reduced
      && forall r :: r in st.caps && IsEgress(st.caps[r]) ==> r in b.caps && b.caps[r].revoked
  {
    hide Core, RevokeEach;
    forall i | 0 <= i < |order| ensures order[i] in st.caps { assert order[i] in order; }
    RevokeEachKeeps(st, d, order);
    var b := RevokeEach(st, d, order);
    forall r | r in st.caps && IsEgress(st.caps[r]) ensures r in b.caps && b.caps[r].revoked {
      if !st.caps[r].revoked { assert r in order; }
    }
    forall r | r in b.caps && b.caps[r].kind == Http ensures !IsActive(b.caps, r) { assert r in st.caps; }
  }

  /** Every operation keeps the invariant and adds to the past without changing it. */
  lemma {:induction false} StepKeeps(st: State, d: Disk, q: Request)
    requires Inv(st) && Fresh(st, q)
    ensures Inv(Step(st, d, q).0) && Progress(st, Step(st, d, q).0)
  {
    hide Core, HttpInv, Progress, GrantDirOp, GrantSinkOp, GrantMessageOp, GrantCommandOp, GrantHttpOp;
    hide DeriveSubOp, DeriveReadonlyOp, DeriveMsgOp, SetBootstrapOp, RevokeOp, SetMitigationOp;
    match q
    case GrantDir(id, root, ops, taint, openOk) => GrantDirKeeps(st, d, id, root, ops, taint, openOk);
    case GrantSink(id) => GrantSinkKeeps(st, d, id);
    case GrantMessage(id, mailbox) => GrantMessageKeeps(st, d, id, mailbox);
    case GrantCommand(id, cwd, argv) => GrantCommandKeeps(st, d, id, cwd, argv);
    case GrantHttp(id, origin, spec, hostOk) => GrantHttpKeeps(st, d, id, origin, spec, hostOk);
    case DeriveSub(id, r, seg, openOk) => DeriveSubKeeps(st, d, id, r, seg, openOk);
    case DeriveReadonly(id, r) => DeriveReadonlyKeeps(st, d, id, r);
    case DeriveMsg(id, r, add, oneShot) => DeriveMsgKeeps(st, d, id, r, add, oneShot);
    case SetBootstrap(id, workspace, openOk) => SetBootstrapKeeps(st, d, id, workspace, openOk);
    case Revoke(r) => RevokeOpKeeps(st, d, r);
    case SetMitigation(reduced, order) => SetMitigationKeeps(st, d, reduced, order);
    case _ => UseKeeps(st, d, q);
  }

  lemma {:induction false} UseKeeps(st: State, d: Disk, q: Request)
    requires Inv(st) && Fresh(st, q) && IsUse(q)
    ensures Keeps(st, Step(st, d, q).0)
  {
    hide Keeps, Core, HttpInv, Step;
    if q.Post? || q.PostFrom? {
      PostKeeps(st, d, q);
    } else if q.RunCommand? || q.Send? || q.HttpGet? {
      EffectKeeps(st, d, q);
    } else {
      PlainKeeps(st, d, q);
    }
  }

  /** Requests that use capabilities without minting, deriving or revoking. */
  predicate IsUse(q: Request)
  {
    || q.Post? || q.PostFrom? || q.RunCommand? || q.Send? || q.HttpGet?
    || q.MailboxRead? || q.ReadFile? || q.ListDir? || q.TakeBootstrap? || q.Settle?
  }
}
