/**
 What each operation does, told from outside: when exactly it succeeds, what it hands out or lets
 through, and that what it handed out stays as it was asked for in every later state of every run.
 */
module BrokerLaws {
  import opened Text
  import opened Registry
  import opened Broker
  import opened BrokerRuns
  import opened BrokerTheorems
  import Effects
  import Consent
  import Paths

  // ---- what a request cannot touch ----

  /** Everything but the trail, its flags and the broken mark. */
  predicate Apart(a: State, b: State)
  {
    && b.key == a.key && b.hasSink == a.hasSink && b.caps == a.caps && b.mailboxes == a.mailboxes
    && b.deliveries == a.deliveries && b.effects == a.effects && b.bootstrap == a.bootstrap
    && b.reduced == a.reduced && b.l5 == a.l5
  }

  lemma AuditApart(a: State, b: State, d: Disk, op: string, subject: string, decision: string)
    ensures Apart(a, b) ==> Apart(a, Audit(b, d, op, subject, decision))
    ensures |Audit(b, d, op, subject, decision).trail| == |b.trail| + 1
    ensures Audit(b, d, op, subject, decision).broken <==> b.broken || !RecordOk(b, d)
  {
  }

  // ---- minting ----

  predicate Mints(q: Request)
  {
    || q.GrantDir? || q.GrantSink? || q.GrantMessage? || q.GrantCommand? || q.GrantHttp?
    || q.DeriveSub? || q.DeriveReadonly? || q.DeriveMsg?
  }

  /** When a minting request is granted. */
  predicate MayMint(st: State, q: Request)
    requires Mints(q)
  {
    match q
    case GrantDir(_, _, _, _, openOk) => openOk
    case GrantSink(_) => true
    case GrantMessage(_, _) => true
    case GrantCommand(_, cwd, _) => !st.broken && IsActive(st.caps, cwd) && st.caps[cwd].kind == Dir
    case GrantHttp(_, _, _, hostOk) => !st.reduced && hostOk
    case DeriveSub(_, r, seg, openOk) =>
      && !st.broken && IsActive(st.caps, r) && st.caps[r].kind == Dir && st.caps[r].anchored && openOk
      && !Paths.Absolute(seg) && ".." !in Split(seg, '/')
    case DeriveReadonly(_, r) => !st.broken && IsActive(st.caps, r)
    case DeriveMsg(_, r, _, _) => !st.broken && IsActive(st.caps, r) && st.caps[r].msg.Some?
  }

  /** A capability of one kind that carries nothing else. */
  predicate Plain(c: Cap, kind: Kind, parent: Option<Ref>)
  {
    c.kind == kind && c.parent == parent && c.argv == [] && c.http == None && c.msg == None
  }

  /** What was asked for, field by field; `st` is the state in which it was asked. */
  predicate AsAsked(st: State, q: Request, c: Cap)
    requires Mints(q) && MayMint(st, q)
  {
    match q
    case GrantDir(_, root, ops, taint, _) =>
      Plain(c, Dir, None) && c.root == root && c.ops == ops && c.taint == taint && c.anchored
    case GrantSink(_) => Plain(c, Sink, None) && c.ops == [] && c.taint == Green
    case GrantMessage(_, mailbox) =>
      && c.kind == Message && c.parent == None && c.ops == [] && c.http == None
      && c.msg == Some(MsgSpec(mailbox, "", false, true))
    case GrantCommand(_, cwd, argv) =>
      && c.kind == Command && c.parent == None && c.http == None && c.msg == None && c.argv == argv
      && c.ops == [Exec] && c.taint == Yellow && c.root == st.caps[cwd].root && c.anchored == st.caps[cwd].anchored
    case GrantHttp(_, origin, spec, _) =>
      && c.kind == Http && c.parent == None && c.msg == None && c.argv == [] && c.ops == []
      && c.root == origin && c.taint == External && c.http == Some(spec)
    case DeriveSub(_, r, seg, _) =>
      && Plain(c, Dir, Some(r)) && c.ops == st.caps[r].ops && c.taint == st.caps[r].taint && c.anchored
      && Some(c.root) == Paths.SafeJoin(st.caps[r].root, seg)
    case DeriveReadonly(_, r) =>
      && Plain(c, st.caps[r].kind, Some(r)) && c.ops == [Op.Read, Op.List] && c.taint == st.caps[r].taint
      && c.root == st.caps[r].root && c.anchored == st.caps[r].anchored
    case DeriveMsg(_, r, add, oneShot) =>
      && c.kind == Message && c.parent == Some(r) && c.ops == [] && c.http == None
      && c.msg == Some(MsgSpec(st.caps[r].msg.value.mailbox, st.caps[r].msg.value.prefix + add, oneShot, false))
  }

  /** The registry gains the new capability and nothing else moves; a refusal moves nothing. */
  ghost predicate MintsExactly(st: State, q: Request, after: State, reply: Reply)
    requires Mints(q)
  {
    && reply == (if MayMint(st, q) then CapIs(q.id) else Fail)
    && after.mailboxes == (if q.GrantMessage? then st.mailboxes[q.mailbox := []] else st.mailboxes)
    && after.effects == st.effects && after.deliveries == st.deliveries && after.reduced == st.reduced
    && if MayMint(st, q) then
        && after.caps.Keys == st.caps.Keys + {q.id}
        && (forall r :: r in st.caps && r != q.id ==> after.caps[r] == st.caps[r])
        && AsAsked(st, q, after.caps[q.id]) && !after.caps[q.id].revoked
      else after.caps == st.caps
  }

  lemma {:induction false} RegisterIs(st: State, d: Disk, id: Ref, c: Cap, op: string)
    requires CanInsert(st.caps, id, c)
    ensures
      var (after, reply) := Register(st, d, id, c, op);
      && reply == CapIs(id) && after.caps == st.caps[id := c.(born := |st.caps|)]
      && after.mailboxes == st.mailboxes && after.effects == st.effects && after.deliveries == st.deliveries
      && after.reduced == st.reduced && after.l5 == st.l5
  {
    hide Audit;
    AuditLeaves(st.(caps := Insert(st.caps, id, c)), d, op, id, "allow");
  }

  lemma OnlyFlags(st: State, q: Request, c: Cap, revoked: bool, born: nat)
    requires Mints(q) && MayMint(st, q) && AsAsked(st, q, c)
    ensures AsAsked(st, q, c.(revoked := revoked, born := born))
  {
  }

  /** Registering what was asked for is exactly what a granted request does. */
  lemma {:induction false} RegisterMints(st: State, s1: State, d: Disk, q: Request, c: Cap, op: string)
    requires Mints(q) && MayMint(st, q) && AsAsked(st, q, c) && !c.revoked && CanInsert(s1.caps, q.id, c)
    requires s1 == st.(mailboxes := s1.mailboxes)
    requires s1.mailboxes == if q.GrantMessage? then st.mailboxes[q.mailbox := []] else st.mailboxes
    ensures MintsExactly(st, q, Register(s1, d, q.id, c, op).0, Register(s1, d, q.id, c, op).1)
  {
    hide Register, MayMint, AsAsked;
    RegisterIs(s1, d, q.id, c, op);
    OnlyFlags(st, q, c, c.revoked, |s1.caps|);
  }

  lemma RefuseMints(st: State, q: Request)
    requires Mints(q) && !MayMint(st, q)
    ensures MintsExactly(st, q, st, Fail)
  {
    hide AsAsked;
  }

  lemma {:induction false} GrantDirLaw(st: State, d: Disk, q: Request)
    requires q.GrantDir? && q.id !in st.caps
    ensures
      var (after, reply) := GrantDirOp(st, d, q.id, q.root, q.ops, q.taint, q.openOk);
      MintsExactly(st, q, after, reply)
  {
    hide Register, MintsExactly;
    var c := BlankCap(Dir).(root := q.root, ops := q.ops, taint := q.taint, anchored := true);
    if q.openOk { RegisterMints(st, st, d, q, c, "grant_dir"); } else { RefuseMints(st, q); }
  }

  lemma {:induction false} GrantSinkLaw(st: State, d: Disk, q: Request)
    requires q.GrantSink? && q.id !in st.caps
    ensures MintsExactly(st, q, GrantSinkOp(st, d, q.id).0, GrantSinkOp(st, d, q.id).1)
  {
    hide Register, MintsExactly;
    RegisterMints(st, st, d, q, BlankCap(Sink), "grant_sink");
  }

  lemma {:induction false} GrantMessageLaw(st: State, d: Disk, q: Request)
    requires q.GrantMessage? && q.id !in st.caps && q.mailbox !in st.mailboxes
    ensures MintsExactly(st, q, GrantMessageOp(st, d, q.id, q.mailbox).0, GrantMessageOp(st, d, q.id, q.mailbox).1)
  {
    hide Register, MintsExactly;
    var c := BlankCap(Message).(msg := Some(MsgSpec(q.mailbox, "", false, true)));
    RegisterMints(st, st.(mailboxes := st.mailboxes[q.mailbox := []]), d, q, c, "grant_message");
  }

  lemma {:induction false} GrantHttpLaw(st: State, d: Disk, q: Request)
    requires q.GrantHttp? && q.id !in st.caps
    ensures
      var (after, reply) := GrantHttpOp(st, d, q.id, q.origin, q.spec, q.hostOk);
      MintsExactly(st, q, after, reply)
  {
    hide Register, Audit, AsAsked;
    var c := BlankCap(Http).(root := q.origin, taint := External, http := Some(q.spec));
    if !st.reduced && q.hostOk {
      assert AsAsked(st, q, c) by { HttpAsAsked(st, q, c); }
      hide MintsExactly;
      RegisterMints(st, st, d, q, c, "grant_http");
    } else {
      AuditLeaves(st, d, "grant_http", q.id, "deny:mitigation_reduced");
    }
  }

  lemma HttpAsAsked(st: State, q: Request, c: Cap)
    requires q.GrantHttp? && MayMint(st, q)
    requires c == BlankCap(Http).(root := q.origin, taint := External, http := Some(q.spec))
    ensures AsAsked(st, q, c)
  {
  }

  lemma {:induction false} CommandLaw(st: State, d: Disk, q: Request)
    requires q.GrantCommand? && q.id !in st.caps
    ensures
      var (after, reply) := GrantCommandOp(st, d, q.id, q.cwd, q.argv);
      MintsExactly(st, q, after, reply)
  {
    hide Register, IsActive, MintsExactly;
    if MayMint(st, q) {
      var p := GetActive(st, q.cwd).value;
      var c := BlankCap(Command).(root := p.root, ops := [Exec], taint := Yellow, argv := q.argv,
                                  anchored := p.anchored);
      RegisterMints(st, st, d, q, c, "grant_cmd");
    } else {
      RefuseMints(st, q);
    }
  }

  lemma {:induction false} SubLaw(st: State, d: Disk, q: Request)
    requires q.DeriveSub? && q.id !in st.caps
    ensures
      var (after, reply) := DeriveSubOp(st, d, q.id, q.r, q.seg, q.openOk);
      MintsExactly(st, q, after, reply)
  {
    hide Register, IsActive, MintsExactly, Paths.Under, Paths.Clean, Split;
    if MayMint(st, q) {
      var p := GetActive(st, q.r).value;
      var c := BlankCap(Dir).(root := Paths.SafeJoin(p.root, q.seg).value, ops := p.ops, taint := p.taint,
                              anchored := true, parent := Some(q.r));
      RegisterMints(st, st, d, q, c, "derive_sub");
    } else {
      RefuseMints(st, q);
    }
  }

  lemma {:induction false} ReadonlyLaw(st: State, d: Disk, q: Request)
    requires q.DeriveReadonly? && q.id !in st.caps
    ensures
      var (after, reply) := DeriveReadonlyOp(st, d, q.id, q.r);
      MintsExactly(st, q, after, reply)
  {
    hide Register, IsActive, MintsExactly;
    if MayMint(st, q) {
      var p := GetActive(st, q.r).value;
      var c := BlankCap(p.kind).(root := p.root, ops := [Op.Read, Op.List], taint := p.taint, anchored := p.anchored,
                                 parent := Some(q.r));
      RegisterMints(st, st, d, q, c, "derive_readonly");
    } else {
      RefuseMints(st, q);
    }
  }

  lemma {:induction false} FacetLaw(st: State, d: Disk, q: Request)
    requires q.DeriveMsg? && q.id !in st.caps
    ensures
      var (after, reply) := DeriveMsgOp(st, d, q.id, q.r, q.add, q.oneShot);
      MintsExactly(st, q, after, reply)
  {
    hide Register, IsActive, MintsExactly;
    if MayMint(st, q) {
      var m := GetActive(st, q.r).value.msg.value;
      var c := BlankCap(Message).(msg := Some(MsgSpec(m.mailbox, m.prefix + q.add, q.oneShot, false)),
                                  parent := Some(q.r));
      RegisterMints(st, st, d, q, c, "derive_message");
    } else {
      RefuseMints(st, q);
    }
  }

  /** Every minting request succeeds exactly when it may, and then hands out exactly what was asked. */
  lemma {:induction false} MintLaw(st: State, d: Disk, q: Request)
    requires Fresh(st, q) && Mints(q)
    ensures MintsExactly(st, q, Step(st, d, q).0, Step(st, d, q).1)
  {
    hide MintsExactly, GrantDirOp, GrantSinkOp, GrantMessageOp, GrantHttpOp, GrantCommandOp, DeriveSubOp;
    hide DeriveReadonlyOp, DeriveMsgOp;
    match q
    case GrantDir(_, _, _, _, _) => GrantDirLaw(st, d, q);
    case GrantSink(_) => GrantSinkLaw(st, d, q);
    case GrantMessage(_, _) => GrantMessageLaw(st, d, q);
    case GrantHttp(_, _, _, _) => GrantHttpLaw(st, d, q);
    case GrantCommand(_, _, _) => CommandLaw(st, d, q);
    case DeriveSub(_, _, _, _) => SubLaw(st, d, q);
    case DeriveReadonly(_, _) => ReadonlyLaw(st, d, q);
    case DeriveMsg(_, _, _, _) => FacetLaw(st, d, q);
  }

  lemma {:induction false} RunStep(run: Run, d: Disk, i: nat)
    requires ValidRun(run, d) && i < |run.requests|
    ensures Fresh(run.states[i], run.requests[i])
    ensures Step(run.states[i], d, run.requests[i]) == (run.states[i + 1], run.replies[i])
  {
    hide Step, Fresh, NewSession;
  }

  /**
   In every run, what a minting request handed out is what was asked for, field by field, in every
   later state; only its revocation can still change.
   */
  lemma {:induction false} MintedStaysAsAsked(run: Run, d: Disk, m: nat, n: nat)
    requires ValidRun(run, d) && m < n <= |run.requests| && Mints(run.requests[m])
    ensures
      var q, st := run.requests[m], run.states[m];
      && run.replies[m] == (if MayMint(st, q) then CapIs(q.id) else Fail)
      && (MayMint(st, q) ==> q.id in run.states[n].caps && AsAsked(st, q, run.states[n].caps[q.id]))
  {
    hide Step, Fresh, NewSession, MayMint;
    var q, st := run.requests[m], run.states[m];
    RunStep(run, d, m);
    MintLaw(st, d, q);
    Onward(run, d, m + 1, n);
    if MayMint(st, q) {
      var c, now := run.states[m + 1].caps[q.id], run.states[n].caps[q.id];
      assert now == c.(revoked := now.revoked);
      OnlyFlags(st, q, c, now.revoked, c.born);
    }
  }

  // ---- facets ----

  /**
   A derived facet is exactly its parent narrowed: same mailbox, the parent's prefix followed by the
   added one, one-shot as asked, post only; in every later state. And whatever is ever delivered
   through it or through any facet derived from it has a subject under that whole prefix.
   */
  lemma {:induction false} FacetIsAsAsked(run: Run, d: Disk, m: nat, n: nat, k: nat)
    requires ValidRun(run, d) && m < n <= |run.requests| && run.requests[m].DeriveMsg?
    requires run.replies[m] != Fail && k < |run.states[n].deliveries|
    ensures
      var DeriveMsg(id, r, add, oneShot) := run.requests[m];
      var st, now := run.states[m], run.states[n];
      && run.replies[m] == CapIs(id) && r in st.caps && st.caps[r].msg.Some? && id in now.caps
      && var p := st.caps[r].msg.value;
        && now.caps[id].msg == Some(MsgSpec(p.mailbox, p.prefix + add, oneShot, false))
        && now.caps[id].parent == Some(r)
        && (Descends(now.caps, now.deliveries[k].r, id) ==>
              p.prefix + add <= now.deliveries[k].msg.subject && now.deliveries[k].mailbox == p.mailbox)
  {
    hide Step, Fresh, NewSession, Descends, IsActive, Core;
    var q, st, now := run.requests[m], run.states[m], run.states[n];
    MintedStaysAsAsked(run, d, m, n);
    MayFacet(st, q);
    Reachable(run, d, n);
    if Descends(now.caps, now.deliveries[k].r, q.id) { DeliveredUnder(now, k, q.id); }
  }

  lemma MayFacet(st: State, q: Request)
    requires q.DeriveMsg?
    ensures MayMint(st, q) ==> q.r in st.caps && st.caps[q.r].msg.Some?
  {
  }

  lemma {:induction false} DeliveredUnder(st: State, k: nat, id: Ref)
    requires Inv(st) && k < |st.deliveries| && Descends(st.caps, st.deliveries[k].r, id)
    ensures id in st.caps && st.caps[id].msg.Some?
    ensures st.caps[id].msg.value.prefix <= st.deliveries[k].msg.subject
    ensures st.deliveries[k].mailbox == st.caps[id].msg.value.mailbox
  {
    hide AuditInv, EffectInv, OneShotInv, MailInv, HttpInv, Descends;
    var dl := st.deliveries[k];
    assert DeliveryOk(st.caps, dl);
    AncestorFacet(st.caps, dl.r, id);
    SameMailbox(st.caps, dl.r, id);
    PrefixTransitive(dl.msg.subject, st.caps[dl.r].msg.value.prefix, st.caps[id].msg.value.prefix);
  }

  lemma {:induction false} SameMailbox(caps: Caps, x: Ref, a: Ref)
    requires FacetInv(caps) && Descends(caps, x, a) && caps[x].msg.Some?
    ensures a in caps && caps[a].msg.Some? && caps[a].msg.value.mailbox == caps[x].msg.value.mailbox
    decreases caps[x].born
  {
    if x != a {
      assert FacetOk(caps, caps[x]);
      SameMailbox(caps, caps[x].parent.value, a);
    }
  }

  // ---- mitigation ----

  /** The flag of the last mitigation request; a session starts unreduced. */
  function LastFlag(requests: seq<Request>): bool
  {
    if requests == [] then false
    else
      var q := requests[|requests| - 1];
      if q.SetMitigation? then q.reduced else LastFlag(requests[..|requests| - 1])
  }

  lemma {:induction false} BeforeApart(st: State, d: Disk, verb: string, k: EffectKind, r: Ref,
                                       ledger: Option<Consent.Outcome>)
    ensures Apart(st, Before(st, d, verb, k, r, ledger).0)
  {
    hide Audit, Decide, IntentOp, RecordOk, Apart;
    Same(st);
    AuditApart(st, st, d, "policy.deny", r, "deny");
    AuditApart(st, st, d, "policy.consent", r, "approved");
    AuditApart(st, st, d, "policy.consent", r, "denied");
    AuditApart(st, st, d, "policy.consent", r, "pending");
    AuditApart(st, Gate(st, d, verb, r, ledger).0, d, IntentOp(k), r, "attempt");
  }

  lemma Same(st: State)
    ensures Apart(st, st)
  {
  }

  lemma {:induction false} ActKeepsFlag(st: State, d: Disk, q: Request)
    requires q.RunCommand? || q.Send? || q.HttpGet?
    ensures Step(st, d, q).0.reduced == st.reduced
  {
    hide Before, CanRun, CanFetch, IsActive, RecordOk;
    match q
    case RunCommand(r, _, ledger) => BeforeApart(st, d, "exec", Ran, r, ledger);
    case HttpGet(r, _, _, _, ledger) => BeforeApart(st, d, "http_get", Fetched, r, ledger);
    case Send(_, _) =>
  }

  lemma DeliverKeepsFlag(st: State, r: Ref, subject: string, taint: Taint, body: string, literal: bool)
    ensures
      var res := Deliver(st, r, subject, taint, body, literal);
      res.Some? ==> res.value.reduced == st.reduced
  {
    hide IsActive, SetRevoked;
  }

  lemma {:induction false} PostKeepsFlag(st: State, d: Disk, q: Request)
    requires q.Post? || q.PostFrom?
    ensures Step(st, d, q).0.reduced == st.reduced
  {
    hide Before, Deliver, IsActive, ReadInner;
    match q
    case Post(r, subject, body, ledger) =>
      BeforeApart(st, d, "post", Posted, r, ledger);
      DeliverKeepsFlag(Before(st, d, "post", Posted, r, ledger).0, r, subject, Green, body, true);
    case PostFrom(r, subject, src, rel, data, ledger) =>
      BeforeApart(st, d, "post_from", Posted, r, ledger);
      var b := Before(st, d, "post_from", Posted, r, ledger).0;
      var got := ReadInner(b, src, rel, data);
      if got.Some? { DeliverKeepsFlag(b, r, subject, got.value.0, got.value.1, false); }
  }

  lemma {:induction false} LookKeepsFlag(st: State, d: Disk, q: Request)
    requires Fresh(st, q)
    requires
      || q.MailboxRead? || q.ReadFile? || q.ListDir? || q.Revoke? || q.TakeBootstrap? || q.Settle? || q.SetBootstrap?
    ensures Step(st, d, q).0.reduced == st.reduced
  {
    hide IsActive, ReadInner, Paths.SafeJoin, SetRevoked, Insert;
  }

  lemma {:induction false} RevokeEachKeepsFlag(st: State, d: Disk, order: seq<Ref>)
    ensures RevokeEach(st, d, order).reduced == st.reduced
    decreases |order|
  {
    hide SetRevoked;
    if order != [] { RevokeEachKeepsFlag(RevokeOp(st, d, order[0]).0, d, order[1..]); }
  }

  lemma {:induction false} MitigationStoresFlag(st: State, d: Disk, flag: bool, order: seq<Ref>)
    ensures SetMitigationOp(st, d, flag, order).0.reduced == flag
  {
    hide RevokeEach;
    RevokeEachKeepsFlag(st.(reduced := flag), d, order);
  }

  lemma {:induction false} StepFlag(st: State, d: Disk, q: Request)
    requires Fresh(st, q)
    ensures Step(st, d, q).0.reduced == if q.SetMitigation? then q.reduced else st.reduced
  {
    if q.SetMitigation? {
      hide SetMitigationOp;
      MitigationStoresFlag(st, d, q.reduced, q.order);
    } else {
      hide Step;
      if Mints(q) {
        hide MayMint, AsAsked;
        MintLaw(st, d, q);
      } else if q.RunCommand? || q.Send? || q.HttpGet? {
        ActKeepsFlag(st, d, q);
      } else if q.Post? || q.PostFrom? {
        PostKeepsFlag(st, d, q);
      } else {
        LookKeepsFlag(st, d, q);
      }
    }
  }

  /** In every run the session is reduced exactly when the last mitigation request said so. */
  lemma {:induction false} ReducedIsLastFlag(run: Run, d: Disk, n: nat)
    requires ValidRun(run, d) && n <= |run.requests|
    ensures run.states[n].reduced == LastFlag(run.requests[..n])
  {
    hide Step, Fresh;
    if n > 0 {
      ReducedIsLastFlag(run, d, n - 1);
      RunStep(run, d, n - 1);
      StepFlag(run.states[n - 1], d, run.requests[n - 1]);
      assert run.requests[..n][..n - 1] == run.requests[..n - 1];
    }
  }

  /**
   After a downgrade, until an upgrade, every request for an http capability fails and registers
   nothing; outside such a period one with a good host succeeds, and what it gives is active.
   */
  lemma {:induction false} HttpGrantedExactlyUnreduced(run: Run, d: Disk, n: nat)
    requires ValidRun(run, d) && n < |run.requests| && run.requests[n].GrantHttp?
    ensures
      var q, reduced := run.requests[n], LastFlag(run.requests[..n]);
      && run.replies[n] == (if !reduced && q.hostOk then CapIs(q.id) else Fail)
      && (reduced ==> run.states[n + 1].caps == run.states[n].caps)
      && (!reduced && q.hostOk ==>
            && q.id in run.states[n + 1].caps && run.states[n + 1].caps[q.id].http == Some(q.spec)
            && IsActive(run.states[n + 1].caps, q.id))
  {
    hide Step, Fresh, LastFlag, NewSession;
    ReducedIsLastFlag(run, d, n);
    RunStep(run, d, n);
    MintLaw(run.states[n], d, run.requests[n]);
  }

  /** A downgrade revokes the http and message capabilities and touches no other; an upgrade touches none. */
  lemma {:induction false} MitigationIsExact(run: Run, d: Disk, m: nat, r: Ref)
    requires ValidRun(run, d) && m < |run.requests| && run.requests[m].SetMitigation? && r in run.states[m].caps
    ensures
      var before, after := run.states[m].caps[r], run.states[m + 1].caps;
      var egress := before.kind == Http || before.kind == Message;
      && r in after && run.replies[m] == Done
      && after[r] == before.(revoked := before.revoked || (run.requests[m].reduced && egress))
  {
    hide Step, Fresh, NewSession, IsActive;
    var st, q := run.states[m], run.requests[m];
    RunStep(run, d, m);
    FreshOrder(st, q);
    StepIsMitigation(st, d, q);
    hide ToRevoke, SetMitigationOp;
    MitigationCaps(st, d, q.reduced, q.order, r);
    WhoIsRevoked(st.caps, r);
  }

  lemma WhoIsRevoked(caps: Caps, r: Ref)
    requires r in caps
    ensures ToRevoke(caps, r) <==> !caps[r].revoked && (caps[r].kind == Http || caps[r].kind == Message)
  {
  }

  lemma StepIsMitigation(st: State, d: Disk, q: Request)
    requires Fresh(st, q) && q.SetMitigation?
    ensures Step(st, d, q) == SetMitigationOp(st, d, q.reduced, q.order)
  {
    hide SetMitigationOp;
  }

  lemma FreshOrder(st: State, q: Request)
    requires Fresh(st, q) && q.SetMitigation?
    ensures forall r :: r in q.order <==> ToRevoke(st.caps, r)
  {
  }

  lemma RevokeOneCaps(st: State, d: Disk, x: Ref, r: Ref)
    requires r in st.caps
    ensures
      var after := RevokeOp(st, d, x).0.caps;
      r in after && after[r] == st.caps[r].(revoked := st.caps[r].revoked || r == x)
  {
    hide Audit;
    if x in st.caps { AuditLeaves(st.(caps := SetRevoked(st.caps, x)), d, "revoke", x, "allow"); }
    AuditLeaves(st, d, "revoke", x, "deny");
  }

  lemma {:induction false} RevokeEachCaps(st: State, d: Disk, order: seq<Ref>, r: Ref)
    requires r in st.caps
    ensures
      var after := RevokeEach(st, d, order).caps;
      r in after && after[r] == st.caps[r].(revoked := st.caps[r].revoked || r in order)
    decreases |order|
  {
    hide RevokeOp;
    if order != [] {
      RevokeOneCaps(st, d, order[0], r);
      RevokeEachCaps(RevokeOp(st, d, order[0]).0, d, order[1..], r);
    }
  }

  lemma {:induction false} MitigationCaps(st: State, d: Disk, flag: bool, order: seq<Ref>, r: Ref)
    requires r in st.caps
    ensures
      var (after, reply) := SetMitigationOp(st, d, flag, order);
      && reply == Done && r in after.caps
      && after.caps[r] == st.caps[r].(revoked := st.caps[r].revoked || (flag && r in order))
  {
    hide RevokeEach;
    RevokeEachCaps(st.(reduced := flag), d, order, r);
  }

  // ---- acting ----

  /** The next `n` records of the session succeed. */
  predicate NextStored(st: State, d: Disk, n: nat)
  {
    st.hasSink ==> forall i :: |st.trail| <= i < |st.trail| + n ==> d(i)
  }

  /** Events audited before an effect: the granted consent, if one was asked for, and the intent. */
  function Ahead(e: Engine, q: Request): nat { if PromptsFor(e, q) then 2 else 1 }

  /** Policy, consent and log all let the request through. */
  predicate Let(st: State, d: Disk, q: Request, ledger: Option<Consent.Outcome>)
  {
    && !st.broken && !DeniesFor(st.l5, q) && (PromptsFor(st.l5, q) ==> ledger == Some(Consent.Granted))
    && NextStored(st, d, Ahead(st.l5, q))
  }

  /** The verb, the flags and the ledger's answer of a governed request belong together. */
  predicate Governs(e: Engine, q: Request, verb: string)
  {
    || (verb == "exec" && q.RunCommand?) || (verb == "http_get" && q.HttpGet?)
    || (verb == "post" && q.Post?) || (verb == "post_from" && q.PostFrom?)
  }

  /** What stands before an effect: it lets through exactly what policy, consent and log allow. */
  lemma {:induction false} BeforeLaw(st: State, d: Disk, q: Request, verb: string, k: EffectKind, r: Ref,
                                     ledger: Option<Consent.Outcome>)
    requires Governs(st.l5, q, verb)
    ensures
      var b := Before(st, d, verb, k, r, ledger);
      && Apart(st, b.0)
      && (b.1 == None && !b.0.broken <==> Let(st, d, q, ledger))
      && (b.1 == None ==> |b.0.trail| == |st.trail| + Ahead(st.l5, q))
      && (b.1.Some? ==> b.1.value == Fail || b.1.value.NeedsConsent?)
      && ((exists id :: b.1 == Some(NeedsConsent(id))) ==>
            PromptsFor(st.l5, q) && ledger.Some? && ledger.value.Waiting?)
      && (DeniesFor(st.l5, q) ==> b.1 == Some(Fail))
  {
    hide Audit, Gate, IntentOp, Apart, Passes;
    GateLaw(st, d, q, verb, r, ledger);
    var g := Gate(st, d, verb, r, ledger).0;
    AuditApart(st, g, d, IntentOp(k), r, "attempt");
    if Gate(st, d, verb, r, ledger).1 == None { StoredInOrder(st, d, g, if PromptsFor(st.l5, q) then 1 else 0); }
    LetParts(st, d, q, ledger);
  }

  /** Neither the policy nor the ledger stops the request. */
  predicate Passes(e: Engine, q: Request, ledger: Option<Consent.Outcome>)
  {
    !DeniesFor(e, q) && (PromptsFor(e, q) ==> ledger == Some(Consent.Granted))
  }

  lemma LetParts(st: State, d: Disk, q: Request, ledger: Option<Consent.Outcome>)
    ensures Let(st, d, q, ledger) <==>
      !st.broken && Passes(st.l5, q, ledger) && NextStored(st, d, Ahead(st.l5, q))
  {
  }

  /** After `n` stored events the next one is the next one. */
  lemma StoredInOrder(st: State, d: Disk, g: State, n: nat)
    requires |g.trail| == |st.trail| + n && g.hasSink == st.hasSink
    ensures NextStored(st, d, n + 1) <==> NextStored(st, d, n) && RecordOk(g, d)
  {
  }

  lemma {:induction false} GateLaw(st: State, d: Disk, q: Request, verb: string, r: Ref,
                                   ledger: Option<Consent.Outcome>)
    requires Governs(st.l5, q, verb)
    ensures
      var b := Gate(st, d, verb, r, ledger);
      var n := if PromptsFor(st.l5, q) then 1 else 0;
      && Apart(st, b.0) && b.0.hasSink == st.hasSink
      && (b.1 == None <==> Passes(st.l5, q, ledger))
      && (b.1 == None ==> |b.0.trail| == |st.trail| + n && (b.0.broken <==> st.broken || !NextStored(st, d, n)))
      && (b.1.Some? ==> b.1.value == Fail || b.1.value.NeedsConsent?)
      && ((exists id :: b.1 == Some(NeedsConsent(id))) ==>
            PromptsFor(st.l5, q) && ledger.Some? && ledger.value.Waiting?)
      && (DeniesFor(st.l5, q) ==> b.1 == Some(Fail))
      && (!DeniesFor(st.l5, q) && !PromptsFor(st.l5, q) ==> b == (st, None))
  {
    hide Audit, Decide, Apart, Governs;
    Same(st);
    PolicyOf(st.l5, q, verb);
    AuditApart(st, st, d, "policy.deny", r, "deny");
    AuditApart(st, st, d, "policy.consent", r, "approved");
    AuditApart(st, st, d, "policy.consent", r, "denied");
    AuditApart(st, st, d, "policy.consent", r, "pending");
    GateKeepsSink(st, d, verb, r, ledger);
  }

  lemma GateKeepsSink(st: State, d: Disk, verb: string, r: Ref, ledger: Option<Consent.Outcome>)
    ensures Gate(st, d, verb, r, ledger).0.hasSink == st.hasSink
  {
    hide Decide;
  }

  lemma PolicyOf(e: Engine, q: Request, verb: string)
    requires Governs(e, q, verb)
    ensures Decide(e, verb) == if DeniesFor(e, q) then Deny else if PromptsFor(e, q) then Prompt else Allow
  {
    hide Decide;
    PolicyIsFlags(e);
  }

  /** When exactly a command starts. */
  predicate Starts(st: State, d: Disk, q: Request)
    requires q.RunCommand?
  {
    && Let(st, d, q, q.ledger) && IsActive(st.caps, q.r)
    && Exec in st.caps[q.r].ops && st.caps[q.r].argv != [] && st.caps[q.r].anchored
  }

  lemma {:induction false} ExecLaw(st: State, d: Disk, q: Request)
    requires q.RunCommand?
    ensures
      var (after, reply) := ExecOp(st, d, q.r, q.output, q.ledger);
      && after.caps == st.caps && after.mailboxes == st.mailboxes && after.deliveries == st.deliveries
      && after.effects == (if Starts(st, d, q) then st.effects + [Effect(Ran, q.r, |st.trail| + Ahead(st.l5, q))]
                           else st.effects)
      && (Starts(st, d, q) ==> reply == if q.output.Some? then Data(Yellow, q.output.value) else Fail)
      && (!Starts(st, d, q) ==> reply == Fail || reply.NeedsConsent?)
      && (st.l5.denyExec ==> reply == Fail)
  {
    hide Before, Audit, IsActive, RecordOk, Let, Ahead;
    BeforeLaw(st, d, q, "exec", Ran, q.r, q.ledger);
    var b := Before(st, d, "exec", Ran, q.r, q.ledger);
    var s1 := if CanRun(b.0, q.r) then Happened(b.0, Ran, q.r) else b.0;
    AuditLeaves(s1, d, "exec.result", q.r, Word(CanRun(b.0, q.r) && q.output.Some?));
  }

  /** When exactly a request is sent. */
  ghost predicate Fetches(st: State, d: Disk, q: Request)
    requires q.HttpGet?
  {
    && Let(st, d, q, q.ledger) && IsActive(st.caps, q.r) && st.caps[q.r].http.Some? && q.resolved
    && Effects.OnAllowlist(st.caps[q.r].http.value, q.path)
  }

  lemma {:induction false} FetchLaw(st: State, d: Disk, q: Request)
    requires q.HttpGet?
    ensures
      var (after, reply) := HttpGetOp(st, d, q.r, q.path, q.resolved, q.response, q.ledger);
      && after.caps == st.caps && after.mailboxes == st.mailboxes && after.deliveries == st.deliveries
      && after.effects == (if Fetches(st, d, q) then st.effects + [Effect(Fetched, q.r, |st.trail| + Ahead(st.l5, q))]
                           else st.effects)
      && (Fetches(st, d, q) ==> reply == if q.response.Some? then Data(External, q.response.value) else Fail)
      && (!Fetches(st, d, q) ==> reply == Fail || reply.NeedsConsent?)
  {
    hide Before, Audit, IsActive, RecordOk, Let, Ahead, HttpAllowed, Effects.OnAllowlist;
    BeforeLaw(st, d, q, "http_get", Fetched, q.r, q.ledger);
    var b := Before(st, d, "http_get", Fetched, q.r, q.ledger);
    var sends := CanFetch(b.0, q.r, q.path, q.resolved);
    if q.r in st.caps && st.caps[q.r].http.Some? { Effects.AllowedIsOnAllowlist(st.caps[q.r].http.value, q.path); }
    var s1 := if sends then Happened(b.0, Fetched, q.r) else b.0;
    AuditLeaves(s1, d, "http.result", q.r, Word(sends && q.response.Some?));
  }

  /** When exactly something is sent to a sink. */
  predicate Sends(st: State, d: Disk, q: Request)
    requires q.Send?
  {
    && !st.broken && NextStored(st, d, 1) && IsActive(st.caps, q.r) && st.caps[q.r].kind == Sink && q.taint != Secret
  }

  lemma {:induction false} SendLaw(st: State, d: Disk, q: Request)
    requires q.Send?
    ensures
      var (after, reply) := SendOp(st, d, q.r, q.taint);
      && after.caps == st.caps && after.mailboxes == st.mailboxes && after.deliveries == st.deliveries
      && after.effects == (if Sends(st, d, q) then st.effects + [Effect(Sent, q.r, |st.trail| + 1)] else st.effects)
      && reply == if Sends(st, d, q) then Done else Fail
  {
    hide Audit, IsActive;
    AuditApart(st, st, d, "send.intent", q.r, "attempt");
    var b := Audit(st, d, "send.intent", q.r, "attempt");
    var c := GetActive(b, q.r);
    var ok := c.Some? && c.value.kind == Sink && q.taint != Secret;
    AuditLeaves(if ok then Happened(b, Sent, q.r) else b, d, "send.result", q.r, Word(ok));
  }

  // ---- posting ----

  /** A message may be delivered through the facet, whoever wrote it. */
  predicate Fits(st: State, r: Ref, subject: string, taint: Taint)
  {
    && IsActive(st.caps, r) && st.caps[r].msg.Some? && taint != Secret
    && st.caps[r].msg.value.prefix <= subject && st.caps[r].msg.value.mailbox in st.mailboxes
  }

  /** One message more in the facet's mailbox, one delivery and one effect; a one-shot facet ends. */
  ghost predicate Delivered(st: State, q: Request, at: nat, msg: Msg, literal: bool, after: State)
    requires (q.Post? || q.PostFrom?) && q.r in st.caps && st.caps[q.r].msg.Some?
    requires st.caps[q.r].msg.value.mailbox in st.mailboxes
  {
    var m := st.caps[q.r].msg.value;
    && after.mailboxes == st.mailboxes[m.mailbox := st.mailboxes[m.mailbox] + [msg]]
    && after.deliveries == st.deliveries + [Delivery(q.r, m.mailbox, msg, literal)]
    && after.effects == st.effects + [Effect(Posted, q.r, at)]
    && after.caps == if m.oneShot then st.caps[q.r := st.caps[q.r].(revoked := true)] else st.caps
  }

  ghost predicate NothingMoved(st: State, after: State)
  {
    && after.caps == st.caps && after.mailboxes == st.mailboxes && after.deliveries == st.deliveries
    && after.effects == st.effects
  }

  lemma {:induction false} DeliverLaw(st: State, q: Request, subject: string, taint: Taint, body: string, literal: bool)
    requires q.Post? || q.PostFrom?
    ensures
      var res := Deliver(st, q.r, subject, taint, body, literal);
      && (res.Some? <==> !st.broken && Fits(st, q.r, subject, taint))
      && (res.Some? ==> Delivered(st, q, |st.trail|, Msg(subject, body, taint, st.key), literal, res.value))
  {
    hide IsActive, SetRevoked, WellFounded, Delivered;
    var c := GetActive(st, q.r);
    if Fits(st, q.r, subject, taint) && !st.broken { DeliveredParts(st, q, subject, taint, body, literal); }
  }

  lemma {:induction false} DeliveredParts(st: State, q: Request, subject: string, taint: Taint, body: string,
                                          literal: bool)
    requires (q.Post? || q.PostFrom?) && !st.broken && Fits(st, q.r, subject, taint)
    ensures
      var res := Deliver(st, q.r, subject, taint, body, literal);
      q.r in st.caps && res.Some? && Delivered(st, q, |st.trail|, Msg(subject, body, taint, st.key), literal, res.value)
  {
    hide IsActive, SetRevoked, WellFounded;
    var c := GetActive(st, q.r);
  }

  /** When exactly a literal post is delivered. */
  predicate Posts(st: State, d: Disk, q: Request)
    requires q.Post?
  {
    && Let(st, d, q, q.ledger) && Fits(st, q.r, q.subject, Green) && st.caps[q.r].msg.value.canReceive
  }

  lemma {:induction false} PostLaw(st: State, d: Disk, q: Request)
    requires q.Post?
    ensures
      var (after, reply) := PostOp(st, d, q.r, q.subject, q.body, q.ledger);
      if Posts(st, d, q) then
        && reply == Done
        && Delivered(st, q, |st.trail| + Ahead(st.l5, q), Msg(q.subject, q.body, Green, st.key), true, after)
      else NothingMoved(st, after) && (reply == Fail || reply.NeedsConsent?)
  {
    hide Before, Audit, IsActive, RecordOk, Let, Ahead, Deliver;
    BeforeLaw(st, d, q, "post", Posted, q.r, q.ledger);
    var b := Before(st, d, "post", Posted, q.r, q.ledger).0;
    DeliverLaw(b, q, q.subject, Green, q.body, true);
    var res := LiteralPost(b, q.r, q.subject, q.body);
    AuditLeaves(if res.Some? then res.value else b, d, "post.result", q.r, Word(res.Some?));
  }

  /** A file can be read through the capability. */
  predicate CanRead(st: State, r: Ref, rel: string)
  {
    && !st.broken && IsActive(st.caps, r) && Op.Read in st.caps[r].ops && st.caps[r].anchored
    && !Paths.Absolute(rel) && ".." !in Split(rel, '/')
  }

  /** The taint of what is read: Secret if the whole path says so, otherwise the capability's. */
  function TaintOf(st: State, r: Ref, rel: string): Taint
    requires r in st.caps
  {
    if Paths.IsSecretPath(st.caps[r].root + "/" + rel) then Secret else st.caps[r].taint
  }

  lemma {:induction false} ReadInnerLaw(st: State, r: Ref, rel: string, data: Option<string>)
    ensures ReadInner(st, r, rel, data)
         == if CanRead(st, r, rel) && data.Some? then Some((TaintOf(st, r, rel), data.value)) else None
  {
    hide IsActive, Paths.IsSecretPath, Split, Paths.Under, Paths.Clean;
  }

  /** When exactly a file is forwarded. */
  predicate Forwards(st: State, d: Disk, q: Request)
    requires q.PostFrom?
  {
    && Let(st, d, q, q.ledger) && CanRead(st, q.src, q.rel) && q.data.Some?
    && Fits(st, q.r, q.subject, TaintOf(st, q.src, q.rel))
  }

  lemma {:induction false} PostFromLaw(st: State, d: Disk, q: Request)
    requires q.PostFrom?
    ensures
      var (after, reply) := PostFromOp(st, d, q.r, q.subject, q.src, q.rel, q.data, q.ledger);
      if Forwards(st, d, q) then
        && reply == Done
        && Delivered(st, q, |st.trail| + Ahead(st.l5, q),
                     Msg(q.subject, q.data.value, TaintOf(st, q.src, q.rel), st.key), false, after)
      else NothingMoved(st, after) && (reply == Fail || reply.NeedsConsent?)
  {
    hide Before, Audit, IsActive, RecordOk, Let, Ahead, Deliver, ReadInner, Paths.IsSecretPath, Split;
    BeforeLaw(st, d, q, "post_from", Posted, q.r, q.ledger);
    LetParts(st, d, q, q.ledger);
    var b := Before(st, d, "post_from", Posted, q.r, q.ledger).0;
    ReadInnerLaw(b, q.src, q.rel, q.data);
    var got := ReadInner(b, q.src, q.rel, q.data);
    if got.Some? { DeliverLaw(b, q, q.subject, got.value.0, got.value.1, false); }
    var res := ForwardedPost(b, q.r, q.subject, q.src, q.rel, q.data);
    AuditLeaves(if res.Some? then res.value else b, d, "post.result", q.r, Word(res.Some?));
  }

  // ---- looking ----

  lemma {:induction false} ReadLaw(st: State, d: Disk, r: Ref, rel: string, data: Option<string>)
    ensures
      var (after, reply) := ReadOp(st, d, r, rel, data);
      && NothingMoved(st, after)
      && reply
         == if CanRead(st, r, rel) && data.Some? && NextStored(st, d, 1) then Data(TaintOf(st, r, rel), data.value)
            else Fail
  {
    hide Audit, ReadInner, IsActive, Paths.IsSecretPath, Split;
    ReadInnerLaw(st, r, rel, data);
    AuditLeaves(st, d, "read", r, Word(ReadInner(st, r, rel, data).Some?));
  }

  lemma {:induction false} ListLaw(st: State, d: Disk, r: Ref, rel: string, names: Option<string>)
    ensures
      var (after, reply) := ListOp(st, d, r, rel, names);
      var may := !st.broken && IsActive(st.caps, r) && Op.List in st.caps[r].ops && st.caps[r].anchored
                 && !Paths.Absolute(rel) && ".." !in Split(rel, '/');
      && NothingMoved(st, after)
      && reply == if may && names.Some? && NextStored(st, d, 1) then Data(Project, names.value) else Fail
  {
    hide Audit, IsActive, Split, Paths.Under, Paths.Clean;
    AuditLeaves(st, d, "list", r, "allow");
    AuditLeaves(st, d, "list", r, "deny");
  }

  lemma {:induction false} MailboxLaw(st: State, d: Disk, r: Ref)
    ensures
      var (after, reply) := MailboxReadOp(st, d, r);
      var may := !st.broken && IsActive(st.caps, r) && st.caps[r].msg.Some? && st.caps[r].msg.value.canReceive;
      && NothingMoved(st, after)
      && reply == if may && NextStored(st, d, 1) then
                    var box := st.caps[r].msg.value.mailbox;
                    Mail(if box in st.mailboxes then st.mailboxes[box] else [])
                  else Fail
  {
    hide Audit, IsActive;
    AuditLeaves(st, d, "mailbox_read", r, "allow");
  }
}
