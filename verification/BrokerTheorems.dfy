/**
 Theorems about every run of a session: any sequence of requests, any answers from the operating
 system and the ledger, and any pattern of failing log writes.
 */
module BrokerTheorems {
  import opened Text
  import opened Registry
  import opened Broker
  import opened BrokerRuns
  import Consent
  import Paths

  /** A run: states, requests and replies, from a new session. */
  datatype Run = Run(states: seq<State>, requests: seq<Request>, replies: seq<Reply>)

  ghost predicate ValidRun(run: Run, d: Disk)
  {
    && |run.states| == |run.requests| + 1 && |run.replies| == |run.requests|
    && run.states[0] == NewSession(run.states[0].key, run.states[0].hasSink, run.states[0].l5)
    && forall i :: 0 <= i < |run.requests| ==>
         Fresh(run.states[i], run.requests[i])
         && Step(run.states[i], d, run.requests[i]) == (run.states[i + 1], run.replies[i])
  }

  lemma NewSessionInv(key: string, hasSink: bool, l5: Engine)
    ensures Inv(NewSession(key, hasSink, l5))
  {
  }

  /** Every reachable state satisfies the invariant. */
  lemma {:induction false} Reachable(run: Run, d: Disk, n: nat)
    requires ValidRun(run, d) && n <= |run.requests|
    ensures Inv(run.states[n])
  {
    hide Inv, Step, Fresh;
    if n == 0 {
      NewSessionInv(run.states[0].key, run.states[0].hasSink, run.states[0].l5);
    } else {
      Reachable(run, d, n - 1);
      StepKeeps(run.states[n - 1], d, run.requests[n - 1]);
    }
  }

  /** Later states extend earlier ones. */
  lemma {:induction false} Onward(run: Run, d: Disk, m: nat, n: nat)
    requires ValidRun(run, d) && m <= n <= |run.requests|
    ensures Progress(run.states[m], run.states[n])
    decreases n - m
  {
    hide Inv, Step, Fresh, Progress, NewSession;
    if m == n {
      ProgressReflexive(run.states[m]);
    } else {
      Onward(run, d, m, n - 1);
      Reachable(run, d, n - 1);
      StepKeeps(run.states[n - 1], d, run.requests[n - 1]);
      ProgressTransitive(run.states[m], run.states[n - 1], run.states[n]);
    }
  }

  lemma ProgressReflexive(a: State)
    ensures Progress(a, a)
  {
  }

  lemma ProgressTransitive(a: State, b: State, c: State)
    requires Progress(a, b) && Progress(b, c)
    ensures Progress(a, c)
  {
    hide Extends;
    ExtendsTransitive(a.caps, b.caps, c.caps);
  }

  // ---- revocation ----

  lemma {:induction false} DescendantOfRevoked(caps: Caps, x: Ref, r: Ref)
    requires Descends(caps, x, r) && r in caps && caps[r].revoked
    ensures !IsActive(caps, x)
  {
    hide IsActive, Descends;
    if IsActive(caps, x) { ActiveAncestors(caps, x, r); }
  }

  /**
   Exact, permanent revocation. At the step that revokes `r`, exactly `r` and its descendants
   become inactive; in every later state nothing that descends from `r` is active, whether it
   existed then or was derived since.
   */
  lemma {:induction false} RevocationIsExactAndPermanent(run: Run, d: Disk, m: nat, n: nat, r: Ref, x: Ref)
    requires ValidRun(run, d) && m < n <= |run.requests|
    requires run.requests[m] == Revoke(r) && r in run.states[m].caps
    ensures IsActive(run.states[m + 1].caps, x) <==>
              IsActive(run.states[m].caps, x) && !Descends(run.states[m].caps, x, r)
    ensures Descends(run.states[n].caps, x, r) ==> !IsActive(run.states[n].caps, x)
    ensures Descends(run.states[m].caps, x, r) ==> !IsActive(run.states[n].caps, x)
  {
    hide Inv, IsActive, Descends, Fresh, Step, NewSession;
    var s0, s1, sn := run.states[m], run.states[m + 1], run.states[n];
    StepIsRevoke(s0, d, r);
    assert Step(s0, d, run.requests[m]) == (s1, run.replies[m]);
    RevokeIsExact(s0.caps, r, x);
    Onward(run, d, m + 1, n);
    Onward(run, d, m, n);
    assert sn.caps[r].revoked;
    if Descends(sn.caps, x, r) { DescendantOfRevoked(sn.caps, x, r); }
    if Descends(s0.caps, x, r) {
      InRegistry(s0.caps, x, r);
      DescentFixed(s0.caps, sn.caps, x, r);
    }
  }

  lemma InRegistry(caps: Caps, x: Ref, r: Ref)
    requires Descends(caps, x, r)
    ensures x in caps
  {
  }

  lemma StepIsRevoke(st: State, d: Disk, r: Ref)
    requires r in st.caps
    ensures Step(st, d, Revoke(r)).0.caps == SetRevoked(st.caps, r)
  {
    hide GrantDirOp, GrantSinkOp, GrantMessageOp, GrantCommandOp, GrantHttpOp, DeriveSubOp, DeriveReadonlyOp,
      DeriveMsgOp;
    hide PostOp, PostFromOp, MailboxReadOp, ReadOp, ListOp, ExecOp, SendOp, HttpGetOp, SetMitigationOp, SetBootstrapOp;
  }

  /** What is inactive once is inactive forever. */
  lemma {:induction false} InactiveForever(run: Run, d: Disk, m: nat, n: nat, x: Ref)
    requires ValidRun(run, d) && m <= n <= |run.requests| && x in run.states[m].caps
    requires !IsActive(run.states[m].caps, x)
    ensures !IsActive(run.states[n].caps, x)
  {
    hide IsActive, Step, Fresh;
    Onward(run, d, m, n);
    StaysInactive(run.states[m].caps, run.states[n].caps, x);
  }

  // ---- mitigation ----

  /** Every http or message capability that exists at a downgrade is inactive ever after. */
  lemma {:induction false} DowngradeIsPermanent(run: Run, d: Disk, m: nat, n: nat, r: Ref)
    requires ValidRun(run, d) && m < n <= |run.requests|
    requires run.requests[m].SetMitigation? && run.requests[m].reduced
    requires r in run.states[m].caps && IsEgress(run.states[m].caps[r])
    ensures !IsActive(run.states[n].caps, r)
  {
    hide Inv, Fresh, Step, NewSession;
    var s0, s1 := run.states[m], run.states[m + 1];
    Reachable(run, d, m);
    assert Fresh(s0, run.requests[m]) && Step(s0, d, run.requests[m]) == (s1, run.replies[m]);
    DowngradeStep(s0, d, run.requests[m].order, r);
    InactiveForever(run, d, m + 1, n, r);
  }

  lemma {:induction false} DowngradeStep(st: State, d: Disk, order: seq<Ref>, r: Ref)
    requires Inv(st) && Fresh(st, SetMitigation(true, order)) && r in st.caps && IsEgress(st.caps[r])
    ensures r in Step(st, d, SetMitigation(true, order)).0.caps
         && Step(st, d, SetMitigation(true, order)).0.caps[r].revoked
  {
    hide Core, HttpInv, SetMitigationOp;
    hide GrantDirOp, GrantSinkOp, GrantMessageOp, GrantCommandOp, GrantHttpOp, DeriveSubOp, DeriveReadonlyOp,
      DeriveMsgOp;
    hide PostOp, PostFromOp, MailboxReadOp, ReadOp, ListOp, ExecOp, SendOp, HttpGetOp, RevokeOp, SetBootstrapOp;
    SetMitigationKeeps(st, d, true, order);
  }

  /** No http capability is active while mitigation is reduced. */
  lemma {:induction false} NoHttpWhileReduced(run: Run, d: Disk, n: nat, r: Ref)
    requires ValidRun(run, d) && n <= |run.requests| && run.states[n].reduced
    requires r in run.states[n].caps && run.states[n].caps[r].kind == Http
    ensures !IsActive(run.states[n].caps, r)
  {
    hide Core, Step, Fresh, IsActive;
    Reachable(run, d, n);
  }

  // ---- mailboxes ----

  lemma {:induction false} AncestorFacet(caps: Caps, x: Ref, a: Ref)
    requires FacetInv(caps) && Descends(caps, x, a) && caps[x].msg.Some?
    ensures a in caps && caps[a].msg.Some? && HasPrefix(caps[x].msg.value.prefix, caps[a].msg.value.prefix)
    decreases caps[x].born
  {
    if x != a {
      assert FacetOk(caps, caps[x]);
      AncestorFacet(caps, caps[x].parent.value, a);
    }
  }

  lemma {:induction false} MessageWasDelivered(ds: seq<Delivery>, box: string, j: nat) returns (i: nat)
    requires j < |MessagesOf(ds, box)|
    ensures i < |ds| && ds[i].mailbox == box && ds[i].msg == MessagesOf(ds, box)[j]
  {
    var k := |ds| - 1;
    if j < |MessagesOf(ds[..k], box)| {
      i := MessageWasDelivered(ds[..k], box, j);
    } else {
      i := k;
    }
  }

  /**
   The mailbox rules, in every reachable state, for every message in every mailbox: it was
   delivered through some reference; it is not secret; its subject starts with the prefix of that
   reference and of all its ancestors; and a literal post came from an owner, a minted root.
   */
  lemma {:induction false} MailboxRules(run: Run, d: Disk, n: nat, box: string, j: nat) returns (i: nat)
    requires ValidRun(run, d) && n <= |run.requests|
    requires box in run.states[n].mailboxes && j < |run.states[n].mailboxes[box]|
    ensures
      var st := run.states[n];
      && i < |st.deliveries|
      && var dl := st.deliveries[i];
        && dl.mailbox == box && dl.msg == st.mailboxes[box][j] && dl.msg.taint != Secret
        && dl.r in st.caps
        && (forall a :: Descends(st.caps, dl.r, a) ==>
              a in st.caps && st.caps[a].msg.Some? && HasPrefix(dl.msg.subject, st.caps[a].msg.value.prefix))
        && (dl.literal ==>
              st.caps[dl.r].msg.Some? && st.caps[dl.r].msg.value.canReceive && st.caps[dl.r].parent == None)
  {
    hide Step, Fresh, AuditInv, EffectInv, OneShotInv, HttpInv, MessagesOf, Descends, HasPrefix;
    var st := run.states[n];
    Reachable(run, d, n);
    i := MessageWasDelivered(st.deliveries, box, j);
    var dl := st.deliveries[i];
    assert DeliveryOk(st.caps, dl) && FacetOk(st.caps, st.caps[dl.r]);
    forall a | Descends(st.caps, dl.r, a)
      ensures a in st.caps && st.caps[a].msg.Some? && HasPrefix(dl.msg.subject, st.caps[a].msg.value.prefix)
    {
      AncestorFacet(st.caps, dl.r, a);
      PrefixTransitive(dl.msg.subject, st.caps[dl.r].msg.value.prefix, st.caps[a].msg.value.prefix);
    }
  }

  lemma PrefixTransitive(s: string, p: string, q: string)
    requires HasPrefix(s, p) && HasPrefix(p, q)
    ensures HasPrefix(s, q)
  {
  }

  /** Only the minted root of a facet tree can receive. */
  lemma {:induction false} OnlyRootsReceive(run: Run, d: Disk, n: nat)
    requires ValidRun(run, d) && n < |run.requests| && run.requests[n].MailboxRead? && run.replies[n].Mail?
    ensures run.requests[n].r in run.states[n].caps && run.states[n].caps[run.requests[n].r].parent == None
  {
    hide AuditInv, EffectInv, OneShotInv, HttpInv, MailInv, Fresh, IsActive;
    var st, r := run.states[n], run.requests[n].r;
    Reachable(run, d, n);
    assert Step(st, d, run.requests[n]) == (run.states[n + 1], run.replies[n]);
    assert FacetOk(st.caps, st.caps[r]);
  }

  /** A one-shot reference delivers at most once; after that it and its descendants stay inactive. */
  lemma {:induction false} OneShotDeliversOnce(run: Run, d: Disk, m: nat, n: nat, r: Ref, x: Ref)
    requires ValidRun(run, d) && m <= n <= |run.requests|
    requires r in run.states[m].caps && run.states[m].caps[r].msg.Some? && run.states[m].caps[r].msg.value.oneShot
    ensures CountRef(run.states[m].deliveries, r) <= 1
    ensures CountRef(run.states[m].deliveries, r) == 1 && Descends(run.states[n].caps, x, r) ==>
              !IsActive(run.states[n].caps, x)
  {
    hide Step, Fresh, AuditInv, EffectInv, FacetInv, DeliveryInv, MailInv, HttpInv, IsActive, Descends, CountRef;
    Reachable(run, d, m);
    Onward(run, d, m, n);
    assert SpentOk(run.states[m].caps, run.states[m].deliveries, r);
    if run.states[m].caps[r].revoked && Descends(run.states[n].caps, x, r) {
      DescendantOfRevoked(run.states[n].caps, x, r);
    }
  }

  // ---- recording before acting ----

  ghost predicate AllStored(st: State)
  {
    |st.stored| == |st.trail| && forall i :: 0 <= i < |st.stored| ==> st.stored[i]
  }

  /**
   Record before effect: everything that ever left the session (a command run, a send, a fetch, a
   message) left when its own intent was the last event and every event so far was in the log.
   */
  lemma {:induction false} RecordBeforeEffect(run: Run, d: Disk, n: nat, k: nat)
    requires ValidRun(run, d) && n <= |run.requests| && k < |run.states[n].effects|
    ensures
      var st := run.states[n];
      var e := st.effects[k];
      && 0 < e.at <= |st.trail| && |st.stored| == |st.trail|
      && st.trail[e.at - 1].op == IntentOp(e.kind) && st.trail[e.at - 1].subject == e.r
      && forall i :: 0 <= i < e.at ==> st.stored[i]
  {
    hide Step, Fresh, AuditInv, FacetInv, DeliveryInv, OneShotInv, MailInv, HttpInv;
    Reachable(run, d, n);
    assert EffectOk(run.states[n].trail, run.states[n].stored, run.states[n].effects[k]);
  }

  /** What is disclosed by a read, a listing or a mailbox has all of its trail in the log, itself included. */
  lemma {:induction false} RecordBeforeDisclosure(run: Run, d: Disk, n: nat)
    requires ValidRun(run, d) && n < |run.requests|
    requires run.requests[n].ReadFile? || run.requests[n].ListDir? || run.requests[n].MailboxRead?
    requires run.replies[n] != Fail
    ensures AllStored(run.states[n + 1]) && |run.states[n + 1].trail| == |run.states[n].trail| + 1
  {
    hide EffectInv, FacetInv, DeliveryInv, OneShotInv, MailInv, HttpInv, Fresh, IsActive;
    var st := run.states[n];
    Reachable(run, d, n + 1);
    assert Step(st, d, run.requests[n]) == (run.states[n + 1], run.replies[n]);
    assert !st.broken && RecordOk(st, d);
  }

  /** Requests that go through `get_active`. */
  predicate NeedsActive(q: Request)
  {
    || q.GrantCommand? || q.DeriveSub? || q.DeriveReadonly? || q.DeriveMsg? || q.Post? || q.PostFrom?
    || q.MailboxRead? || q.ReadFile? || q.ListDir? || q.RunCommand? || q.Send? || q.HttpGet?
  }

  /** Nothing that matters moved. */
  ghost predicate Inert(st: State, r: (State, Reply))
  {
    && (r.1 == Fail || r.1.NeedsConsent?)
    && r.0.caps == st.caps && r.0.effects == st.effects && r.0.deliveries == st.deliveries && r.0.broken
  }

  lemma {:induction false} BrokenDerives(st: State, d: Disk, q: Request)
    requires st.broken && Fresh(st, q) && (q.GrantCommand? || q.DeriveSub? || q.DeriveReadonly? || q.DeriveMsg?)
    ensures Inert(st, Step(st, d, q))
  {
    hide IsActive, Register, Paths.SafeJoin;
  }

  lemma {:induction false} BrokenReads(st: State, d: Disk, q: Request)
    requires st.broken && Fresh(st, q) && (q.MailboxRead? || q.ReadFile? || q.ListDir?)
    ensures Inert(st, Step(st, d, q))
  {
    hide IsActive, Paths.SafeJoin, Paths.IsSecretPath;
  }

  lemma {:induction false} BrokenBefore(st: State, d: Disk, verb: string, k: EffectKind, r: Ref,
                                        ledger: Option<Consent.Outcome>)
    requires st.broken
    ensures
      var b := Before(st, d, verb, k, r, ledger);
      && b.0.broken && b.0.caps == st.caps && b.0.effects == st.effects && b.0.deliveries == st.deliveries
      && (b.1.Some? ==> b.1.value == Fail || b.1.value.NeedsConsent?)
  {
    hide Gate, IntentOp, RecordOk;
    BrokenGate(st, d, verb, r, ledger);
  }

  lemma {:induction false} BrokenGate(st: State, d: Disk, verb: string, r: Ref, ledger: Option<Consent.Outcome>)
    requires st.broken
    ensures
      var b := Gate(st, d, verb, r, ledger);
      && b.0.broken && b.0.caps == st.caps && b.0.effects == st.effects && b.0.deliveries == st.deliveries
      && (b.1.Some? ==> b.1.value == Fail || b.1.value.NeedsConsent?)
  {
    hide Decide, Audit;
    AuditLeaves(st, d, "policy.deny", r, "deny");
    AuditLeaves(st, d, "policy.consent", r, "approved");
    AuditLeaves(st, d, "policy.consent", r, "denied");
    AuditLeaves(st, d, "policy.consent", r, "pending");
  }

  lemma {:induction false} BrokenActs(st: State, d: Disk, q: Request)
    requires st.broken && Fresh(st, q) && (q.Post? || q.PostFrom? || q.RunCommand? || q.Send? || q.HttpGet?)
    ensures Inert(st, Step(st, d, q))
  {
    hide IsActive, Before, HttpAllowed, Paths.SafeJoin, Paths.IsSecretPath, Deliver;
    match q
    case Post(r, _, _, ledger) => BrokenBefore(st, d, "post", Posted, r, ledger);
    case PostFrom(r, _, _, _, _, ledger) => BrokenBefore(st, d, "post_from", Posted, r, ledger);
    case RunCommand(r, _, ledger) => BrokenBefore(st, d, "exec", Ran, r, ledger);
    case Send(r, _) =>
    case HttpGet(r, _, _, _, ledger) => BrokenBefore(st, d, "http_get", Fetched, r, ledger);
  }

  lemma {:induction false} BrokenRefuses(st: State, d: Disk, q: Request)
    requires st.broken && NeedsActive(q) && Fresh(st, q)
    ensures Inert(st, Step(st, d, q))
  {
    hide Step, Inert, Fresh;
    if q.GrantCommand? || q.DeriveSub? || q.DeriveReadonly? || q.DeriveMsg? {
      BrokenDerives(st, d, q);
    } else if q.MailboxRead? || q.ReadFile? || q.ListDir? {
      BrokenReads(st, d, q);
    } else {
      BrokenActs(st, d, q);
    }
  }

  /** After one failed record nothing that goes through `get_active` succeeds again. */
  lemma {:induction false} BrokenForever(run: Run, d: Disk, m: nat, n: nat)
    requires ValidRun(run, d) && m <= n < |run.requests| && run.states[m].broken && NeedsActive(run.requests[n])
    ensures run.replies[n] == Fail || run.replies[n].NeedsConsent?
    ensures run.states[n + 1].caps == run.states[n].caps && run.states[n + 1].effects == run.states[n].effects
    ensures run.states[n + 1].deliveries == run.states[n].deliveries
  {
    hide Step, Fresh, Extends, NeedsActive, NewSession;
    Onward(run, d, m, n);
    assert Fresh(run.states[n], run.requests[n]);
    BrokenRefuses(run.states[n], d, run.requests[n]);
    assert Step(run.states[n], d, run.requests[n]) == (run.states[n + 1], run.replies[n]);
  }
}
