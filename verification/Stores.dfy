/**
 What a step does to a session's trail: it appends, and each new event is flagged as stored exactly
 when its own record succeeds.
 */
module Stores {
  import opened Text
  import opened Registry
  import opened Broker
  import Paths
  import Consent

  ghost predicate Appends(d: Disk, a: State, b: State)
  {
    && |a.stored| == |a.trail| && |b.stored| == |b.trail|
    && a.trail <= b.trail && a.stored <= b.stored && b.hasSink == a.hasSink
    && forall i :: |a.trail| <= i < |b.trail| ==> (b.stored[i] <==> !a.hasSink || d(i))
  }

  /** The trail and its flags are untouched. */
  predicate SameTrail(a: State, b: State) { b.trail == a.trail && b.stored == a.stored && b.hasSink == a.hasSink }

  lemma AppendsNothing(d: Disk, a: State, b: State)
    requires |a.stored| == |a.trail| && SameTrail(a, b)
    ensures Appends(d, a, b)
  {
  }

  /** A step that changes other fields and then audits once. */
  lemma AppendsOne(d: Disk, a: State, b: State, op: string, subject: string, decision: string)
    requires |a.stored| == |a.trail| && SameTrail(a, b)
    ensures Appends(d, a, Audit(b, d, op, subject, decision))
  {
  }

  lemma {:induction false} AppendsOn(d: Disk, a: State, b: State, c: State)
    requires Appends(d, a, b) && Appends(d, b, c)
    ensures Appends(d, a, c)
  {
    forall i | |a.trail| <= i < |c.trail| ensures c.stored[i] <==> !a.hasSink || d(i) {
      if i < |b.trail| { assert c.stored[i] == b.stored[i]; }
    }
  }

  /** One more event after what was appended so far. */
  lemma {:induction false} AppendsThen(d: Disk, a: State, b: State, c: State, op: string, subject: string,
                                       decision: string)
    requires Appends(d, a, b) && SameTrail(b, c)
    ensures Appends(d, a, Audit(c, d, op, subject, decision))
  {
    hide Audit;
    assert |b.stored| == |b.trail|;
    AppendsOne(d, b, c, op, subject, decision);
    AppendsOn(d, a, b, Audit(c, d, op, subject, decision));
  }

  lemma {:induction false} GateAppends(st: State, d: Disk, verb: string, r: Ref, ledger: Option<Consent.Outcome>)
    requires |st.stored| == |st.trail|
    ensures Appends(d, st, Gate(st, d, verb, r, ledger).0)
  {
    hide Audit, Decide, Appends;
    AppendsNothing(d, st, st);
    AppendsOne(d, st, st, "policy.deny", r, "deny");
    AppendsOne(d, st, st, "policy.consent", r, "approved");
    AppendsOne(d, st, st, "policy.consent", r, "denied");
    AppendsOne(d, st, st, "policy.consent", r, "pending");
  }

  lemma {:induction false} BeforeAppends(st: State, d: Disk, verb: string, k: EffectKind, r: Ref,
                                         ledger: Option<Consent.Outcome>)
    requires |st.stored| == |st.trail|
    ensures Appends(d, st, Before(st, d, verb, k, r, ledger).0)
  {
    hide Audit, Gate, Appends, IntentOp, RecordOk;
    var g := Gate(st, d, verb, r, ledger).0;
    GateAppends(st, d, verb, r, ledger);
    AppendsThen(d, st, g, g, IntentOp(k), r, "attempt");
  }

  lemma {:induction false} RegisterAppends(st: State, s1: State, d: Disk, id: Ref, op: string)
    requires |st.stored| == |st.trail| && SameTrail(st, s1)
    ensures forall c: Cap :: CanInsert(s1.caps, id, c) ==> Appends(d, st, Register(s1, d, id, c, op).0)
  {
    hide Audit, Appends, Insert;
    forall c: Cap | CanInsert(s1.caps, id, c) ensures Appends(d, st, Register(s1, d, id, c, op).0) {
      AppendsOne(d, st, s1.(caps := Insert(s1.caps, id, c)), op, id, "allow");
    }
  }

  lemma {:induction false} MintAppends(st: State, d: Disk, q: Request)
    requires |st.stored| == |st.trail| && Fresh(st, q)
    requires q.GrantDir? || q.GrantSink? || q.GrantMessage? || q.GrantCommand? || q.GrantHttp?
    ensures Appends(d, st, Step(st, d, q).0)
  {
    hide IsActive, Register, Appends, Audit;
    AppendsNothing(d, st, st);
    match q
    case GrantDir(id, _, _, _, _) => RegisterAppends(st, st, d, id, "grant_dir");
    case GrantSink(id) => RegisterAppends(st, st, d, id, "grant_sink");
    case GrantMessage(id, mailbox) =>
      RegisterAppends(st, st.(mailboxes := st.mailboxes[mailbox := []]), d, id, "grant_message");
    case GrantCommand(id, _, _) => RegisterAppends(st, st, d, id, "grant_cmd");
    case GrantHttp(id, _, _, _) =>
      RegisterAppends(st, st, d, id, "grant_http");
      AppendsOne(d, st, st, "grant_http", id, "deny:mitigation_reduced");
  }

  lemma {:induction false} BootstrapAppends(st: State, d: Disk, id: Ref, workspace: string, openOk: bool)
    requires |st.stored| == |st.trail| && id !in st.caps
    ensures Appends(d, st, SetBootstrapOp(st, d, id, workspace, openOk).0)
  {
    hide Register, Audit, GrantDirOp;
    MintAppends(st, d, GrantDir(id, workspace, [Op.Read, Op.List], Project, openOk));
  }

  lemma {:induction false} DeriveAppends(st: State, d: Disk, q: Request)
    requires |st.stored| == |st.trail| && Fresh(st, q) && (q.DeriveSub? || q.DeriveReadonly? || q.DeriveMsg?)
    ensures Appends(d, st, Step(st, d, q).0)
  {
    hide IsActive, Register, Appends, Paths.SafeJoin;
    AppendsNothing(d, st, st);
    match q
    case DeriveSub(id, _, _, _) => RegisterAppends(st, st, d, id, "derive_sub");
    case DeriveReadonly(id, _) => RegisterAppends(st, st, d, id, "derive_readonly");
    case DeriveMsg(id, _, _, _) => RegisterAppends(st, st, d, id, "derive_message");
  }

  lemma {:induction false} LookAppends(st: State, d: Disk, q: Request)
    requires |st.stored| == |st.trail| && (q.MailboxRead? || q.ReadFile? || q.ListDir?)
    ensures Appends(d, st, Step(st, d, q).0)
  {
    hide IsActive, ReadInner, Paths.SafeJoin, Audit, Appends, RecordOk;
    AppendsNothing(d, st, st);
    match q
    case MailboxRead(r) => AppendsOne(d, st, st, "mailbox_read", r, "allow");
    case ReadFile(r, rel, data) => AppendsOne(d, st, st, "read", r, Word(ReadInner(st, r, rel, data).Some?));
    case ListDir(r, _, _) =>
      AppendsOne(d, st, st, "list", r, "allow");
      AppendsOne(d, st, st, "list", r, "deny");
  }

  lemma {:induction false} SettleAppends(st: State, d: Disk, q: Request)
    requires |st.stored| == |st.trail| && (q.TakeBootstrap? || q.Settle?)
    ensures Appends(d, st, Step(st, d, q).0)
  {
    hide Audit, Appends;
    match q
    case TakeBootstrap => AppendsNothing(d, st, st.(bootstrap := None));
    case Settle(id, approve, _, summary) =>
      AppendsNothing(d, st, st);
      AppendsOne(d, st, st, if approve then "consent.approve" else "consent.deny", id, Word(summary.Some?));
  }

  lemma {:induction false} RevokeAppends(st: State, d: Disk, r: Ref)
    requires |st.stored| == |st.trail|
    ensures Appends(d, st, RevokeOp(st, d, r).0)
  {
    hide SetRevoked;
  }

  lemma {:induction false} RevokeEachAppends(st: State, d: Disk, order: seq<Ref>)
    requires |st.stored| == |st.trail|
    ensures Appends(d, st, RevokeEach(st, d, order))
    decreases |order|
  {
    hide RevokeOp, Appends;
    if order == [] {
      AppendsNothing(d, st, st);
    } else {
      var s1 := RevokeOp(st, d, order[0]).0;
      RevokeAppends(st, d, order[0]);
      assert |s1.stored| == |s1.trail| by { EqualLengths(d, st, s1); }
      RevokeEachAppends(s1, d, order[1..]);
      AppendsOn(d, st, s1, RevokeEach(s1, d, order[1..]));
    }
  }

  lemma EqualLengths(d: Disk, a: State, b: State)
    requires Appends(d, a, b)
    ensures |b.stored| == |b.trail|
  {
  }

  lemma {:induction false} MitigationAppends(st: State, d: Disk, reduced: bool, order: seq<Ref>)
    requires |st.stored| == |st.trail|
    ensures Appends(d, st, SetMitigationOp(st, d, reduced, order).0)
  {
    hide RevokeEach, Audit, Appends;
    var s1 := st.(reduced := reduced);
    AppendsNothing(d, st, s1);
    RevokeEachAppends(s1, d, order);
    var s2 := if reduced then RevokeEach(s1, d, order) else s1;
    if reduced { AppendsOn(d, st, s1, s2); }
    AppendsThen(d, st, s2, s2, "mitigation", if reduced then "reduced" else "full", "allow");
  }

  lemma {:induction false} ExecAppends(st: State, d: Disk, r: Ref, output: Option<string>,
                                       ledger: Option<Consent.Outcome>)
    requires |st.stored| == |st.trail|
    ensures Appends(d, st, ExecOp(st, d, r, output, ledger).0)
  {
    hide Before, Audit, Appends, CanRun;
    BeforeAppends(st, d, "exec", Ran, r, ledger);
    var b := Before(st, d, "exec", Ran, r, ledger).0;
    var s1 := if CanRun(b, r) then Happened(b, Ran, r) else b;
    AppendsThen(d, st, b, s1, "exec.result", r, Word(CanRun(b, r) && output.Some?));
  }

  lemma {:induction false} FetchAppends(st: State, d: Disk, r: Ref, path: string, resolved: bool,
                                        response: Option<string>,
                                        ledger: Option<Consent.Outcome>)
    requires |st.stored| == |st.trail|
    ensures Appends(d, st, HttpGetOp(st, d, r, path, resolved, response, ledger).0)
  {
    hide Before, Audit, Appends, CanFetch;
    BeforeAppends(st, d, "http_get", Fetched, r, ledger);
    var b := Before(st, d, "http_get", Fetched, r, ledger).0;
    var sends := CanFetch(b, r, path, resolved);
    var s1 := if sends then Happened(b, Fetched, r) else b;
    AppendsThen(d, st, b, s1, "http.result", r, Word(sends && response.Some?));
  }

  lemma {:induction false} SendAppends(st: State, d: Disk, r: Ref, taint: Taint)
    requires |st.stored| == |st.trail|
    ensures Appends(d, st, SendOp(st, d, r, taint).0)
  {
    hide Audit, Appends, IsActive, RecordOk;
    AppendsOne(d, st, st, "send.intent", r, "attempt");
    var b := Audit(st, d, "send.intent", r, "attempt");
    var c := GetActive(b, r);
    var ok := c.Some? && c.value.kind == Sink && taint != Secret;
    AppendsThen(d, st, b, if ok then Happened(b, Sent, r) else b, "send.result", r, Word(ok));
  }

  /** Delivering changes no trail. */
  lemma DeliverSameTrail(st: State, r: Ref, subject: string, taint: Taint, body: string, literal: bool)
    ensures
      var res := Deliver(st, r, subject, taint, body, literal);
      res.Some? ==> SameTrail(st, res.value)
  {
    hide IsActive, SetRevoked;
  }

  lemma {:induction false} CloseAppends(st: State, b: State, d: Disk, res: Option<State>, r: Ref)
    requires Appends(d, st, b) && (res.Some? ==> SameTrail(b, res.value))
    ensures Appends(d, st, Close(b, d, res, r).0)
  {
    hide Audit, Appends;
    AppendsThen(d, st, b, if res.Some? then res.value else b, "post.result", r, Word(res.Some?));
  }

  lemma {:induction false} PostAppends(st: State, d: Disk, r: Ref, subject: string, body: string,
                                       ledger: Option<Consent.Outcome>)
    requires |st.stored| == |st.trail|
    ensures Appends(d, st, PostOp(st, d, r, subject, body, ledger).0)
  {
    hide Before, Close, Appends, Deliver, IsActive;
    BeforeAppends(st, d, "post", Posted, r, ledger);
    var b := Before(st, d, "post", Posted, r, ledger).0;
    var c := GetActive(b, r);
    var owner := c.Some? && c.value.msg.Some? && c.value.msg.value.canReceive;
    DeliverSameTrail(b, r, subject, Green, body, true);
    CloseAppends(st, b, d, if owner then Deliver(b, r, subject, Green, body, true) else None, r);
  }

  lemma {:induction false} PostFromAppends(st: State, d: Disk, q: Request)
    requires |st.stored| == |st.trail| && q.PostFrom?
    ensures Appends(d, st, PostFromOp(st, d, q.r, q.subject, q.src, q.rel, q.data, q.ledger).0)
  {
    hide Before, Close, Appends, Deliver, ReadInner;
    BeforeAppends(st, d, "post_from", Posted, q.r, q.ledger);
    var b := Before(st, d, "post_from", Posted, q.r, q.ledger).0;
    var got := ReadInner(b, q.src, q.rel, q.data);
    if got.Some? { DeliverSameTrail(b, q.r, q.subject, got.value.0, got.value.1, false); }
    var res := if got.Some? then Deliver(b, q.r, q.subject, got.value.0, got.value.1, false) else None;
    CloseAppends(st, b, d, res, q.r);
  }

  lemma {:induction false} ActAppends(st: State, d: Disk, q: Request)
    requires |st.stored| == |st.trail| && (q.Post? || q.PostFrom? || q.RunCommand? || q.Send? || q.HttpGet?)
    ensures Appends(d, st, Step(st, d, q).0)
  {
    hide Appends, PostOp, PostFromOp, ExecOp, SendOp, HttpGetOp;
    match q
    case Post(r, subject, body, ledger) => PostAppends(st, d, r, subject, body, ledger);
    case PostFrom(_, _, _, _, _, _) => PostFromAppends(st, d, q);
    case RunCommand(r, output, ledger) => ExecAppends(st, d, r, output, ledger);
    case Send(r, taint) => SendAppends(st, d, r, taint);
    case HttpGet(r, path, resolved, response, ledger) => FetchAppends(st, d, r, path, resolved, response, ledger);
  }

  /** Every step appends, and the new flags are what the disk said. */
  lemma {:induction false} StepAppends(st: State, d: Disk, q: Request)
    requires |st.stored| == |st.trail| && Fresh(st, q)
    ensures Appends(d, st, Step(st, d, q).0)
  {
    hide Appends;
    if q.SetMitigation? {
      hide SetMitigationOp;
      MitigationAppends(st, d, q.reduced, q.order);
    } else if q.SetBootstrap? {
      hide SetBootstrapOp;
      BootstrapAppends(st, d, q.id, q.workspace, q.openOk);
    } else if q.Revoke? {
      hide RevokeOp;
      RevokeAppends(st, d, q.r);
    } else {
      hide Step;
      if q.DeriveSub? || q.DeriveReadonly? || q.DeriveMsg? {
        DeriveAppends(st, d, q);
      } else if q.MailboxRead? || q.ReadFile? || q.ListDir? {
        LookAppends(st, d, q);
      } else if q.TakeBootstrap? || q.Settle? {
        SettleAppends(st, d, q);
      } else if q.Post? || q.PostFrom? || q.RunCommand? || q.Send? || q.HttpGet? {
        ActAppends(st, d, q);
      } else {
        MintAppends(st, d, q);
      }
    }
  }
}
