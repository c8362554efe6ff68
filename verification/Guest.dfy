/**
 What a guest can reach: every run of wire requests under the guest role, from a session whose
 bootstrap root is the workspace.
 */
module Guests {
  import opened Text
  import opened Registry
  import opened Broker
  import opened Wire
  import Paths
  import Consent
  import BrokerRuns

  // ---- what holds in every state of a guest session ----

  /** A read-only directory capability on the workspace or something below it. */
  ghost predicate Narrow(c: Cap, ws: string)
  {
    && c.kind == Dir && c.ops == [Op.Read, Op.List] && c.taint == Project && c.argv == []
    && c.http == None && c.msg == None && Paths.AtOrBelow(ws, c.root)
  }

  ghost predicate CapsConfined(caps: Caps, root: Ref, ws: string)
  {
    forall r :: r in caps ==> Descends(caps, r, root) && Narrow(caps[r], ws)
  }

  ghost predicate Confined(st: State, root: Ref, ws: string)
  {
    && CapsConfined(st.caps, root, ws)
    && (st.bootstrap.Some? ==> st.bootstrap.value == root)
    && st.mailboxes == map[] && st.deliveries == [] && st.effects == []
  }

  /** The requests a guest's words can turn into. */
  predicate GuestMay(q: Request)
  {
    || q.TakeBootstrap? || q.DeriveSub? || q.DeriveReadonly? || q.Revoke? || q.ReadFile? || q.ListDir? || Sensitive(q)
  }

  /** Of those, the ones that must never do anything. */
  predicate Sensitive(q: Request)
  {
    q.DeriveMsg? || q.Post? || q.PostFrom? || q.MailboxRead? || q.RunCommand? || q.Send? || q.HttpGet?
  }

  lemma {:induction false} GuestPlans(f: seq<string>, w: World)
    requires |f| >= 1
    ensures PlanOf(Guest, f, w).Ask? ==> GuestMay(PlanOf(Guest, f, w).q)
  {
    hide BodyOf, Split, ParseTaint, AtOr, PlanGrant, PlanConsent, IsGrant, IsConsent;
  }

  // ---- one step ----

  lemma {:induction false} InsertConfined(caps: Caps, id: Ref, c: Cap, root: Ref, ws: string)
    requires CapsConfined(caps, root, ws) && CanInsert(caps, id, c) && c.parent.Some? && Narrow(c, ws)
    ensures CapsConfined(Insert(caps, id, c), root, ws)
  {
    hide Paths.AtOrBelow, Descends;
    var after := Insert(caps, id, c);
    InsertExtends(caps, id, c);
    NewcomerDescends(caps, id, c, root);
    forall r | r in after ensures Descends(after, r, root) && Narrow(after[r], ws) {
      if r != id { DescentFixed(caps, after, r, root); }
    }
  }

  lemma {:induction false} RevokeConfined(caps: Caps, id: Ref, root: Ref, ws: string)
    requires CapsConfined(caps, root, ws) && id in caps
    ensures CapsConfined(SetRevoked(caps, id), root, ws)
  {
    hide Paths.AtOrBelow, Descends;
    var after := SetRevoked(caps, id);
    RevokeExtends(caps, id);
    forall r | r in after ensures Descends(after, r, root) && Narrow(after[r], ws) {
      DescentFixed(caps, after, r, root);
    }
  }

  /** Auditing touches nothing that confinement speaks of. */
  lemma {:induction false} AuditConfined(st: State, d: Disk, op: string, subject: string, decision: string, root: Ref,
                                         ws: string)
    ensures Confined(Audit(st, d, op, subject, decision), root, ws) <==> Confined(st, root, ws)
    ensures Audit(st, d, op, subject, decision).bootstrap == st.bootstrap
  {
    hide CapsConfined;
  }

  lemma {:induction false} DeriveConfined(st: State, d: Disk, q: Request, root: Ref, ws: string)
    requires Confined(st, root, ws) && Fresh(st, q) && (q.DeriveSub? || q.DeriveReadonly?)
    ensures Confined(Step(st, d, q).0, root, ws) && Step(st, d, q).0.bootstrap == st.bootstrap
  {
    hide Paths.AtOrBelow, Paths.SafeJoin, Descends, IsActive, Audit;
    match q
    case DeriveSub(id, r, seg, openOk) =>
      var c := GetActive(st, r);
      if c.Some? && c.value.kind == Dir && c.value.anchored && openOk && Paths.SafeJoin(c.value.root, seg).Some? {
        Paths.JoinStaysBelow(ws, c.value.root, seg);
        var n := BlankCap(Dir).(root := Paths.SafeJoin(c.value.root, seg).value, ops := c.value.ops,
                                taint := c.value.taint, anchored := true, parent := Some(r));
        InsertConfined(st.caps, id, n, root, ws);
        AuditConfined(st.(caps := Insert(st.caps, id, n)), d, "derive_sub", id, "allow", root, ws);
      }
    case DeriveReadonly(id, r) =>
      var c := GetActive(st, r);
      if c.Some? {
        var n := BlankCap(c.value.kind).(root := c.value.root, ops := [Op.Read, Op.List], taint := c.value.taint,
                                         anchored := c.value.anchored, parent := Some(r));
        InsertConfined(st.caps, id, n, root, ws);
        AuditConfined(st.(caps := Insert(st.caps, id, n)), d, "derive_readonly", id, "allow", root, ws);
      }
  }

  lemma {:induction false} LookConfined(st: State, d: Disk, q: Request, root: Ref, ws: string)
    requires Confined(st, root, ws) && Fresh(st, q) && (q.ReadFile? || q.ListDir? || q.Revoke?)
    ensures Confined(Step(st, d, q).0, root, ws) && Step(st, d, q).0.bootstrap == st.bootstrap
  {
    hide CapsConfined, Paths.SafeJoin, Paths.IsSecretPath, IsActive, Audit;
    match q
    case ReadFile(r, rel, data) => AuditConfined(st, d, "read", r, Word(ReadInner(st, r, rel, data).Some?), root, ws);
    case ListDir(r, rel, names) =>
      AuditConfined(st, d, "list", r, "allow", root, ws);
      AuditConfined(st, d, "list", r, "deny", root, ws);
    case Revoke(r) =>
      AuditConfined(st, d, "revoke", r, "deny", root, ws);
      if r in st.caps {
        RevokeConfined(st.caps, r, root, ws);
        AuditConfined(st.(caps := SetRevoked(st.caps, r)), d, "revoke", r, "allow", root, ws);
      }
  }

  /** Nothing came of it: same authority, no effect, and a refusal or a consent request. */
  ghost predicate Refused(st: State, r: (State, Reply))
  {
    && (r.1 == Fail || r.1.NeedsConsent?)
    && r.0.caps == st.caps && r.0.bootstrap == st.bootstrap && r.0.effects == st.effects
    && r.0.mailboxes == st.mailboxes && r.0.deliveries == st.deliveries
  }

  lemma AuditRefused(st: State, d: Disk, op: string, subject: string, decision: string)
    ensures Refused(st, (Audit(st, d, op, subject, decision), Fail))
  {
  }

  lemma {:induction false} BeforeRefused(st: State, d: Disk, verb: string, k: EffectKind, r: Ref,
                                         ledger: Option<Consent.Outcome>)
    ensures
      var b := Before(st, d, verb, k, r, ledger);
      Refused(st, (b.0, if b.1.Some? then b.1.value else Fail))
  {
    hide Audit, Decide, IntentOp, RecordOk;
    AuditRefused(st, d, "policy.deny", r, "deny");
    AuditRefused(st, d, "policy.consent", r, "approved");
    AuditRefused(st, d, "policy.consent", r, "denied");
    AuditRefused(st, d, "policy.consent", r, "pending");
    AuditRefused(Gate(st, d, verb, r, ledger).0, d, IntentOp(k), r, "attempt");
  }

  /** No capability of a confined session runs, sends, fetches or carries a message. */
  lemma {:induction false} NoPower(st: State, root: Ref, ws: string, r: Ref)
    requires CapsConfined(st.caps, root, ws)
    ensures GetActive(st, r).Some? ==>
      var c := GetActive(st, r).value;
      c.kind == Dir && Exec !in c.ops && c.http == None && c.msg == None
  {
    hide Descends, IsActive, Paths.AtOrBelow;
  }

  lemma {:induction false} PostRefused(st: State, d: Disk, q: Request, root: Ref, ws: string)
    requires CapsConfined(st.caps, root, ws) && (q.Post? || q.PostFrom?)
    ensures Refused(st, Step(st, d, q))
  {
    hide CapsConfined, Audit, Before, Gate, IsActive, ReadInner;
    match q
    case Post(r, _, _, ledger) =>
      BeforeRefused(st, d, "post", Posted, r, ledger);
      AfterIntent(st, Before(st, d, "post", Posted, r, ledger).0, d, "post.result", r, root, ws);
    case PostFrom(r, _, _, _, _, ledger) =>
      BeforeRefused(st, d, "post_from", Posted, r, ledger);
      AfterIntent(st, Before(st, d, "post_from", Posted, r, ledger).0, d, "post.result", r, root, ws);
  }

  lemma {:induction false} SensitiveRefused(st: State, d: Disk, q: Request, root: Ref, ws: string)
    requires Confined(st, root, ws) && Fresh(st, q) && Sensitive(q)
    ensures Refused(st, Step(st, d, q))
  {
    hide CapsConfined, Audit, Before, Gate, IsActive, HttpAllowed, PostOp, PostFromOp;
    match q
    case DeriveMsg(_, r, _, _) => NoPower(st, root, ws, r);
    case MailboxRead(r) => NoPower(st, root, ws, r);
    case Send(r, _) =>
      AuditRefused(st, d, "send.intent", r, "attempt");
      AfterIntent(st, Audit(st, d, "send.intent", r, "attempt"), d, "send.result", r, root, ws);
    case RunCommand(r, _, ledger) =>
      BeforeRefused(st, d, "exec", Ran, r, ledger);
      AfterIntent(st, Before(st, d, "exec", Ran, r, ledger).0, d, "exec.result", r, root, ws);
    case HttpGet(r, _, _, _, ledger) =>
      BeforeRefused(st, d, "http_get", Fetched, r, ledger);
      AfterIntent(st, Before(st, d, "http_get", Fetched, r, ledger).0, d, "http.result", r, root, ws);
    case Post(_, _, _, _) => PostRefused(st, d, q, root, ws);
    case PostFrom(_, _, _, _, _, _) => PostRefused(st, d, q, root, ws);
  }

  lemma {:induction false} AfterIntent(st: State, s1: State, d: Disk, op: string, r: Ref, root: Ref, ws: string)
    requires CapsConfined(st.caps, root, ws) && Refused(st, (s1, Fail))
    ensures Refused(st, (Audit(s1, d, op, r, "deny"), Fail))
    ensures GetActive(s1, r).Some? ==>
      var c := GetActive(s1, r).value;
      c.kind == Dir && Exec !in c.ops && c.http == None && c.msg == None
  {
    hide CapsConfined, IsActive;
    AuditRefused(s1, d, op, r, "deny");
    NoPower(s1, root, ws, r);
  }

  lemma {:induction false} StepConfined(st: State, d: Disk, q: Request, root: Ref, ws: string)
    requires Confined(st, root, ws) && Fresh(st, q) && GuestMay(q)
    ensures Confined(Step(st, d, q).0, root, ws)
    ensures Sensitive(q) ==> Refused(st, Step(st, d, q))
    ensures Step(st, d, q).0.bootstrap == if q.TakeBootstrap? then None else st.bootstrap
    ensures q.TakeBootstrap? ==>
      Step(st, d, q).1 == if st.bootstrap.Some? then CapIs(root) else Fail
  {
    hide CapsConfined, Fresh;
    if q.TakeBootstrap? {
      TakenConfined(st, d, root, ws);
    } else {
      hide Step;
      if q.DeriveSub? || q.DeriveReadonly? { DeriveConfined(st, d, q, root, ws); }
      else if Sensitive(q) { SensitiveRefused(st, d, q, root, ws); }
      else { LookConfined(st, d, q, root, ws); }
    }
  }

  lemma TakenConfined(st: State, d: Disk, root: Ref, ws: string)
    requires Confined(st, root, ws)
    ensures Confined(Step(st, d, TakeBootstrap).0, root, ws) && Step(st, d, TakeBootstrap).0.bootstrap == None
    ensures Step(st, d, TakeBootstrap).1 == if st.bootstrap.Some? then CapIs(root) else Fail
  {
    hide CapsConfined;
  }

  // ---- one request ----

  lemma AnswerKeepsKind(st: State, q: Request, a: Answer)
    requires Fresh(st, q)
    ensures Fresh(st, WithAnswer(q, a))
    ensures GuestMay(q) <==> GuestMay(WithAnswer(q, a))
    ensures Sensitive(q) <==> Sensitive(WithAnswer(q, a))
    ensures q.TakeBootstrap? <==> WithAnswer(q, a).TakeBootstrap?
  {
  }

  /** Words that must never get a guest anything. */
  predicate Forbidden(f: seq<string>)
    requires |f| >= 1
  {
    || IsGrant(f[0]) || IsConsent(f[0])
    || (|f| >= 3 && f[0] == "DERIVE" && (f[2] == "msg_prefix" || f[2] == "msg_oneshot"))
    || (|f| >= 3 && f[0] == "INVOKE" && (f[2] == "exec" || f[2] == "send" || f[2] == "http_get" || f[2] == "post"
                                        || f[2] == "post_from" || f[2] == "mailbox_read"))
  }

  lemma {:induction false} ForbiddenPlans(f: seq<string>, w: World)
    requires |f| >= 1 && Forbidden(f)
    ensures PlanOf(Guest, f, w) == Refuse || (PlanOf(Guest, f, w).Ask? && Sensitive(PlanOf(Guest, f, w).q))
  {
    hide BodyOf, Split, ParseTaint, AtOr, PlanGrant, PlanConsent;
  }

  lemma {:induction false} BootstrapPlans(f: seq<string>, w: World)
    requires |f| >= 1
    ensures f[0] == "BOOTSTRAP" <==> PlanOf(Guest, f, w) == Ask(TakeBootstrap)
  {
    hide BodyOf, Split, ParseTaint, AtOr, PlanGrant, PlanConsent, IsGrant, IsConsent;
  }

  datatype Call = Call(body: string, w: World, a: Answer)

  function Words(c: Call): (f: seq<string>)
    ensures |f| >= 1
  {
    Split(c.body, '\t')
  }

  lemma {:induction false} CallConfined(st: State, d: Disk, c: Call, root: Ref, ws: string)
    requires Confined(st, root, ws) && NewNames(st, c.w)
    ensures
      var (after, frame) := Handled(st, d, Guest, c.body, c.w, c.a);
      && Confined(after, root, ws)
      && (Forbidden(Words(c)) ==> (frame == ErrFrame || frame.ConsentFrame?) && after.caps == st.caps)
      && after.bootstrap == (if Words(c)[0] == "BOOTSTRAP" then None else st.bootstrap)
      && (Words(c)[0] == "BOOTSTRAP" ==> frame == if st.bootstrap.Some? then CapFrame(root) else ErrFrame)
  {
    hide PlanOf, Step, Confined, Forbidden, GuestMay, Sensitive, Fresh, WithAnswer;
    var f := Words(c);
    var p := PlanOf(Guest, f, c.w);
    PlansAreFresh(st, Guest, f, c.w);
    GuestPlans(f, c.w);
    BootstrapPlans(f, c.w);
    if Forbidden(f) { ForbiddenPlans(f, c.w); }
    if p.Ask? {
      AnswerKeepsKind(st, p.q, c.a);
      StepConfined(st, d, WithAnswer(p.q, c.a), root, ws);
    }
  }

  // ---- whole runs ----

  /** A guest connection: a new session, its bootstrap root on the workspace, then any requests. */
  datatype GuestRun = GuestRun(key: string, hasSink: bool, l5: Engine, openOk: bool, root: Ref, ws: string,
                               states: seq<State>, calls: seq<Call>, frames: seq<Frame>)

  ghost predicate ValidGuestRun(run: GuestRun, d: Disk)
  {
    && |run.states| == |run.calls| + 1 && |run.frames| == |run.calls|
    && run.states[0] == SetBootstrapOp(NewSession(run.key, run.hasSink, run.l5), d, run.root, run.ws, run.openOk).0
    && forall i :: 0 <= i < |run.calls| ==>
         NewNames(run.states[i], run.calls[i].w)
         && Handled(run.states[i], d, Guest, run.calls[i].body, run.calls[i].w, run.calls[i].a)
            == (run.states[i + 1], run.frames[i])
  }

  lemma {:induction false} RunStep(run: GuestRun, d: Disk, i: nat)
    requires ValidGuestRun(run, d) && i < |run.calls|
    ensures NewNames(run.states[i], run.calls[i].w)
    ensures Handled(run.states[i], d, Guest, run.calls[i].body, run.calls[i].w, run.calls[i].a)
         == (run.states[i + 1], run.frames[i])
  {
    hide Handled, SetBootstrapOp, NewSession, NewNames;
  }

  lemma {:induction false} StartConfined(key: string, hasSink: bool, l5: Engine, d: Disk, root: Ref, ws: string,
                                         openOk: bool)
    ensures Confined(SetBootstrapOp(NewSession(key, hasSink, l5), d, root, ws, openOk).0, root, ws)
  {
    hide Paths.AtOrBelow;
    Paths.TopIsBelowItself(ws);
  }

  /**
   Guest confinement: in every state of every guest run each capability descends from the bootstrap
   root, is a directory with exactly Read and List, and lies lexically at or below the workspace;
   nothing has ever left the session.
   */
  lemma {:induction false} GuestConfinement(run: GuestRun, d: Disk, n: nat)
    requires ValidGuestRun(run, d) && n <= |run.calls|
    ensures Confined(run.states[n], run.root, run.ws)
  {
    hide Confined, Handled, SetBootstrapOp, NewSession, Forbidden, NewNames;
    if n == 0 {
      StartConfined(run.key, run.hasSink, run.l5, d, run.root, run.ws, run.openOk);
    } else {
      GuestConfinement(run, d, n - 1);
      RunStep(run, d, n - 1);
      CallConfined(run.states[n - 1], d, run.calls[n - 1], run.root, run.ws);
    }
  }

  /** Granting, consent, exec, send, http and mailbox requests never get a guest an OK or a capability. */
  lemma {:induction false} ForbiddenNeverAnswered(run: GuestRun, d: Disk, n: nat)
    requires ValidGuestRun(run, d) && n < |run.calls| && Forbidden(Words(run.calls[n]))
    ensures run.frames[n] == ErrFrame || run.frames[n].ConsentFrame?
    ensures run.states[n + 1].caps == run.states[n].caps && run.states[n + 1].effects == []
  {
    hide Handled, SetBootstrapOp, NewSession, Forbidden, CapsConfined, NewNames;
    GuestConfinement(run, d, n);
    GuestConfinement(run, d, n + 1);
    RunStep(run, d, n);
    CallConfined(run.states[n], d, run.calls[n], run.root, run.ws);
  }

  predicate IsBootstrap(c: Call) { Words(c)[0] == "BOOTSTRAP" }

  lemma {:induction false} BootstrapGone(run: GuestRun, d: Disk, m: nat, n: nat)
    requires ValidGuestRun(run, d) && m < n <= |run.calls| && IsBootstrap(run.calls[m])
    ensures run.states[n].bootstrap == None
    decreases n
  {
    hide Handled, SetBootstrapOp, NewSession, Forbidden, CapsConfined, NewNames;
    GuestConfinement(run, d, n - 1);
    RunStep(run, d, n - 1);
    CallConfined(run.states[n - 1], d, run.calls[n - 1], run.root, run.ws);
    if n > m + 1 { BootstrapGone(run, d, m, n - 1); }
  }

  /** `BOOTSTRAP` succeeds at most once, the first time it is asked, and then gives the root. */
  lemma {:induction false} BootstrapOnce(run: GuestRun, d: Disk, n: nat)
    requires ValidGuestRun(run, d) && n < |run.calls| && IsBootstrap(run.calls[n])
    ensures run.frames[n] == CapFrame(run.root) <==>
      run.openOk && forall m :: 0 <= m < n ==> !IsBootstrap(run.calls[m])
    ensures run.frames[n] == CapFrame(run.root) || run.frames[n] == ErrFrame
  {
    hide Handled, SetBootstrapOp, NewSession, Forbidden, Confined, NewNames, Words;
    GuestConfinement(run, d, n);
    RunStep(run, d, n);
    CallConfined(run.states[n], d, run.calls[n], run.root, run.ws);
    if m :| 0 <= m < n && IsBootstrap(run.calls[m]) {
      BootstrapGone(run, d, m, n);
    } else {
      BootstrapWaits(run, d, n);
    }
  }

  lemma {:induction false} BootstrapWaits(run: GuestRun, d: Disk, n: nat)
    requires ValidGuestRun(run, d) && n <= |run.calls| && forall m :: 0 <= m < n ==> !IsBootstrap(run.calls[m])
    ensures run.states[n].bootstrap.Some? <==> run.openOk
  {
    hide Handled, Forbidden, Confined, NewNames, Words;
    if n > 0 {
      hide SetBootstrapOp, NewSession;
      GuestConfinement(run, d, n - 1);
      RunStep(run, d, n - 1);
      CallConfined(run.states[n - 1], d, run.calls[n - 1], run.root, run.ws);
      BootstrapWaits(run, d, n - 1);
    }
  }

  // ---- what a guest's read reaches ----

  ghost predicate ReadsBelow(st: State, f: seq<string>, ws: string)
  {
    && |f| >= 3 && f[1] in st.caps && IsActive(st.caps, f[1])
    && var path := Paths.SafeJoin(st.caps[f[1]].root, AtOr(f, 3, ""));
      path.Some? && Paths.AtOrBelow(ws, path.value)
  }

  /** Every file or listing a guest is answered with lies at or below the workspace. */
  lemma {:induction false} GuestReadsBelowWorkspace(run: GuestRun, d: Disk, n: nat)
    requires ValidGuestRun(run, d) && n < |run.calls|
    requires Words(run.calls[n])[0] == "INVOKE" && run.frames[n].OkFrame?
    ensures ReadsBelow(run.states[n], Words(run.calls[n]), run.ws)
  {
    hide SetBootstrapOp, NewSession, Confined, Handled;
    GuestConfinement(run, d, n);
    var st, c := run.states[n], run.calls[n];
    RunStep(run, d, n);
    ReadReached(st, d, c, run.root, run.ws);
  }

  lemma {:induction false} InvokePlans(f: seq<string>, w: World)
    requires |f| >= 1 && f[0] == "INVOKE" && !Forbidden(f)
    ensures
      var p := PlanOf(Guest, f, w);
      || p == Refuse
      || (|f| >= 3 && p == Ask(ReadFile(f[1], AtOr(f, 3, ""), w.data)))
      || (|f| >= 3 && p == Ask(ListDir(f[1], AtOr(f, 3, ""), w.data)))
  {
    hide BodyOf, Split, ParseTaint, AtOr;
  }

  lemma {:induction false} ReadReached(st: State, d: Disk, c: Call, root: Ref, ws: string)
    requires Confined(st, root, ws) && NewNames(st, c.w)
    ensures Words(c)[0] == "INVOKE" && Handled(st, d, Guest, c.body, c.w, c.a).1.OkFrame? ==>
      ReadsBelow(st, Words(c), ws)
  {
    hide Step, PlanOf, Forbidden, NewNames, Paths.AtOrBelow, Paths.SafeJoin, IsActive, Descends;
    var f := Words(c);
    CallConfined(st, d, c, root, ws);
    if f[0] == "INVOKE" && Handled(st, d, Guest, c.body, c.w, c.a).1.OkFrame? {
      InvokePlans(f, c.w);
      var r, rel := f[1], AtOr(f, 3, "");
      LookReply(st, d, r, rel, c.w.data);
      Paths.JoinStaysBelow(ws, st.caps[r].root, rel);
    }
  }

  lemma {:induction false} LookReply(st: State, d: Disk, r: Ref, rel: string, data: Option<string>)
    ensures Step(st, d, ReadFile(r, rel, data)).1 != Fail || Step(st, d, ListDir(r, rel, data)).1 != Fail ==>
      r in st.caps && IsActive(st.caps, r) && Paths.SafeJoin(st.caps[r].root, rel).Some?
  {
    hide IsActive, Paths.SafeJoin, Paths.IsSecretPath, Audit;
  }

  /** A guest session is a session: everything proved of every run of the broker's own steps covers it. */
  lemma {:induction false} GuestStatesAreSound(run: GuestRun, d: Disk, n: nat)
    requires ValidGuestRun(run, d) && n <= |run.calls|
    ensures BrokerRuns.Inv(run.states[n])
  {
    hide BrokerRuns.Inv, Handled, SetBootstrapOp, NewSession, NewNames;
    if n == 0 {
      StartSound(run.key, run.hasSink, run.l5, d, run.root, run.ws, run.openOk);
    } else {
      GuestStatesAreSound(run, d, n - 1);
      var st, c := run.states[n - 1], run.calls[n - 1];
      RunStep(run, d, n - 1);
      HandledIsAStep(st, d, c);
    }
  }

  lemma {:induction false} HandledIsAStep(st: State, d: Disk, c: Call)
    requires BrokerRuns.Inv(st) && NewNames(st, c.w)
    ensures BrokerRuns.Inv(Handled(st, d, Guest, c.body, c.w, c.a).0)
  {
    hide BrokerRuns.Inv, PlanOf, Step, Fresh, WithAnswer;
    PlansAreFresh(st, Guest, Words(c), c.w);
    var p := PlanOf(Guest, Words(c), c.w);
    if p.Ask? {
      AnswerKeepsKind(st, p.q, c.a);
      BrokerRuns.StepKeeps(st, d, WithAnswer(p.q, c.a));
    }
  }

  lemma {:induction false} StartSound(key: string, hasSink: bool, l5: Engine, d: Disk, root: Ref, ws: string,
                                      openOk: bool)
    ensures BrokerRuns.Inv(SetBootstrapOp(NewSession(key, hasSink, l5), d, root, ws, openOk).0)
  {
    hide SetBootstrapOp, BrokerRuns.Core, BrokerRuns.HttpInv;
    var st := NewSession(key, hasSink, l5);
    NewIsSound(key, hasSink, l5);
    BrokerRuns.StepKeeps(st, d, SetBootstrap(root, ws, openOk));
  }

  lemma NewIsSound(key: string, hasSink: bool, l5: Engine)
    ensures BrokerRuns.Inv(NewSession(key, hasSink, l5))
  {
  }
}
