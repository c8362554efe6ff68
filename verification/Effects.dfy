/**
 No effect without authority: whatever ever left a session left through a request that named an
 active capability of the right kind, past the policy and, where it prompts, past a granted consent.
 */
module Effects {
  import opened Text
  import opened Registry
  import opened Broker
  import opened BrokerRuns
  import opened BrokerTheorems
  import Consent
  import Paths
  import Target
  import Glob

  /** The policy lets the verb through, or it prompts and the ledger has granted this very attempt. */
  predicate Cleared(l5: Engine, verb: string, ledger: Option<Consent.Outcome>)
  {
    Decide(l5, verb) != Deny && (Decide(l5, verb) == Prompt ==> ledger == Some(Consent.Granted))
  }

  predicate Granted(ledger: Option<Consent.Outcome>) { ledger == Some(Consent.Granted) }

  /** The allowlist, spelled out: GET over http, and a pattern that matches the canonical path. */
  ghost predicate OnAllowlist(spec: HttpSpec, path: string)
  {
    && "GET" in spec.methods && spec.scheme == "http" && Target.Canonical(path).Some?
    && exists p :: p in spec.paths && Glob.PathMatches(p, Target.PathOf(Target.Canonical(path).value))
  }

  lemma {:induction false} AllowedIsOnAllowlist(spec: HttpSpec, path: string)
    ensures HttpAllowed(spec, path) <==> OnAllowlist(spec, path)
  {
    hide Target.Canonical, Glob.PathMatches, Target.PathOf;
    if OnAllowlist(spec, path) {
      var p :| p in spec.paths && Glob.PathMatches(p, Target.PathOf(Target.Canonical(path).value));
      var k :| 0 <= k < |spec.paths| && spec.paths[k] == p;
    }
  }

  /** What stands behind an effect of request `q` in state `st`, flag by flag. */
  ghost predicate Authorised(st: State, q: Request, e: Effect)
  {
    && !st.broken && IsActive(st.caps, e.r)
    && match e.kind
      case Ran =>
        && q.RunCommand? && q.r == e.r && !st.l5.denyExec && (st.l5.promptExec ==> Granted(q.ledger))
        && Exec in st.caps[e.r].ops && st.caps[e.r].argv != []
      case Sent => q.Send? && q.r == e.r && st.caps[e.r].kind == Sink && q.taint != Secret
      case Fetched =>
        && q.HttpGet? && q.r == e.r && (st.l5.promptHttp ==> Granted(q.ledger))
        && st.caps[e.r].http.Some? && OnAllowlist(st.caps[e.r].http.value, q.path)
      case Posted =>
        && (q.Post? || q.PostFrom?) && q.r == e.r && (st.l5.promptPost ==> Granted(q.ledger))
        && st.caps[e.r].msg.Some?
  }

  /** A step adds no effect, or one that is authorised. */
  ghost predicate AddsAuthorised(st: State, q: Request, after: State)
  {
    after.effects == st.effects || exists e :: after.effects == st.effects + [e] && Authorised(st, q, e)
  }

  // ---- one step ----

  lemma {:induction false} GateClears(st: State, d: Disk, verb: string, r: Ref, ledger: Option<Consent.Outcome>)
    ensures
      var b := Gate(st, d, verb, r, ledger);
      && b.0.caps == st.caps && b.0.effects == st.effects && (st.broken ==> b.0.broken)
      && (b.1 == None ==> Cleared(st.l5, verb, ledger))
  {
    hide Audit, Decide;
    AuditLeaves(st, d, "policy.deny", r, "deny");
    AuditLeaves(st, d, "policy.consent", r, "approved");
    AuditLeaves(st, d, "policy.consent", r, "denied");
    AuditLeaves(st, d, "policy.consent", r, "pending");
  }

  /** Past the gate and the intent nothing has happened yet, and the verb is cleared. */
  lemma {:induction false} BeforeClears(st: State, d: Disk, verb: string, k: EffectKind, r: Ref,
                                        ledger: Option<Consent.Outcome>)
    ensures
      var b := Before(st, d, verb, k, r, ledger);
      && b.0.caps == st.caps && b.0.effects == st.effects && (st.broken ==> b.0.broken)
      && (b.1 == None ==> Cleared(st.l5, verb, ledger))
  {
    hide Audit, Gate, Cleared, IntentOp, RecordOk;
    GateClears(st, d, verb, r, ledger);
    AuditLeaves(Gate(st, d, verb, r, ledger).0, d, IntentOp(k), r, "attempt");
  }

  lemma {:induction false} Finished(st: State, s1: State, q: Request, k: EffectKind, r: Ref, d: Disk, op: string,
                                    word: string)
    requires s1.effects == st.effects && forall at :: Authorised(st, q, Effect(k, r, at))
    ensures AddsAuthorised(st, q, Audit(Happened(s1, k, r), d, op, r, word))
  {
    hide Audit, Authorised;
    AuditLeaves(Happened(s1, k, r), d, op, r, word);
    assert Authorised(st, q, Effect(k, r, |s1.trail|));
  }

  lemma {:induction false} ExecAuthorised(st: State, d: Disk, q: Request)
    requires q.RunCommand?
    ensures AddsAuthorised(st, q, ExecOp(st, d, q.r, q.output, q.ledger).0)
  {
    hide Before, Decide, IsActive, Audit, RecordOk, AddsAuthorised;
    PolicyIsFlags(st.l5);
    BeforeClears(st, d, "exec", Ran, q.r, q.ledger);
    var b := Before(st, d, "exec", Ran, q.r, q.ledger);
    var word := Word(CanRun(b.0, q.r) && q.output.Some?);
    if b.1 == None && CanRun(b.0, q.r) {
      Finished(st, b.0, q, Ran, q.r, d, "exec.result", word);
    } else {
      AuditLeaves(b.0, d, "exec.result", q.r, word);
      NothingAdded(st, q, b.0);
      NothingAdded(st, q, Audit(b.0, d, "exec.result", q.r, word));
    }
  }

  lemma NothingAdded(st: State, q: Request, after: State)
    ensures after.effects == st.effects ==> AddsAuthorised(st, q, after)
  {
  }

  lemma {:induction false} FetchAuthorised(st: State, d: Disk, q: Request)
    requires q.HttpGet?
    ensures AddsAuthorised(st, q, HttpGetOp(st, d, q.r, q.path, q.resolved, q.response, q.ledger).0)
  {
    hide Before, Decide, IsActive, Audit, RecordOk, AddsAuthorised, HttpAllowed, OnAllowlist;
    PolicyIsFlags(st.l5);
    BeforeClears(st, d, "http_get", Fetched, q.r, q.ledger);
    var b := Before(st, d, "http_get", Fetched, q.r, q.ledger);
    var word := Word(CanFetch(b.0, q.r, q.path, q.resolved) && q.response.Some?);
    if q.r in b.0.caps && b.0.caps[q.r].http.Some? { AllowedIsOnAllowlist(b.0.caps[q.r].http.value, q.path); }
    if b.1 == None && CanFetch(b.0, q.r, q.path, q.resolved) {
      Finished(st, b.0, q, Fetched, q.r, d, "http.result", word);
    } else {
      AuditLeaves(b.0, d, "http.result", q.r, word);
      NothingAdded(st, q, b.0);
      NothingAdded(st, q, Audit(b.0, d, "http.result", q.r, word));
    }
  }

  lemma {:induction false} SendAuthorised(st: State, d: Disk, q: Request)
    requires q.Send?
    ensures AddsAuthorised(st, q, SendOp(st, d, q.r, q.taint).0)
  {
    hide IsActive, Audit, RecordOk, AddsAuthorised;
    AuditLeaves(st, d, "send.intent", q.r, "attempt");
    var s1 := Audit(st, d, "send.intent", q.r, "attempt");
    var c := GetActive(s1, q.r);
    var ok := c.Some? && c.value.kind == Sink && q.taint != Secret;
    if ok {
      Finished(st, s1, q, Sent, q.r, d, "send.result", "allow");
    } else {
      AuditLeaves(s1, d, "send.result", q.r, "deny");
    }
    NothingAdded(st, q, s1);
    NothingAdded(st, q, Audit(s1, d, "send.result", q.r, "deny"));
  }

  /** Delivery through an active facet, then the closing event. */
  lemma {:induction false} CloseAuthorised(st: State, s1: State, d: Disk, q: Request, r: Ref, res: Option<State>)
    requires s1.effects == st.effects
    requires res.Some? ==> res.value.effects == st.effects + [Effect(Posted, r, |s1.trail|)]
    requires res.Some? ==> forall at :: Authorised(st, q, Effect(Posted, r, at))
    ensures AddsAuthorised(st, q, Close(s1, d, res, r).0)
  {
    hide Audit, Authorised;
    AuditLeaves(if res.Some? then res.value else s1, d, "post.result", r, Word(res.Some?));
    if res.Some? { assert Authorised(st, q, Effect(Posted, r, |s1.trail|)); }
  }

  lemma {:induction false} DeliverAuthorised(st: State, r: Ref, subject: string, taint: Taint, body: string,
                                             literal: bool)
    ensures
      var res := Deliver(st, r, subject, taint, body, literal);
      res.Some? ==>
        && !st.broken && IsActive(st.caps, r) && st.caps[r].msg.Some?
        && res.value.effects == st.effects + [Effect(Posted, r, |st.trail|)]
  {
    hide IsActive;
  }

  lemma {:induction false} PostAuthorised(st: State, d: Disk, q: Request)
    requires q.Post?
    ensures AddsAuthorised(st, q, PostOp(st, d, q.r, q.subject, q.body, q.ledger).0)
  {
    hide Before, Decide, IsActive, Audit, RecordOk, AddsAuthorised, Deliver, Close;
    PolicyIsFlags(st.l5);
    BeforeClears(st, d, "post", Posted, q.r, q.ledger);
    var b := Before(st, d, "post", Posted, q.r, q.ledger);
    NothingAdded(st, q, b.0);
    var c := GetActive(b.0, q.r);
    var owner := c.Some? && c.value.msg.Some? && c.value.msg.value.canReceive;
    var res := if owner then Deliver(b.0, q.r, q.subject, Green, q.body, true) else None;
    DeliverAuthorised(b.0, q.r, q.subject, Green, q.body, true);
    if b.1 == None { CloseAuthorised(st, b.0, d, q, q.r, res); }
  }

  lemma {:induction false} PostFromAuthorised(st: State, d: Disk, q: Request)
    requires q.PostFrom?
    ensures AddsAuthorised(st, q, PostFromOp(st, d, q.r, q.subject, q.src, q.rel, q.data, q.ledger).0)
  {
    hide Before, Decide, IsActive, Audit, RecordOk, AddsAuthorised, Deliver, Close, ReadInner;
    PolicyIsFlags(st.l5);
    BeforeClears(st, d, "post_from", Posted, q.r, q.ledger);
    var b := Before(st, d, "post_from", Posted, q.r, q.ledger);
    NothingAdded(st, q, b.0);
    var got := ReadInner(b.0, q.src, q.rel, q.data);
    var res := if got.Some? then Deliver(b.0, q.r, q.subject, got.value.0, got.value.1, false) else None;
    if got.Some? { DeliverAuthorised(b.0, q.r, q.subject, got.value.0, got.value.1, false); }
    if b.1 == None { CloseAuthorised(st, b.0, d, q, q.r, res); }
  }

  predicate Acts(q: Request) { q.Post? || q.PostFrom? || q.RunCommand? || q.Send? || q.HttpGet? }

  lemma {:induction false} MintIsQuiet(st: State, d: Disk, q: Request)
    requires Fresh(st, q)
    requires q.GrantDir? || q.GrantSink? || q.GrantMessage? || q.GrantCommand? || q.GrantHttp? || q.SetBootstrap?
    ensures Step(st, d, q).0.effects == st.effects
  {
    hide IsActive, Insert;
  }

  lemma {:induction false} DeriveIsQuiet(st: State, d: Disk, q: Request)
    requires Fresh(st, q) && (q.DeriveSub? || q.DeriveReadonly? || q.DeriveMsg?)
    ensures Step(st, d, q).0.effects == st.effects
  {
    hide IsActive, Insert, Paths.SafeJoin;
  }

  lemma {:induction false} LookIsQuiet(st: State, d: Disk, q: Request)
    requires Fresh(st, q) && (q.MailboxRead? || q.ReadFile? || q.ListDir? || q.Revoke? || q.TakeBootstrap? || q.Settle?)
    ensures Step(st, d, q).0.effects == st.effects
  {
    hide IsActive, ReadInner, Paths.SafeJoin, SetRevoked;
  }

  lemma {:induction false} DowngradeIsQuiet(st: State, d: Disk, order: seq<Ref>)
    ensures RevokeEach(st, d, order).effects == st.effects
    decreases |order|
  {
    hide SetRevoked;
    if order != [] { DowngradeIsQuiet(RevokeOp(st, d, order[0]).0, d, order[1..]); }
  }

  lemma {:induction false} MitigationIsQuiet(st: State, d: Disk, reduced: bool, order: seq<Ref>)
    ensures SetMitigationOp(st, d, reduced, order).0.effects == st.effects
  {
    hide RevokeEach;
    DowngradeIsQuiet(st.(reduced := reduced), d, order);
  }

  lemma {:induction false} StepAuthorised(st: State, d: Disk, q: Request)
    requires Fresh(st, q)
    ensures AddsAuthorised(st, q, Step(st, d, q).0)
  {
    hide AddsAuthorised, PostOp, PostFromOp, ExecOp, SendOp, HttpGetOp, SetMitigationOp;
    match q
    case Post(_, _, _, _) => PostAuthorised(st, d, q);
    case PostFrom(_, _, _, _, _, _) => PostFromAuthorised(st, d, q);
    case RunCommand(_, _, _) => ExecAuthorised(st, d, q);
    case Send(_, _) => SendAuthorised(st, d, q);
    case HttpGet(_, _, _, _, _) => FetchAuthorised(st, d, q);
    case _ => QuietAuthorised(st, d, q);
  }

  lemma {:induction false} QuietAuthorised(st: State, d: Disk, q: Request)
    requires Fresh(st, q) && !Acts(q)
    ensures AddsAuthorised(st, q, Step(st, d, q).0)
  {
    hide AddsAuthorised;
    if q.SetMitigation? {
      hide SetMitigationOp;
      MitigationIsQuiet(st, d, q.reduced, q.order);
    } else {
      hide Step;
      if q.DeriveSub? || q.DeriveReadonly? || q.DeriveMsg? {
        DeriveIsQuiet(st, d, q);
      } else if q.MailboxRead? || q.ReadFile? || q.ListDir? || q.Revoke? || q.TakeBootstrap? || q.Settle? {
        LookIsQuiet(st, d, q);
      } else {
        MintIsQuiet(st, d, q);
      }
    }
    NothingAdded(st, q, Step(st, d, q).0);
  }

  // ---- every run ----

  /**
   Every effect in the history of every run happened at a step whose request named its capability,
   when that capability was active and of the right kind, the policy did not deny it, and a prompt
   had been granted.
   */
  lemma {:induction false} EffectsAreAuthorised(run: Run, d: Disk, n: nat, k: nat) returns (m: nat)
    requires ValidRun(run, d) && n <= |run.requests| && k < |run.states[n].effects|
    ensures m < n && |run.states[m].effects| == k
    ensures Authorised(run.states[m], run.requests[m], run.states[n].effects[k])
  {
    hide Step, Fresh, Authorised, Extends;
    assert n > 0;
    var st, q := run.states[n - 1], run.requests[n - 1];
    Onward(run, d, n - 1, n);
    if k < |st.effects| {
      m := EffectsAreAuthorised(run, d, n - 1, k);
    } else {
      assert Fresh(st, q) && Step(st, d, q) == (run.states[n], run.replies[n - 1]);
      StepAuthorised(st, d, q);
      m := n - 1;
    }
  }
}
