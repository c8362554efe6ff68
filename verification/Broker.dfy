/**
 A broker session as a state machine (`Session` in `lib.rs`): every operation as a function from
 state to state and reply. What the operating system, the ledger and the disk answer is a parameter.
 */
module Broker {
  import opened Text
  import opened Registry
  import opened Paths
  import Target
  import Glob
  import Consent

  // ---- policy ----

  datatype Engine = Engine(denyExec: bool, promptExec: bool, promptHttp: bool, promptPost: bool)
  datatype Decision = Allow | Deny | Prompt

  /** `PolicyEngine::decide`: deny before prompt. */
  function Decide(e: Engine, verb: string): Decision
  {
    if verb == "exec" && e.denyExec then Deny
    else if verb == "exec" && e.promptExec then Prompt
    else if verb == "http_get" && e.promptHttp then Prompt
    else if (verb == "post" || verb == "post_from") && e.promptPost then Prompt
    else Allow
  }

  /** What the policy decides, flag by flag. */
  lemma PolicyIsFlags(e: Engine)
    ensures Decide(e, "exec") == if e.denyExec then Deny else if e.promptExec then Prompt else Allow
    ensures Decide(e, "http_get") == if e.promptHttp then Prompt else Allow
    ensures Decide(e, "post") == Decide(e, "post_from") == if e.promptPost then Prompt else Allow
  {
  }

  // ---- state ----

  datatype Event = Event(op: string, subject: string, decision: string)
  datatype Msg = Msg(subject: string, body: string, taint: Taint, sender: string)

  /** A message that reached a mailbox, and the reference it was posted through. */
  datatype Delivery = Delivery(r: Ref, mailbox: string, msg: Msg, literal: bool)

  datatype EffectKind = Ran | Sent | Fetched | Posted

  /** Something that left the broker, when `at` events had been audited. */
  datatype Effect = Effect(kind: EffectKind, r: Ref, at: nat)

  function IntentOp(k: EffectKind): string
  {
    match k
    case Ran => "exec.intent"
    case Sent => "send.intent"
    case Fetched => "http.intent"
    case Posted => "post.intent"
  }

  /**
   The session. `stored[i]` tells whether event `i` of the trail reached the log (always, without
   a sink); `deliveries` and `effects` are history, kept for what is said about whole runs.
   */
  datatype State = State(key: string, caps: Caps, trail: seq<Event>, stored: seq<bool>, hasSink: bool, broken: bool,
                         mailboxes: map<string, seq<Msg>>, deliveries: seq<Delivery>, effects: seq<Effect>,
                         bootstrap: Option<Ref>, reduced: bool, l5: Engine)

  function NewSession(key: string, hasSink: bool, l5: Engine): State
  {
    State(key, map[], [], [], hasSink, false, map[], [], [], None, false, l5)
  }

  /** Whether the record of the session's i-th event succeeds. */
  type Disk = nat -> bool

  datatype Reply =
    | Fail
    | NeedsConsent(id: string)
    | Done
    | CapIs(r: Ref)
    | Data(taint: Taint, bytes: string)
    | Mail(msgs: seq<Msg>)
    | Text(text: string)

  // ---- pieces every operation is made of ----

  predicate RecordOk(st: State, d: Disk) { !st.hasSink || d(|st.trail|) }

  /** `audit`: the event is kept in memory; a failed record breaks the session for good. */
  function Audit(st: State, d: Disk, op: string, subject: string, decision: string): State
  {
    st.(trail := st.trail + [Event(op, subject, decision)],
        stored := st.stored + [RecordOk(st, d)],
        broken := st.broken || !RecordOk(st, d))
  }

  /** Auditing touches nothing but the trail and its flags. */
  lemma AuditLeaves(st: State, d: Disk, op: string, subject: string, decision: string)
    ensures
      var b := Audit(st, d, op, subject, decision);
      && b.key == st.key && b.hasSink == st.hasSink && b.caps == st.caps && b.mailboxes == st.mailboxes
      && b.deliveries == st.deliveries && b.effects == st.effects && b.bootstrap == st.bootstrap
      && b.reduced == st.reduced && b.l5 == st.l5 && (st.broken ==> b.broken)
  {
  }

  function Word(ok: bool): string { if ok then "allow" else "deny" }

  /** `get_active`. */
  function GetActive(st: State, r: Ref): (c: Option<Cap>)
    ensures c.Some? <==> !st.broken && IsActive(st.caps, r)
    ensures c.Some? ==> r in st.caps && c.value == st.caps[r] && !c.value.revoked
  {
    if st.broken || !IsActive(st.caps, r) then None else Some(st.caps[r])
  }

  function BlankCap(kind: Kind): Cap
  {
    Cap(kind, false, "", [], Green, [], false, None, None, None, 0)
  }

  /** Registers a capability under a fresh id, audits it, and returns the id. */
  function Register(st: State, d: Disk, id: Ref, c: Cap, op: string): (State, Reply)
    requires CanInsert(st.caps, id, c)
  {
    (Audit(st.(caps := Insert(st.caps, id, c)), d, op, id, "allow"), CapIs(id))
  }

  /** The gate before a governed action. `ledger` is what the shared ledger answers, if there is one. */
  function Gate(st: State, d: Disk, verb: string, r: Ref, ledger: Option<Consent.Outcome>): (State, Option<Reply>)
  {
    match Decide(st.l5, verb)
    case Allow => (st, None)
    case Deny => (Audit(st, d, "policy.deny", r, "deny"), Some(Fail))
    case Prompt =>
      if ledger == None then (st, Some(Fail))
      else match ledger.value
        case Granted => (Audit(st, d, "policy.consent", r, "approved"), None)
        case Refused => (Audit(st, d, "policy.consent", r, "denied"), Some(Fail))
        case Waiting(id) => (Audit(st, d, "policy.consent", r, "pending"), Some(NeedsConsent(id)))
  }

  /** The durable intent: without it the action does not happen. */
  function Intend(st: State, d: Disk, k: EffectKind, r: Ref): (State, Option<Reply>)
  {
    (Audit(st, d, IntentOp(k), r, "attempt"), if RecordOk(st, d) then None else Some(Fail))
  }

  /** Gate, then intent. A reply here ends the operation. */
  function Before(st: State, d: Disk, verb: string, k: EffectKind, r: Ref, ledger: Option<Consent.Outcome>)
    : (State, Option<Reply>)
  {
    var g := Gate(st, d, verb, r, ledger);
    if g.1.Some? then g else Intend(g.0, d, k, r)
  }

  function Happened(st: State, k: EffectKind, r: Ref): State
  {
    st.(effects := st.effects + [Effect(k, r, |st.trail|)])
  }

  // ---- reading ----

  function ReadTaint(c: Cap, rel: string): Taint
  {
    if IsSecretPath(c.root + "/" + rel) then Secret else c.taint
  }

  /** `read_i`; `data` is what opening and reading the file gives. */
  function ReadInner(st: State, r: Ref, rel: string, data: Option<string>): Option<(Taint, string)>
  {
    var c := GetActive(st, r);
    if c == None || Op.Read !in c.value.ops || SafeJoin(c.value.root, rel) == None || !c.value.anchored || data == None
    then None
    else Some((ReadTaint(c.value, rel), data.value))
  }

  function ReadOp(st: State, d: Disk, r: Ref, rel: string, data: Option<string>): (State, Reply)
  {
    var res := ReadInner(st, r, rel, data);
    (Audit(st, d, "read", r, Word(res.Some?)),
     if res.Some? && RecordOk(st, d) then Data(res.value.0, res.value.1) else Fail)
  }

  function ListOp(st: State, d: Disk, r: Ref, rel: string, names: Option<string>): (State, Reply)
  {
    var c := GetActive(st, r);
    var ok := c.Some? && Op.List in c.value.ops && SafeJoin(c.value.root, rel).Some? && c.value.anchored && names.Some?;
    (Audit(st, d, "list", r, Word(ok)), if ok && RecordOk(st, d) then Data(Project, names.value) else Fail)
  }

  // ---- minting ----

  function GrantDirOp(st: State, d: Disk, id: Ref, root: string, ops: seq<Op>, taint: Taint, openOk: bool): (State,
                      Reply)
    requires id !in st.caps
  {
    if !openOk then (st, Fail)
    else Register(st, d, id, BlankCap(Dir).(root := root, ops := ops, taint := taint, anchored := true), "grant_dir")
  }

  function GrantSinkOp(st: State, d: Disk, id: Ref): (State, Reply)
    requires id !in st.caps
  {
    Register(st, d, id, BlankCap(Sink), "grant_sink")
  }

  function GrantMessageOp(st: State, d: Disk, id: Ref, mailbox: string): (State, Reply)
    requires id !in st.caps && mailbox !in st.mailboxes
  {
    Register(st.(mailboxes := st.mailboxes[mailbox := []]), d, id,
             BlankCap(Message).(msg := Some(MsgSpec(mailbox, "", false, true))), "grant_message")
  }

  function GrantCommandOp(st: State, d: Disk, id: Ref, cwd: Ref, argv: seq<string>): (State, Reply)
    requires id !in st.caps
  {
    var c := GetActive(st, cwd);
    if c == None || c.value.kind != Dir then (st, Fail)
    else Register(st, d, id, BlankCap(Command).(root := c.value.root, ops := [Exec], taint := Yellow,
                                                argv := argv, anchored := c.value.anchored), "grant_cmd")
  }

  function GrantHttpOp(st: State, d: Disk, id: Ref, origin: string, spec: HttpSpec, hostOk: bool): (State, Reply)
    requires id !in st.caps
  {
    if st.reduced then (Audit(st, d, "grant_http", id, "deny:mitigation_reduced"), Fail)
    else if !hostOk then (st, Fail)
    else Register(st, d, id, BlankCap(Http).(root := origin, taint := External, http := Some(spec)), "grant_http")
  }

  // ---- attenuating ----

  function DeriveSubOp(st: State, d: Disk, id: Ref, r: Ref, seg: string, openOk: bool): (State, Reply)
    requires id !in st.caps
  {
    var c := GetActive(st, r);
    if c == None || c.value.kind != Dir || !c.value.anchored || !openOk || SafeJoin(c.value.root, seg) == None
    then (st, Fail)
    else Register(st, d, id, BlankCap(Dir).(root := SafeJoin(c.value.root, seg).value, ops := c.value.ops,
                                            taint := c.value.taint, anchored := true, parent := Some(r)), "derive_sub")
  }

  function DeriveReadonlyOp(st: State, d: Disk, id: Ref, r: Ref): (State, Reply)
    requires id !in st.caps
  {
    var c := GetActive(st, r);
    if c == None then (st, Fail)
    else Register(st, d, id, BlankCap(c.value.kind).(root := c.value.root, ops := [Op.Read, Op.List],
                                                     taint := c.value.taint, anchored := c.value.anchored,
                                                     parent := Some(r)), "derive_readonly")
  }

  /** `derive_msg_prefix` and `derive_msg_oneshot`: a post-only facet of the same mailbox. */
  function DeriveMsgOp(st: State, d: Disk, id: Ref, r: Ref, add: string, oneShot: bool): (State, Reply)
    requires id !in st.caps
  {
    var c := GetActive(st, r);
    if c == None || c.value.msg == None then (st, Fail)
    else
      var m := c.value.msg.value;
      Register(st, d, id, BlankCap(Message).(msg := Some(MsgSpec(m.mailbox, m.prefix + add, oneShot, false)),
                                             parent := Some(r)), "derive_message")
  }

  // ---- mailboxes ----

  predicate HasPrefix(s: string, prefix: string) { prefix <= s }

  /** `post_bytes`: facet, taint and subject checks, the delivery, and the end of a one-shot facet. */
  function Deliver(st: State, r: Ref, subject: string, taint: Taint, body: string, literal: bool): Option<State>
  {
    var c := GetActive(st, r);
    if c == None || c.value.msg == None || taint == Secret || !HasPrefix(subject, c.value.msg.value.prefix)
       || c.value.msg.value.mailbox !in st.mailboxes then None
    else
      var m := c.value.msg.value;
      var letter := Msg(subject, body, taint, st.key);
      var s1 := st.(mailboxes := st.mailboxes[m.mailbox := st.mailboxes[m.mailbox] + [letter]],
                    deliveries := st.deliveries + [Delivery(r, m.mailbox, letter, literal)]);
      var s2 := Happened(s1, Posted, r);
      Some(if m.oneShot then s2.(caps := SetRevoked(s2.caps, r)) else s2)
  }

  /** Closes an attempt: the result is audited, whatever it was. */
  function Close(st: State, d: Disk, res: Option<State>, r: Ref): (State, Reply)
  {
    (Audit(if res.Some? then res.value else st, d, "post.result", r, Word(res.Some?)), if res.Some? then Done else Fail)
  }

  /** `post_literal_owner_only`: only an owner posts words of its own, and they are Green. */
  function LiteralPost(st: State, r: Ref, subject: string, body: string): Option<State>
  {
    var c := GetActive(st, r);
    if c.Some? && c.value.msg.Some? && c.value.msg.value.canReceive then Deliver(st, r, subject, Green, body, true)
    else None
  }

  /** A forwarded file keeps the taint of its reading. */
  function ForwardedPost(st: State, r: Ref, subject: string, src: Ref, rel: string, data: Option<string>): Option<State>
  {
    var got := ReadInner(st, src, rel, data);
    if got.Some? then Deliver(st, r, subject, got.value.0, got.value.1, false) else None
  }

  function PostOp(st: State, d: Disk, r: Ref, subject: string, body: string, ledger: Option<Consent.Outcome>)
    : (State, Reply)
  {
    var b := Before(st, d, "post", Posted, r, ledger);
    if b.1.Some? then (b.0, b.1.value)
    else
      Close(b.0, d, LiteralPost(b.0, r, subject, body), r)
  }

  function PostFromOp(st: State, d: Disk, r: Ref, subject: string, src: Ref, rel: string, data: Option<string>,
                      ledger: Option<Consent.Outcome>): (State, Reply)
  {
    var b := Before(st, d, "post_from", Posted, r, ledger);
    if b.1.Some? then (b.0, b.1.value)
    else
      Close(b.0, d, ForwardedPost(b.0, r, subject, src, rel, data), r)
  }

  function MailboxReadOp(st: State, d: Disk, r: Ref): (State, Reply)
  {
    var c := GetActive(st, r);
    if c == None || c.value.msg == None || !c.value.msg.value.canReceive then (st, Fail)
    else
      var box := c.value.msg.value.mailbox;
      var out := if box in st.mailboxes then st.mailboxes[box] else [];
      (Audit(st, d, "mailbox_read", r, "allow"), if RecordOk(st, d) then Mail(out) else Fail)
  }

  // ---- effects ----

  /** Whether `exec_i` starts the command. */
  predicate CanRun(st: State, r: Ref)
  {
    var c := GetActive(st, r);
    c.Some? && Exec in c.value.ops && c.value.argv != [] && c.value.anchored
  }

  function ExecOp(st: State, d: Disk, r: Ref, output: Option<string>, ledger: Option<Consent.Outcome>): (State, Reply)
  {
    var b := Before(st, d, "exec", Ran, r, ledger);
    if b.1.Some? then (b.0, b.1.value)
    else
      var runs := CanRun(b.0, r);
      var s1 := if runs then Happened(b.0, Ran, r) else b.0;
      var ok := runs && output.Some?;
      (Audit(s1, d, "exec.result", r, Word(ok)), if ok then Data(Yellow, output.value) else Fail)
  }

  function SendOp(st: State, d: Disk, r: Ref, taint: Taint): (State, Reply)
  {
    var b := Intend(st, d, Sent, r);
    if b.1.Some? then (b.0, b.1.value)
    else
      var c := GetActive(b.0, r);
      var ok := c.Some? && c.value.kind == Sink && taint != Secret;
      var s1 := if ok then Happened(b.0, Sent, r) else b.0;
      (Audit(s1, d, "send.result", r, Word(ok)), if ok then Done else Fail)
  }

  /** The allowlist decision of `http_get_i` on the canonical target. */
  predicate HttpAllowed(spec: HttpSpec, path: string)
  {
    var target := Target.Canonical(path);
    && target.Some?
    && "GET" in spec.methods
    && (exists k :: 0 <= k < |spec.paths| && Glob.PathMatches(spec.paths[k], Target.PathOf(target.value)))
    && spec.scheme == "http"
  }

  /** Whether `http_get_i` gets as far as sending the request. */
  predicate CanFetch(st: State, r: Ref, path: string, resolved: bool)
  {
    var c := GetActive(st, r);
    c.Some? && c.value.http.Some? && HttpAllowed(c.value.http.value, path) && resolved
  }

  function HttpGetOp(st: State, d: Disk, r: Ref, path: string, resolved: bool, response: Option<string>,
                     ledger: Option<Consent.Outcome>): (State, Reply)
  {
    var b := Before(st, d, "http_get", Fetched, r, ledger);
    if b.1.Some? then (b.0, b.1.value)
    else
      var sends := CanFetch(b.0, r, path, resolved);
      var s1 := if sends then Happened(b.0, Fetched, r) else b.0;
      var ok := sends && response.Some?;
      (Audit(s1, d, "http.result", r, Word(ok)), if ok then Data(External, response.value) else Fail)
  }

  // ---- revoking and mitigation ----

  function RevokeOp(st: State, d: Disk, r: Ref): (State, Reply)
  {
    if r in st.caps then (Audit(st.(caps := SetRevoked(st.caps, r)), d, "revoke", r, "allow"), Done)
    else (Audit(st, d, "revoke", r, "deny"), Fail)
  }

  predicate IsEgress(c: Cap) { c.kind == Http || c.kind == Message }

  /** The capabilities a downgrade revokes. */
  predicate ToRevoke(caps: Caps, r: Ref) { r in caps && !caps[r].revoked && IsEgress(caps[r]) }

  function RevokeEach(st: State, d: Disk, order: seq<Ref>): State
    decreases |order|
  {
    if order == [] then st else RevokeEach(RevokeOp(st, d, order[0]).0, d, order[1..])
  }

  /** `order`: the order the hash map happens to list them in. */
  function SetMitigationOp(st: State, d: Disk, reduced: bool, order: seq<Ref>): (State, Reply)
  {
    var s1 := st.(reduced := reduced);
    var s2 := if reduced then RevokeEach(s1, d, order) else s1;
    (Audit(s2, d, "mitigation", if reduced then "reduced" else "full", "allow"), Done)
  }

  // ---- bootstrap ----

  function SetBootstrapOp(st: State, d: Disk, id: Ref, workspace: string, openOk: bool): (State, Reply)
    requires id !in st.caps
  {
    var g := GrantDirOp(st, d, id, workspace, [Op.Read, Op.List], Project, openOk);
    (g.0.(bootstrap := if g.1.CapIs? then Some(g.1.r) else None), Done)
  }

  function TakeBootstrapOp(st: State): (State, Reply)
  {
    (st.(bootstrap := None), if st.bootstrap.Some? then CapIs(st.bootstrap.value) else Fail)
  }

  // ---- answering consent requests ----

  /** `consent_approve` and `consent_deny`; `summary` is what the ledger returns for the id. */
  function SettleOp(st: State, d: Disk, id: string, approve: bool, hasLedger: bool, summary: Option<string>): (State,
                    Reply)
  {
    if !hasLedger then (st, Fail)
    else (Audit(st, d, if approve then "consent.approve" else "consent.deny", id, Word(summary.Some?)),
          if summary.Some? then Text(summary.value) else Fail)
  }

  // ---- all of them ----

  datatype Request =
    | GrantDir(id: Ref, root: string, ops: seq<Op>, taint: Taint, openOk: bool)
    | GrantSink(id: Ref)
    | GrantMessage(id: Ref, mailbox: string)
    | GrantCommand(id: Ref, cwd: Ref, argv: seq<string>)
    | GrantHttp(id: Ref, origin: string, spec: HttpSpec, hostOk: bool)
    | DeriveSub(id: Ref, r: Ref, seg: string, openOk: bool)
    | DeriveReadonly(id: Ref, r: Ref)
    | DeriveMsg(id: Ref, r: Ref, add: string, oneShot: bool)
    | Post(r: Ref, subject: string, body: string, ledger: Option<Consent.Outcome>)
    | PostFrom(r: Ref, subject: string, src: Ref, rel: string, data: Option<string>, ledger: Option<Consent.Outcome>)
    | MailboxRead(r: Ref)
    | ReadFile(r: Ref, rel: string, data: Option<string>)
    | ListDir(r: Ref, rel: string, names: Option<string>)
    | RunCommand(r: Ref, output: Option<string>, ledger: Option<Consent.Outcome>)
    | Send(r: Ref, taint: Taint)
    | HttpGet(r: Ref, path: string, resolved: bool, response: Option<string>, ledger: Option<Consent.Outcome>)
    | Revoke(r: Ref)
    | SetMitigation(reduced: bool, order: seq<Ref>)
    | SetBootstrap(id: Ref, workspace: string, openOk: bool)
    | TakeBootstrap
    | Settle(id: string, approve: bool, hasLedger: bool, summary: Option<string>)

  /** The flag that forbids the request. */
  predicate DeniesFor(e: Engine, q: Request) { q.RunCommand? && e.denyExec }

  /** The flag that has the request ask for consent. */
  predicate PromptsFor(e: Engine, q: Request)
  {
    match q
    case RunCommand(_, _, _) => e.promptExec && !e.denyExec
    case HttpGet(_, _, _, _, _) => e.promptHttp
    case Post(_, _, _, _) => e.promptPost
    case PostFrom(_, _, _, _, _, _) => e.promptPost
    case _ => false
  }

  /** New ids are new, new mailboxes are new, and a downgrade lists exactly what it must revoke. */
  ghost predicate Fresh(st: State, q: Request)
  {
    match q
    case GrantDir(id, _, _, _, _) => id !in st.caps
    case GrantSink(id) => id !in st.caps
    case GrantMessage(id, mailbox) => id !in st.caps && mailbox !in st.mailboxes
    case GrantCommand(id, _, _) => id !in st.caps
    case GrantHttp(id, _, _, _) => id !in st.caps
    case DeriveSub(id, _, _, _) => id !in st.caps
    case DeriveReadonly(id, _) => id !in st.caps
    case DeriveMsg(id, _, _, _) => id !in st.caps
    case SetBootstrap(id, _, _) => id !in st.caps
    case SetMitigation(_, order) => forall r :: r in order <==> ToRevoke(st.caps, r)
    case _ => true
  }

  ghost function Step(st: State, d: Disk, q: Request): (State, Reply)
    requires Fresh(st, q)
  {
    match q
    case GrantDir(id, root, ops, taint, openOk) => GrantDirOp(st, d, id, root, ops, taint, openOk)
    case GrantSink(id) => GrantSinkOp(st, d, id)
    case GrantMessage(id, mailbox) => GrantMessageOp(st, d, id, mailbox)
    case GrantCommand(id, cwd, argv) => GrantCommandOp(st, d, id, cwd, argv)
    case GrantHttp(id, origin, spec, hostOk) => GrantHttpOp(st, d, id, origin, spec, hostOk)
    case DeriveSub(id, r, seg, openOk) => DeriveSubOp(st, d, id, r, seg, openOk)
    case DeriveReadonly(id, r) => DeriveReadonlyOp(st, d, id, r)
    case DeriveMsg(id, r, add, oneShot) => DeriveMsgOp(st, d, id, r, add, oneShot)
    case Post(r, subject, body, ledger) => PostOp(st, d, r, subject, body, ledger)
    case PostFrom(r, subject, src, rel, data, ledger) => PostFromOp(st, d, r, subject, src, rel, data, ledger)
    case MailboxRead(r) => MailboxReadOp(st, d, r)
    case ReadFile(r, rel, data) => ReadOp(st, d, r, rel, data)
    case ListDir(r, rel, names) => ListOp(st, d, r, rel, names)
    case RunCommand(r, output, ledger) => ExecOp(st, d, r, output, ledger)
    case Send(r, taint) => SendOp(st, d, r, taint)
    case HttpGet(r, path, resolved, response, ledger) => HttpGetOp(st, d, r, path, resolved, response, ledger)
    case Revoke(r) => RevokeOp(st, d, r)
    case SetMitigation(reduced, order) => SetMitigationOp(st, d, reduced, order)
    case SetBootstrap(id, workspace, openOk) => SetBootstrapOp(st, d, id, workspace, openOk)
    case TakeBootstrap => TakeBootstrapOp(st)
    case Settle(id, approve, hasLedger, summary) => SettleOp(st, d, id, approve, hasLedger, summary)
  }
}
