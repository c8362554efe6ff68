/**
 Dispatch of one wire request (`handle` in `proto.rs`): tab-separated fields in, one frame out,
 for the guest role and for the control role.
 */
module Wire {
  import opened Text
  import opened Registry
  import opened Broker
  import opened Sessions
  import Base64
  import Consent

  datatype Role = Guest | Control

  /**
   What the outside supplies to one request: fresh names, the answers of files and hosts, and the
   rendering (`text`) of whatever is only displayed.
   */
  datatype World = World(id: Ref, mailbox: string, openOk: bool, hostOk: bool, origin: string, data: Option<string>,
                         resolved: bool, text: string)

  /** What the ledger answers, when it is asked. */
  datatype Answer = Answer(outcome: Option<Consent.Outcome>, hasLedger: bool, summary: Option<string>, known: bool)

  const Silence := Answer(None, false, None, false)

  datatype Frame = CapFrame(r: Ref) | OkFrame(taint: string, payload: string) | ConsentFrame(id: string) | ErrFrame

  /** What a request comes down to. The last four only show something. */
  datatype Plan = Refuse | Ask(q: Request) | ShowCap(r: Ref) | ShowTrail | ShowConsent(id: string) | ShowConsents

  // ---- reading fields ----

  const US: char := '\U{1f}'

  function AtOr(f: seq<string>, i: nat, other: string): string { if i < |f| then f[i] else other }

  function TaintName(t: Taint): string
  {
    match t
    case Green => "green"
    case Yellow => "yellow"
    case Project => "project"
    case Secret => "secret"
    case External => "external"
    case AgentGenerated => "agent_generated"
  }

  function ParseTaint(s: string): Taint
  {
    if s == "yellow" then Yellow
    else if s == "project" then Project
    else if s == "secret" then Secret
    else if s == "external" then External
    else if s == "agent_generated" then AgentGenerated
    else Green
  }

  function OpOf(s: string): Option<Op>
  {
    if s == "read" then Some(Op.Read)
    else if s == "write" then Some(Op.Write)
    else if s == "delete" then Some(Op.Delete)
    else if s == "list" then Some(Op.List)
    else if s == "exec" then Some(Op.Exec)
    else None
  }

  function OpsOf(parts: seq<string>): seq<Op>
  {
    if parts == [] then []
    else (match OpOf(Trim(parts[0])) case Some(op) => [op] case None => []) + OpsOf(parts[1..])
  }

  function Upper(s: string): string
  {
    seq(|s|, i requires 0 <= i < |s| => if 'a' <= s[i] <= 'z' then s[i] - 'a' + 'A' else s[i])
  }

  function MethodsOf(parts: seq<string>): seq<string>
  {
    seq(|parts|, i requires 0 <= i < |parts| => Upper(Trim(parts[i])))
  }

  function BodyOf(s: string): string
  {
    var data := Base64.ChunkedDecode(Base64.NoPad(s));
    seq(|data|, i requires 0 <= i < |data| => data[i] as char)
  }

  // ---- dispatch ----

  function PlanGrant(f: seq<string>, w: World): Plan
    requires |f| >= 1
  {
    var verb := f[0];
    if |f| < 2 then Refuse
    else if verb == "GRANT_DIR" then
      Ask(GrantDir(w.id, f[1], OpsOf(Split(AtOr(f, 2, "read"), ',')), ParseTaint(AtOr(f, 3, "project")), w.openOk))
    else if verb == "GRANT_SINK" then Ask(GrantSink(w.id))
    else if verb == "GRANT_HTTP" then
      if |f| < 4 || ParseU64(f[3]) == None || ParseU64(f[3]).value >= 0x1_0000 then Refuse
      else Ask(GrantHttp(w.id, w.origin, HttpSpec(f[1], MethodsOf(Split(AtOr(f, 4, "GET"), ',')),
                                                  Split(AtOr(f, 5, "/**"), US)), w.hostOk))
    else if verb == "GRANT_MSG" then Ask(GrantMessage(w.id, w.mailbox))
    else Ask(GrantCommand(w.id, f[1], NonEmpty(Split(AtOr(f, 2, ""), US))))
  }

  function PlanDerive(f: seq<string>, w: World): Plan
  {
    if |f| < 3 then Refuse
    else if f[2] == "sub" then if |f| < 4 then Refuse else Ask(DeriveSub(w.id, f[1], f[3], w.openOk))
    else if f[2] == "readonly" then Ask(DeriveReadonly(w.id, f[1]))
    else if f[2] == "msg_prefix" then if |f| < 4 then Refuse else Ask(DeriveMsg(w.id, f[1], f[3], false))
    else if f[2] == "msg_oneshot" then Ask(DeriveMsg(w.id, f[1], "", true))
    else Refuse
  }

  function PlanInvoke(f: seq<string>, w: World): Plan
  {
    if |f| < 3 then Refuse
    else
      var r, verb := f[1], f[2];
      if verb == "read" then Ask(ReadFile(r, AtOr(f, 3, ""), w.data))
      else if verb == "list" then Ask(ListDir(r, AtOr(f, 3, ""), w.data))
      else if verb == "exec" then Ask(RunCommand(r, w.data, None))
      else if verb == "http_get" then Ask(HttpGet(r, AtOr(f, 3, "/"), w.resolved, w.data, None))
      else if verb == "send" then Ask(Send(r, ParseTaint(AtOr(f, 3, "green"))))
      else if verb == "post" then
        if |f| < 4 then Refuse else Ask(Post(r, f[3], BodyOf(AtOr(f, 4, "")), None))
      else if verb == "post_from" then
        if |f| < 5 then Refuse else Ask(PostFrom(r, f[3], f[4], AtOr(f, 5, ""), w.data, None))
      else if verb == "mailbox_read" then Ask(MailboxRead(r))
      else Refuse
  }

  function PlanConsent(f: seq<string>): Plan
    requires |f| >= 1
  {
    if f[0] == "CONSENT_LIST" then ShowConsents
    else if |f| < 2 then Refuse
    else if f[0] == "CONSENT_DESCRIBE" then ShowConsent(f[1])
    else Ask(Settle(f[1], f[0] == "CONSENT_APPROVE", false, None))
  }

  predicate IsGrant(verb: string)
  {
    verb == "GRANT_DIR" || verb == "GRANT_SINK" || verb == "GRANT_HTTP" || verb == "GRANT_MSG" || verb == "GRANT_CMD"
  }

  predicate IsConsent(verb: string)
  {
    verb == "CONSENT_APPROVE" || verb == "CONSENT_DENY" || verb == "CONSENT_DESCRIBE" || verb == "CONSENT_LIST"
  }

  /** Minting and answering consent requests belong to the control role. */
  function PlanOf(role: Role, f: seq<string>, w: World): Plan
    requires |f| >= 1
  {
    var verb := f[0];
    if verb == "BOOTSTRAP" then Ask(TakeBootstrap)
    else if IsGrant(verb) then if role == Guest then Refuse else PlanGrant(f, w)
    else if verb == "DERIVE" then PlanDerive(f, w)
    else if verb == "INVOKE" then PlanInvoke(f, w)
    else if verb == "REVOKE" then if |f| < 2 then Refuse else Ask(Revoke(f[1]))
    else if IsConsent(verb) then if role == Guest then Refuse else PlanConsent(f)
    else if verb == "DESCRIBE" then if |f| < 2 then Refuse else ShowCap(f[1])
    else if verb == "AUDIT" then ShowTrail
    else Refuse
  }

  // ---- replies ----

  function MailDump(msgs: seq<Msg>): seq<string>
  {
    seq(|msgs|, i requires 0 <= i < |msgs| => Join([TaintName(msgs[i].taint), msgs[i].subject, msgs[i].body], "\t"))
  }

  /** The frame for a reply; payloads are shown before their base64. */
  function FrameOf(reply: Reply): Frame
  {
    match reply
    case Fail => ErrFrame
    case NeedsConsent(id) => ConsentFrame(id)
    case Done => OkFrame("", "")
    case CapIs(r) => CapFrame(r)
    case Data(t, bytes) => OkFrame(TaintName(t), bytes)
    case Mail(msgs) => OkFrame("", Join(MailDump(msgs), "\n"))
    case Text(text) => OkFrame("", text)
  }

  /** The names the outside supplies are new. */
  predicate NewNames(st: State, w: World) { w.id !in st.caps && w.mailbox !in st.mailboxes }

  lemma {:induction false} GrantIsFresh(st: State, f: seq<string>, w: World)
    requires |f| >= 1 && NewNames(st, w)
    ensures PlanGrant(f, w).Ask? ==> Fresh(st, PlanGrant(f, w).q)
  {
    hide OpsOf, MethodsOf, NonEmpty, Split, ParseU64, ParseTaint, AtOr;
  }

  lemma {:induction false} UseIsFresh(st: State, f: seq<string>, w: World)
    requires |f| >= 1 && NewNames(st, w)
    ensures PlanDerive(f, w).Ask? ==> Fresh(st, PlanDerive(f, w).q)
    ensures PlanConsent(f).Ask? ==> Fresh(st, PlanConsent(f).q)
  {
  }

  lemma {:induction false} InvokeIsFresh(st: State, f: seq<string>, w: World)
    ensures PlanInvoke(f, w).Ask? ==> Fresh(st, PlanInvoke(f, w).q)
  {
    hide BodyOf, ParseTaint, AtOr;
  }

  lemma {:induction false} PlansAreFresh(st: State, role: Role, f: seq<string>, w: World)
    requires |f| >= 1 && NewNames(st, w)
    ensures PlanOf(role, f, w).Ask? ==> Fresh(st, PlanOf(role, f, w).q)
  {
    hide PlanGrant, PlanDerive, PlanInvoke, PlanConsent, IsGrant, IsConsent;
    GrantIsFresh(st, f, w);
    UseIsFresh(st, f, w);
    InvokeIsFresh(st, f, w);
  }

  /** A request together with the ledger's answer to it. */
  function WithAnswer(q: Request, a: Answer): Request
  {
    match q
    case Post(r, subject, body, _) => Post(r, subject, body, a.outcome)
    case PostFrom(r, subject, src, rel, data, _) => PostFrom(r, subject, src, rel, data, a.outcome)
    case RunCommand(r, output, _) => RunCommand(r, output, a.outcome)
    case HttpGet(r, path, resolved, response, _) => HttpGet(r, path, resolved, response, a.outcome)
    case Settle(id, approve, _, _) => Settle(id, approve, a.hasLedger, a.summary)
    case _ => q
  }

  ghost function Carry(st: State, d: Disk, p: Plan, a: Answer, text: string): (State, Frame)
    requires p.Ask? ==> Fresh(st, p.q)
  {
    match p
    case Refuse => (st, ErrFrame)
    case Ask(q) => var (after, reply) := Step(st, d, WithAnswer(q, a)); (after, FrameOf(reply))
    case ShowCap(r) => (st, if r in st.caps then OkFrame("", text) else ErrFrame)
    case ShowTrail => (st, OkFrame("", text))
    case ShowConsent(_) => (st, if a.known then OkFrame("", text) else ErrFrame)
    case ShowConsents => (st, OkFrame("", text))
  }

  /** `handle`. */
  ghost function Handled(st: State, d: Disk, role: Role, body: string, w: World, a: Answer): (State, Frame)
    requires NewNames(st, w)
  {
    var f := Split(body, '\t');
    PlansAreFresh(st, role, f, w);
    Carry(st, d, PlanOf(role, f, w), a, w.text)
  }

  // ---- the same on the session object ----

  predicate IsMint(q: Request)
  {
    || q.GrantDir? || q.GrantSink? || q.GrantMessage? || q.GrantCommand? || q.GrantHttp?
    || q.DeriveSub? || q.DeriveReadonly? || q.DeriveMsg?
  }

  predicate IsLook(q: Request) { q.MailboxRead? || q.ReadFile? || q.ListDir? }

  /** The answer is the ledger's own, and the ledger changed by nothing but giving it. */
  ghost predicate Answered(sess: Session, q: Request, detail: string, before: Option<Consent.Ledger>, a: Answer,
                           after: Option<Consent.Ledger>)
  {
    if IsGoverned(q) then
      Asked(sess.h, sess.key, PromptsFor(sess.l5, q), PartsOf(sess.h, q), detail, before, a.outcome, after)
    else if q.Settle? then
      a.hasLedger == before.Some? && Settled(q.id, q.approve, before, a.summary, after)
    else after == before
  }

  ghost predicate PlanAnswered(sess: Session, p: Plan, detail: string, before: Option<Consent.Ledger>, a: Answer,
                               after: Option<Consent.Ledger>)
  {
    match p
    case Ask(q) => Answered(sess, q, detail, before, a, after)
    case ShowConsent(id) => after == before && (a.known <==> before.Some? && id in before.value.reqs)
    case _ => after == before
  }

  method PerformMint(sess: Session, q: Request) returns (reply: Reply)
    requires IsMint(q) && Fresh(sess.View(), q)
    modifies sess, sess.sink
    ensures (sess.View(), reply) == Step(old(sess.View()), sess.D(), q)
    ensures sess.Followed(old(sess.Now()), sess.Now())
  {
    hide GrantDirOp, GrantSinkOp, GrantMessageOp, GrantCommandOp, GrantHttpOp, DeriveSubOp, DeriveReadonlyOp,
      DeriveMsgOp;
    hide Session.Followed, Session.Now;
    match q
    case GrantDir(id, root, ops, taint, openOk) => reply := sess.GrantDir(id, root, ops, taint, openOk);
    case GrantSink(id) => reply := sess.GrantSink(id);
    case GrantMessage(id, mailbox) => reply := sess.GrantMessage(id, mailbox);
    case GrantCommand(id, cwd, argv) => reply := sess.GrantCommand(id, cwd, argv);
    case GrantHttp(id, origin, spec, hostOk) => reply := sess.GrantHttp(id, origin, spec, hostOk);
    case DeriveSub(id, r, seg, openOk) => reply := sess.DeriveSub(id, r, seg, openOk);
    case DeriveReadonly(id, r) => reply := sess.DeriveReadonly(id, r);
    case DeriveMsg(id, r, add, oneShot) => reply := sess.DeriveMsg(id, r, add, oneShot);
  }

  method PerformLook(sess: Session, q: Request) returns (reply: Reply)
    requires IsLook(q)
    modifies sess, sess.sink
    ensures (sess.View(), reply) == Step(old(sess.View()), sess.D(), q)
    ensures sess.Followed(old(sess.Now()), sess.Now())
  {
    hide MailboxReadOp, ReadOp, ListOp, Session.Followed, Session.Now;
    match q
    case MailboxRead(r) => reply := sess.MailboxRead(r);
    case ReadFile(r, rel, data) => reply := sess.ReadFile(r, rel, data);
    case ListDir(r, rel, names) => reply := sess.ListDir(r, rel, names);
  }

  method PerformGoverned(sess: Session, q: Request, detail: string)
    returns (reply: Reply, ghost o: Option<Consent.Outcome>)
    requires IsGoverned(q) && sess.Valid()
    modifies sess, sess.sink, sess.ledger
    ensures sess.Valid()
    ensures (sess.View(), reply) == Step(old(sess.View()), sess.D(), WithAnswer(q, Silence.(outcome := o)))
    ensures sess.Followed(old(sess.Now()), sess.Now())
    ensures Asked(sess.h, sess.key, PromptsFor(sess.l5, q), PartsOf(sess.h, q), detail, old(sess.Book()), o,
                  sess.Book())
  {
    hide PostOp, PostFromOp, ExecOp, HttpGetOp, Consent.Sound, Asked, Session.Followed, Session.Now, Session.Book;
    match q
    case Post(r, subject, body, _) => reply, o := sess.Post(r, subject, body, detail);
    case PostFrom(r, subject, src, rel, data, _) => reply, o := sess.PostFrom(r, subject, src, rel, data, detail);
    case RunCommand(r, output, _) => reply, o := sess.Run(r, output, detail);
    case HttpGet(r, path, resolved, response, _) => reply, o := sess.HttpGet(r, path, resolved, response, detail);
  }

  method PerformPlain(sess: Session, q: Request) returns (reply: Reply)
    requires q.Send? || q.Revoke? || q.TakeBootstrap?
    modifies sess, sess.sink
    ensures (sess.View(), reply) == Step(old(sess.View()), sess.D(), q)
    ensures sess.Followed(old(sess.Now()), sess.Now())
  {
    hide RevokeOp, SendOp, TakeBootstrapOp, Session.Followed, Session.Now;
    match q
    case Send(r, taint) => reply := sess.Send(r, taint);
    case Revoke(r) => reply := sess.Revoke(r);
    case TakeBootstrap => reply := sess.TakeBootstrap();
  }

  /** Everything a request can ask of a session. */
  method Perform(sess: Session, q: Request, detail: string) returns (reply: Reply, ghost a: Answer)
    requires sess.Valid() && Fresh(sess.View(), q) && !q.SetMitigation? && !q.SetBootstrap?
    modifies sess, sess.sink, sess.ledger
    ensures sess.Valid()
    ensures (sess.View(), reply) == Step(old(sess.View()), sess.D(), WithAnswer(q, a))
    ensures sess.Followed(old(sess.Now()), sess.Now())
    ensures Answered(sess, q, detail, old(sess.Book()), a, sess.Book())
  {
    hide Consent.Sound, Asked, Settled, SettleOp, Session.Followed, Session.Now, PartsOf, PromptsFor;
    a := Silence;
    if IsGoverned(q) {
      ghost var o;
      reply, o := PerformGoverned(sess, q, detail);
      a := a.(outcome := o);
    } else if IsMint(q) {
      reply := PerformMint(sess, q);
    } else if IsLook(q) {
      reply := PerformLook(sess, q);
    } else if q.Settle? {
      ghost var s;
      reply, s := sess.Settle(q.id, q.approve);
      a := a.(hasLedger := sess.ledger != null, summary := s);
    } else {
      reply := PerformPlain(sess, q);
    }
  }

  lemma {:induction false} PlanKinds(role: Role, f: seq<string>, w: World)
    requires |f| >= 1
    ensures PlanOf(role, f, w).Ask? ==>
      !PlanOf(role, f, w).q.SetMitigation? && !PlanOf(role, f, w).q.SetBootstrap?
  {
    hide OpsOf, MethodsOf, NonEmpty, BodyOf, Split, ParseU64, ParseTaint, IsGrant, IsConsent, AtOr;
  }

  /** The literal words of an approver, at the ledger: `CONSENT_APPROVE` approves and `CONSENT_DENY` denies. */
  ghost predicate ConsentWordsMean(body: string, before: Consent.Ledger, after: Option<Consent.Ledger>)
  {
    forall id: string :: '\t' !in id ==>
      && (body == "CONSENT_APPROVE\t" + id ==> after == Some(Consent.Decided(before, id, Consent.Approved)))
      && (body == "CONSENT_DENY\t" + id ==> after == Some(Consent.Decided(before, id, Consent.Denied)))
  }

  lemma {:induction false} ConsentFields(verb: string, id: string)
    requires '\t' !in verb && '\t' !in id
    ensures Split(verb + "\t" + id, '\t') == [verb, id]
  {
    SplitAt(verb, '\t', id);
    SplitWhole(verb, '\t');
    SplitWhole(id, '\t');
    assert verb + ['\t'] + id == verb + "\t" + id;
  }

  lemma ConsentPlans(id: string, w: World)
    ensures PlanOf(Control, ["CONSENT_APPROVE", id], w) == Ask(Settle(id, true, false, None))
    ensures PlanOf(Control, ["CONSENT_DENY", id], w) == Ask(Settle(id, false, false, None))
  {
    hide PlanGrant, PlanDerive, PlanInvoke;
  }

  lemma {:induction false} WordsDecide(sess: Session, body: string, w: World, detail: string,
                                       before: Option<Consent.Ledger>, a: Answer, after: Option<Consent.Ledger>)
    requires PlanAnswered(sess, PlanOf(Control, Split(body, '\t'), w), detail, before, a, after)
    ensures before.Some? ==> ConsentWordsMean(body, before.value, after)
  {
    hide PlanOf, Asked, Consent.Decided;
    if before.Some? {
      forall id: string | '\t' !in id
        ensures body == "CONSENT_APPROVE\t" + id ==> after == Some(Consent.Decided(before.value, id, Consent.Approved))
        ensures body == "CONSENT_DENY\t" + id ==> after == Some(Consent.Decided(before.value, id, Consent.Denied))
      {
        assert "CONSENT_APPROVE" + "\t" == "CONSENT_APPROVE\t" && "CONSENT_DENY" + "\t" == "CONSENT_DENY\t";
        ConsentFields("CONSENT_APPROVE", id);
        ConsentFields("CONSENT_DENY", id);
        ConsentPlans(id, w);
      }
    }
  }

  /** `handle` on the session object: exactly the step above, with the ledger's own answer. */
  method Handle(sess: Session, role: Role, body: string, w: World, detail: string)
    returns (frame: Frame, ghost a: Answer)
    requires sess.Valid() && NewNames(sess.View(), w)
    modifies sess, sess.sink, sess.ledger
    ensures sess.Valid()
    ensures (sess.View(), frame) == Handled(old(sess.View()), sess.D(), role, body, w, a)
    ensures sess.Followed(old(sess.Now()), sess.Now())
    ensures PlanAnswered(sess, PlanOf(role, Split(body, '\t'), w), detail, old(sess.Book()), a, sess.Book())
    ensures role == Control && old(sess.Book()).Some? ==>
      ConsentWordsMean(body, old(sess.Book()).value, sess.Book())
  {
    hide PlanOf, Step, FrameOf, WithAnswer, Answered, ConsentWordsMean, Session.Followed, Session.Now;
    sess.FollowedSame();
    ghost var before := sess.Book();
    a := Silence;
    var f := Split(body, '\t');
    var p := PlanOf(role, f, w);
    PlanKinds(role, f, w);
    PlansAreFresh(sess.View(), role, f, w);
    match p {
      case Refuse => frame := ErrFrame;
      case ShowCap(r) => frame := if r in sess.caps then OkFrame("", w.text) else ErrFrame;
      case ShowTrail => frame := OkFrame("", w.text);
      case ShowConsents => frame := OkFrame("", w.text);
      case ShowConsent(id) =>
        var known := sess.ledger != null && id in sess.ledger.reqs;
        a := a.(known := known);
        frame := if known then OkFrame("", w.text) else ErrFrame;
      case Ask(q) =>
        var reply;
        reply, a := Perform(sess, q, detail);
        frame := FrameOf(reply);
    }
    if role == Control { WordsDecide(sess, body, w, detail, before, a, sess.Book()); }
  }
}
