/**
 The session object itself (`Session` in `lib.rs`): its fields updated in place, its audit events
 sent to the shared sink, its governed actions put to the shared ledger. Each method is proved to
 do what the corresponding step of the state machine says.
 */
module Sessions {
  import opened Text
  import opened Registry
  import opened Broker
  import Paths
  import Log = Audit
  import AuditSinks
  import Consent

  /** The entry that is written: op, subject and decision lose their tabs and line feeds. */
  function Cleaned(key: string, op: string, subject: string, decision: string): Log.Entry
  {
    Log.Entry(key, Log.Sanitize(op), Log.Sanitize(subject), Log.Sanitize(decision))
  }

  function EventEntry(key: string, e: Event): Log.Entry { Cleaned(key, e.op, e.subject, e.decision) }

  /** The sink after the events of a trail from `i` on were sent to it, each as far as the disk let it. */
  function Flushed(h: Hash, s: AuditSinks.Sink, key: string, trail: seq<Event>, i: nat, reach: nat -> AuditSinks.Point)
    : AuditSinks.Sink
    decreases |trail| - i
  {
    if i >= |trail| then s
    else Flushed(h, AuditSinks.Put(h, s, EventEntry(key, trail[i]), reach(i)), key, trail, i + 1, reach)
  }

  lemma {:induction false} FlushedOn(h: Hash, s: AuditSinks.Sink, key: string, t: seq<Event>, u: seq<Event>, i: nat,
                                     reach: nat -> AuditSinks.Point)
    requires t <= u && i <= |t|
    ensures Flushed(h, Flushed(h, s, key, t, i, reach), key, u, |t|, reach) == Flushed(h, s, key, u, i, reach)
    decreases |t| - i
  {
    hide AuditSinks.Put, EventEntry;
    if i < |t| { FlushedOn(h, AuditSinks.Put(h, s, EventEntry(key, t[i]), reach(i)), key, t, u, i + 1, reach); }
  }

  // ---- what the ledger was asked ----

  predicate IsGoverned(q: Request) { q.Post? || q.PostFrom? || q.RunCommand? || q.HttpGet? }

  /** The parameters a consent is bound to: a literal body by its digest. */
  function PartsOf(h: Hash, q: Request): seq<string>
    requires IsGoverned(q)
  {
    match q
    case Post(r, subject, body, _) => ["post", r, subject, h(body)]
    case PostFrom(r, subject, src, rel, _, _) => ["post_from", r, subject, src, rel]
    case RunCommand(r, _, _) => ["exec", r]
    case HttpGet(r, path, _, _, _) => ["http_get", r, path]
  }

  /** A gate's dealings with the ledger: a prompt is put to it, and nothing else touches it. */
  ghost predicate Asked(h: Hash, key: string, prompted: bool, parts: seq<string>, detail: string,
                        before: Option<Consent.Ledger>, ans: Option<Consent.Outcome>, after: Option<Consent.Ledger>)
  {
    if before == None then ans == None && after == None
    else
      after.Some?
      && if prompted then
           ans.Some? && Consent.Checked(before.value, Consent.Sig(h, parts), key, detail, after.value, ans.value)
         else ans == None && after == before
  }

  /** An approver's dealings with the ledger. */
  ghost predicate Settled(id: string, approve: bool, before: Option<Consent.Ledger>, summary: Option<string>,
                          after: Option<Consent.Ledger>)
  {
    if before == None then summary == None && after == None
    else
      && after == Some(Consent.Decided(before.value, id, if approve then Consent.Approved else Consent.Denied))
      && summary == if Consent.CanDecide(before.value, id) then Some(before.value.reqs[id].summary) else None
  }

  /** The shared sink and a session's trail at one moment. */
  datatype Snap = Snap(sink: Option<AuditSinks.Sink>, trail: seq<Event>)

  /** Whatever texts a session audits, the entry it writes keeps to its own line and columns. */
  lemma {:induction false} CleanedIsClean(key: string, op: string, subject: string, decision: string)
    requires Log.CleanField(key) && Utf8(op) && Utf8(subject) && Utf8(decision)
    ensures Log.CleanEntry(Cleaned(key, op, subject, decision))
  {
    hide Utf8, Log.Sanitize;
    Log.SanitizeIsClean(op);
    Log.SanitizeIsClean(subject);
    Log.SanitizeIsClean(decision);
  }

  /** One call of `audit`, by whichever session. */
  datatype Said = Said(key: string, op: string, subject: string, decision: string)

  predicate Textual(s: Said) { Log.CleanField(s.key) && Utf8(s.op) && Utf8(s.subject) && Utf8(s.decision) }

  function EntryOf(s: Said): Log.Entry { Cleaned(s.key, s.op, s.subject, s.decision) }

  function Records(said: seq<Said>): (evs: seq<AuditSinks.Event>)
    ensures |evs| == |said|
  {
    seq(|said|, i requires 0 <= i < |said| => AuditSinks.Recorded(EntryOf(said[i])))
  }

  /**
   Any interleaving of sessions over one sink, saying anything: while every record succeeds the log
   holds exactly their cleaned entries in order, it replays to the count and head in memory and
   matches the anchor, and any shorter version of it fails verification.
   */
  lemma {:induction false} SharedLogAgrees(h: Hash, said: seq<Said>, kept: nat)
    requires |said| < U64_BOUND - 1 && forall i :: 0 <= i < |said| ==> Textual(said[i])
    ensures
      var s := AuditSinks.Lifetime(h, Records(said));
      && s.Up? && s.entries == seq(|said|, i requires 0 <= i < |said| => EntryOf(said[i])) && AuditSinks.Agrees(h, s)
      && (said != [] ==> Log.VerifyPersisted(h, Some(s.dev.log), s.dev.anchor))
      && (kept < |said| ==> !Log.VerifyPersisted(h, Some(AuditSinks.Print(h, s.entries[..kept])), s.dev.anchor))
  {
    hide AuditSinks.Lifetime, AuditSinks.Agrees, AuditSinks.Print, Log.VerifyPersisted, Log.CleanEntry, Textual,
      EntryOf;
    var evs := Records(said);
    forall i | 0 <= i < |evs| ensures Log.CleanEntry(evs[i].e) {
      assert Textual(said[i]);
      SaidIsClean(said[i]);
    }
    AuditSinks.RecordsAllPresent(h, evs);
    AuditSinks.LifetimeAgrees(h, evs);
    assert AuditSinks.Lifetime(h, evs).entries == seq(|said|, i requires 0 <= i < |said| => EntryOf(said[i]));
    if kept < |said| { AuditSinks.TruncationDetected(h, evs, kept); }
  }

  lemma {:induction false} SaidIsClean(s: Said)
    requires Textual(s)
    ensures Log.CleanEntry(EntryOf(s))
  {
    CleanedIsClean(s.key, s.op, s.subject, s.decision);
  }

  class Session {
    const h: Hash
    const key: string
    const l5: Engine
    const sink: AuditSinks.AuditSink?
    const ledger: Consent.ConsentLedger?
    /** How far the disk lets the record of the i-th event go. */
    const reach: nat -> AuditSinks.Point

    var caps: Caps
    var trail: seq<Event>
    var broken: bool
    var mailboxes: map<string, seq<Msg>>
    var bootstrap: Option<Ref>
    var reduced: bool

    ghost var stored: seq<bool>
    ghost var deliveries: seq<Delivery>
    ghost var effects: seq<Effect>

    ghost function View(): State
      reads this
    {
      State(key, caps, trail, stored, sink != null, broken, mailboxes, deliveries, effects, bootstrap, reduced, l5)
    }

    ghost function D(): Disk
    {
      (i: nat) => reach(i) == AuditSinks.Finished
    }

    ghost function Book(): Option<Consent.Ledger>
      reads ledger
    {
      if ledger == null then None else Some(ledger.View())
    }

    ghost function Now(): Snap
      reads this`trail, sink
    {
      Snap(if sink == null then None else Some(sink.Now()), trail)
    }

    /** From `a` to `b` the session sent its new events, and no others, to the sink, in order. */
    ghost predicate Followed(a: Snap, b: Snap)
    {
      && a.trail <= b.trail
      && (sink != null ==>
           && a.sink.Some? && b.sink.Some?
           && b.sink.value == Flushed(sink.h, a.sink.value, key, b.trail, |a.trail|, reach))
    }

    lemma FollowedOn(a: Snap, b: Snap, c: Snap)
      requires Followed(a, b) && Followed(b, c)
      ensures Followed(a, c)
    {
      hide Flushed;
      if sink != null { FlushedOn(sink.h, a.sink.value, key, b.trail, c.trail, |a.trail|, reach); }
    }

    lemma FollowedSame()
      ensures Followed(Now(), Now())
    {
    }

    ghost predicate Valid()
      reads ledger
    {
      ledger != null ==> Consent.Sound(ledger.View())
    }

    constructor (h: Hash, key: string, l5: Engine, sink: AuditSinks.AuditSink?, ledger: Consent.ConsentLedger?,
                 reach: nat -> AuditSinks.Point)
      ensures View() == NewSession(key, sink != null, l5)
      ensures this.h == h && this.sink == sink && this.ledger == ledger && this.reach == reach
    {
      this.h, this.key, this.l5, this.sink, this.ledger, this.reach := h, key, l5, sink, ledger, reach;
      caps, trail, broken, mailboxes, bootstrap, reduced := map[], [], false, map[], None, false;
      stored, deliveries, effects := [], [], [];
    }

    /** `audit`: remember the event, then append it, cleaned, to the shared log. */
    method AuditEvent(op: string, subject: string, decision: string) returns (ok: bool)
      modifies this`trail, this`stored, this`broken, sink
      ensures Followed(old(Now()), Now())
      ensures View() == Audit(old(View()), D(), op, subject, decision)
      ensures ok == RecordOk(old(View()), D())
    {
      var i := |trail|;
      trail := trail + [Event(op, subject, decision)];
      ok := true;
      if sink != null {
        ok := sink.Record(Cleaned(key, op, subject, decision), reach(i));
        if !ok { broken := true; }
      }
      stored := stored + [ok];
    }

    /** `gate`: `ans` is what the ledger said, if it was asked or could have been. */
    method CheckGate(verb: string, r: Ref, parts: seq<string>, detail: string)
      returns (stop: Option<Reply>, ghost ans: Option<Consent.Outcome>)
      requires Valid()
      modifies this`trail, this`stored, this`broken, sink, ledger
      ensures Followed(old(Now()), Now())
      ensures Valid()
      ensures (View(), stop) == Gate(old(View()), D(), verb, r, ans)
      ensures Asked(h, key, Decide(l5, verb) == Prompt, parts, detail, old(Book()), ans, Book())
    {
      ans := None;
      stop := None;
      match Decide(l5, verb)
      case Allow =>
      case Deny =>
        var _ := AuditEvent("policy.deny", r, "deny");
        stop := Some(Fail);
      case Prompt =>
        if ledger == null { return Some(Fail), None; }
        var sig := Consent.ActionSig(h, parts);
        var o := ledger.RequestOrCheck(sig, key, detail);
        ans := Some(o);
        match o
        case Granted => var _ := AuditEvent("policy.consent", r, "approved");
        case Refused =>
          var _ := AuditEvent("policy.consent", r, "denied");
          stop := Some(Fail);
        case Waiting(id) =>
          var _ := AuditEvent("policy.consent", r, "pending");
          stop := Some(NeedsConsent(id));
    }

    method AuditIntent(k: EffectKind, r: Ref) returns (stop: Option<Reply>)
      modifies this`trail, this`stored, this`broken, sink
      ensures Followed(old(Now()), Now())
      ensures (View(), stop) == Intend(old(View()), D(), k, r)
    {
      var ok := AuditEvent(IntentOp(k), r, "attempt");
      stop := if ok then None else Some(Fail);
    }

    /** The gate, then the intent: what stands before every governed effect. */
    method Prepare(verb: string, k: EffectKind, r: Ref, parts: seq<string>, detail: string)
      returns (stop: Option<Reply>, ghost ans: Option<Consent.Outcome>)
      requires Valid()
      modifies this`trail, this`stored, this`broken, sink, ledger
      ensures Followed(old(Now()), Now())
      ensures Valid()
      ensures (View(), stop) == Before(old(View()), D(), verb, k, r, ans)
      ensures Asked(h, key, Decide(l5, verb) == Prompt, parts, detail, old(Book()), ans, Book())
    {
      hide Gate, Intend, Decide, Asked, Book, Consent.Sound, Followed, Now;
      ghost var a := Now();
      stop, ans := CheckGate(verb, r, parts, detail);
      if stop == None {
        ghost var b := Now();
        stop := AuditIntent(k, r);
        FollowedOn(a, b, Now());
      }
    }

    method RegisterCap(id: Ref, c: Cap, op: string) returns (reply: Reply)
      requires CanInsert(caps, id, c)
      modifies this`caps, this`trail, this`stored, this`broken, sink
      ensures Followed(old(Now()), Now())
      ensures (View(), reply) == Register(old(View()), D(), id, c, op)
    {
      caps := Insert(caps, id, c);
      var _ := AuditEvent(op, id, "allow");
      reply := CapIs(id);
    }

    method Active(r: Ref) returns (c: Option<Cap>)
      ensures c == GetActive(View(), r)
    {
      if broken { return None; }
      if !IsActive(caps, r) { return None; }
      c := Some(caps[r]);
    }

    // ---- minting and attenuating ----

    method GrantDir(id: Ref, root: string, ops: seq<Op>, taint: Taint, openOk: bool) returns (reply: Reply)
      requires id !in caps
      modifies this`caps, this`trail, this`stored, this`broken, sink
      ensures Followed(old(Now()), Now())
      ensures (View(), reply) == GrantDirOp(old(View()), D(), id, root, ops, taint, openOk)
    {
      if !openOk { return Fail; }
      reply := RegisterCap(id, BlankCap(Dir).(root := root, ops := ops, taint := taint, anchored := true), "grant_dir");
    }

    method GrantSink(id: Ref) returns (reply: Reply)
      requires id !in caps
      modifies this`caps, this`trail, this`stored, this`broken, sink
      ensures Followed(old(Now()), Now())
      ensures (View(), reply) == GrantSinkOp(old(View()), D(), id)
    {
      reply := RegisterCap(id, BlankCap(Sink), "grant_sink");
    }

    method GrantMessage(id: Ref, mailbox: string) returns (reply: Reply)
      requires id !in caps && mailbox !in mailboxes
      modifies this`caps, this`trail, this`stored, this`broken, this`mailboxes, sink
      ensures Followed(old(Now()), Now())
      ensures (View(), reply) == GrantMessageOp(old(View()), D(), id, mailbox)
    {
      mailboxes := mailboxes[mailbox := []];
      reply := RegisterCap(id, BlankCap(Message).(msg := Some(MsgSpec(mailbox, "", false, true))), "grant_message");
    }

    method GrantCommand(id: Ref, cwd: Ref, argv: seq<string>) returns (reply: Reply)
      requires id !in caps
      modifies this`caps, this`trail, this`stored, this`broken, sink
      ensures Followed(old(Now()), Now())
      ensures (View(), reply) == GrantCommandOp(old(View()), D(), id, cwd, argv)
    {
      var c := Active(cwd);
      if c == None || c.value.kind != Dir { return Fail; }
      reply := RegisterCap(id, BlankCap(Command).(root := c.value.root, ops := [Exec], taint := Yellow,
                                                  argv := argv, anchored := c.value.anchored), "grant_cmd");
    }

    method GrantHttp(id: Ref, origin: string, spec: HttpSpec, hostOk: bool) returns (reply: Reply)
      requires id !in caps
      modifies this`caps, this`trail, this`stored, this`broken, sink
      ensures Followed(old(Now()), Now())
      ensures (View(), reply) == GrantHttpOp(old(View()), D(), id, origin, spec, hostOk)
    {
      if reduced {
        var _ := AuditEvent("grant_http", id, "deny:mitigation_reduced");
        return Fail;
      }
      if !hostOk { return Fail; }
      reply := RegisterCap(id, BlankCap(Http).(root := origin, taint := External, http := Some(spec)), "grant_http");
    }

    method DeriveSub(id: Ref, r: Ref, seg: string, openOk: bool) returns (reply: Reply)
      requires id !in caps
      modifies this`caps, this`trail, this`stored, this`broken, sink
      ensures Followed(old(Now()), Now())
      ensures (View(), reply) == DeriveSubOp(old(View()), D(), id, r, seg, openOk)
    {
      var c := Active(r);
      if c == None || c.value.kind != Dir || !c.value.anchored || !openOk { return Fail; }
      var root := Paths.SafeJoin(c.value.root, seg);
      if root == None { return Fail; }
      reply := RegisterCap(id, BlankCap(Dir).(root := root.value, ops := c.value.ops, taint := c.value.taint,
                                              anchored := true, parent := Some(r)), "derive_sub");
    }

    method DeriveReadonly(id: Ref, r: Ref) returns (reply: Reply)
      requires id !in caps
      modifies this`caps, this`trail, this`stored, this`broken, sink
      ensures Followed(old(Now()), Now())
      ensures (View(), reply) == DeriveReadonlyOp(old(View()), D(), id, r)
    {
      var c := Active(r);
      if c == None { return Fail; }
      var child := BlankCap(c.value.kind).(root := c.value.root, ops := [Op.Read, Op.List], taint := c.value.taint,
                                           anchored := c.value.anchored, parent := Some(r));
      reply := RegisterCap(id, child, "derive_readonly");
    }

    method DeriveMsg(id: Ref, r: Ref, add: string, oneShot: bool) returns (reply: Reply)
      requires id !in caps
      modifies this`caps, this`trail, this`stored, this`broken, sink
      ensures Followed(old(Now()), Now())
      ensures (View(), reply) == DeriveMsgOp(old(View()), D(), id, r, add, oneShot)
    {
      var c := Active(r);
      if c == None || c.value.msg == None { return Fail; }
      var m := c.value.msg.value;
      reply := RegisterCap(id, BlankCap(Message).(msg := Some(MsgSpec(m.mailbox, m.prefix + add, oneShot, false)),
                                                  parent := Some(r)), "derive_message");
    }

    // ---- reading ----

    method ReadFile(r: Ref, rel: string, data: Option<string>) returns (reply: Reply)
      modifies this`trail, this`stored, this`broken, sink
      ensures Followed(old(Now()), Now())
      ensures (View(), reply) == ReadOp(old(View()), D(), r, rel, data)
    {
      var res := ReadInnerOf(r, rel, data);
      var audited := AuditEvent("read", r, Word(res.Some?));
      if res == None || !audited { return Fail; }
      reply := Data(res.value.0, res.value.1);
    }

    method ReadInnerOf(r: Ref, rel: string, data: Option<string>) returns (res: Option<(Taint, string)>)
      ensures res == ReadInner(View(), r, rel, data)
    {
      var c := Active(r);
      if c == None || Op.Read !in c.value.ops { return None; }
      if Paths.SafeJoin(c.value.root, rel) == None || !c.value.anchored || data == None { return None; }
      var taint := if Paths.IsSecretPath(c.value.root + "/" + rel) then Secret else c.value.taint;
      res := Some((taint, data.value));
    }

    method ListDir(r: Ref, rel: string, names: Option<string>) returns (reply: Reply)
      modifies this`trail, this`stored, this`broken, sink
      ensures Followed(old(Now()), Now())
      ensures (View(), reply) == ListOp(old(View()), D(), r, rel, names)
    {
      var c := Active(r);
      var ok := c.Some? && Op.List in c.value.ops && Paths.SafeJoin(c.value.root, rel).Some? && c.value.anchored
                && names.Some?;
      var audited := AuditEvent("list", r, Word(ok));
      if !ok || !audited { return Fail; }
      reply := Data(Project, names.value);
    }

    // ---- mailboxes ----

    /** `post_bytes`. */
    method PostBytes(r: Ref, subject: string, taint: Taint, body: string, literal: bool) returns (done: bool)
      modifies this`caps, this`mailboxes, this`deliveries, this`effects
      ensures done <==> Deliver(old(View()), r, subject, taint, body, literal).Some?
      ensures View() == if done then Deliver(old(View()), r, subject, taint, body, literal).value else old(View())
    {
      hide IsActive, SetRevoked, WellFounded;
      ghost var want := Deliver(View(), r, subject, taint, body, literal);
      var c := Active(r);
      if c == None || c.value.msg == None || taint == Secret { return false; }
      var m := c.value.msg.value;
      if !(m.prefix <= subject) || m.mailbox !in mailboxes { return false; }
      var letter := Msg(subject, body, taint, key);
      mailboxes := mailboxes[m.mailbox := mailboxes[m.mailbox] + [letter]];
      deliveries := deliveries + [Delivery(r, m.mailbox, letter, literal)];
      effects := effects + [Effect(Posted, r, |trail|)];
      if m.oneShot { caps := SetRevoked(caps, r); }
      assert want == Some(View());
      done := true;
    }

    /** `post_literal_owner_only`. */
    method PostLiteral(r: Ref, subject: string, body: string) returns (done: bool)
      modifies this`caps, this`mailboxes, this`deliveries, this`effects
      ensures done <==> LiteralPost(old(View()), r, subject, body).Some?
      ensures View() == if done then LiteralPost(old(View()), r, subject, body).value else old(View())
    {
      hide Deliver;
      var c := Active(r);
      done := false;
      if c.Some? && c.value.msg.Some? && c.value.msg.value.canReceive {
        done := PostBytes(r, subject, Green, body, true);
      }
    }

    /** The reading and the delivery of `post_from`. */
    method PostForwarded(r: Ref, subject: string, src: Ref, rel: string, data: Option<string>) returns (done: bool)
      modifies this`caps, this`mailboxes, this`deliveries, this`effects
      ensures done <==> ForwardedPost(old(View()), r, subject, src, rel, data).Some?
      ensures View() == if done then ForwardedPost(old(View()), r, subject, src, rel, data).value else old(View())
    {
      hide Deliver, ReadInner;
      var got := ReadInnerOf(src, rel, data);
      done := false;
      if got.Some? { done := PostBytes(r, subject, got.value.0, got.value.1, false); }
    }

    method Post(r: Ref, subject: string, body: string, detail: string)
      returns (reply: Reply, ghost ans: Option<Consent.Outcome>)
      requires Valid()
      modifies this`caps, this`mailboxes, this`deliveries, this`effects, this`trail, this`stored, this`broken, sink,
        ledger
      ensures Followed(old(Now()), Now())
      ensures Valid() && (View(), reply) == PostOp(old(View()), D(), r, subject, body, ans)
      ensures Asked(h, key, l5.promptPost, ["post", r, subject, h(body)], detail, old(Book()), ans, Book())
    {
      hide Before, Decide, Asked, Book, Consent.Sound, Audit, RecordOk, CanRun, CanFetch, Happened,
        LiteralPost, ForwardedPost, Followed, Now;
      ghost var start := Now();
      assert Decide(l5, "post") == Prompt <==> l5.promptPost by { PolicyIsFlags(l5); }
      var stop;
      stop, ans := Prepare("post", Posted, r, ["post", r, subject, h(body)], detail);
      ghost var ready := Now();
      if stop.Some? { return stop.value, ans; }
      var done := PostLiteral(r, subject, body);
      var _ := AuditEvent("post.result", r, Word(done));
      FollowedOn(start, ready, Now());
      reply := if done then Done else Fail;
    }

    method PostFrom(r: Ref, subject: string, src: Ref, rel: string, data: Option<string>, detail: string)
      returns (reply: Reply, ghost ans: Option<Consent.Outcome>)
      requires Valid()
      modifies this`caps, this`mailboxes, this`deliveries, this`effects, this`trail, this`stored, this`broken, sink,
        ledger
      ensures Followed(old(Now()), Now())
      ensures Valid() && (View(), reply) == PostFromOp(old(View()), D(), r, subject, src, rel, data, ans)
      ensures Asked(h, key, l5.promptPost, ["post_from", r, subject, src, rel], detail, old(Book()), ans, Book())
    {
      hide Before, Decide, Asked, Book, Consent.Sound, Audit, RecordOk, CanRun, CanFetch, Happened,
        LiteralPost, ForwardedPost, Followed, Now;
      ghost var start := Now();
      assert Decide(l5, "post_from") == Prompt <==> l5.promptPost by { PolicyIsFlags(l5); }
      var stop;
      stop, ans := Prepare("post_from", Posted, r, ["post_from", r, subject, src, rel], detail);
      ghost var ready := Now();
      if stop.Some? { return stop.value, ans; }
      var done := PostForwarded(r, subject, src, rel, data);
      var _ := AuditEvent("post.result", r, Word(done));
      FollowedOn(start, ready, Now());
      reply := if done then Done else Fail;
    }

    method MailboxRead(r: Ref) returns (reply: Reply)
      modifies this`trail, this`stored, this`broken, sink
      ensures Followed(old(Now()), Now())
      ensures (View(), reply) == MailboxReadOp(old(View()), D(), r)
    {
      var c := Active(r);
      if c == None || c.value.msg == None || !c.value.msg.value.canReceive { return Fail; }
      var box := c.value.msg.value.mailbox;
      var out := if box in mailboxes then mailboxes[box] else [];
      var audited := AuditEvent("mailbox_read", r, "allow");
      reply := if audited then Mail(out) else Fail;
    }

    // ---- effects ----

    /** `exec_i`: checks the capability and starts the command. */
    method Start(r: Ref) returns (runs: bool)
      modifies this`effects
      ensures runs == CanRun(old(View()), r)
      ensures View() == if runs then Happened(old(View()), Ran, r) else old(View())
    {
      var c := Active(r);
      runs := c.Some? && Exec in c.value.ops && c.value.argv != [] && c.value.anchored;
      if runs { effects := effects + [Effect(Ran, r, |trail|)]; }
    }

    method Run(r: Ref, output: Option<string>, detail: string)
      returns (reply: Reply, ghost ans: Option<Consent.Outcome>)
      requires Valid()
      modifies this`effects, this`trail, this`stored, this`broken, sink, ledger
      ensures Followed(old(Now()), Now())
      ensures Valid() && (View(), reply) == ExecOp(old(View()), D(), r, output, ans)
      ensures Asked(h, key, l5.promptExec && !l5.denyExec, ["exec", r], detail, old(Book()), ans, Book())
    {
      hide Before, Decide, Asked, Book, Consent.Sound, Audit, RecordOk, CanRun, CanFetch, Happened,
        LiteralPost, ForwardedPost, Followed, Now;
      ghost var start := Now();
      assert Decide(l5, "exec") == Prompt <==> l5.promptExec && !l5.denyExec by { PolicyIsFlags(l5); }
      var stop;
      stop, ans := Prepare("exec", Ran, r, ["exec", r], detail);
      ghost var ready := Now();
      if stop.Some? { return stop.value, ans; }
      var runs := Start(r);
      var ok := runs && output.Some?;
      var _ := AuditEvent("exec.result", r, Word(ok));
      FollowedOn(start, ready, Now());
      reply := if ok then Data(Yellow, output.value) else Fail;
    }

    method Send(r: Ref, taint: Taint) returns (reply: Reply)
      modifies this`effects, this`trail, this`stored, this`broken, sink
      ensures Followed(old(Now()), Now())
      ensures (View(), reply) == SendOp(old(View()), D(), r, taint)
    {
      hide Audit, RecordOk, Followed, Now;
      ghost var start := Now();
      var stop := AuditIntent(Sent, r);
      ghost var ready := Now();
      if stop.Some? { return stop.value; }
      var c := Active(r);
      var ok := c.Some? && c.value.kind == Sink && taint != Secret;
      if ok { effects := effects + [Effect(Sent, r, |trail|)]; }
      var _ := AuditEvent("send.result", r, Word(ok));
      FollowedOn(start, ready, Now());
      reply := if ok then Done else Fail;
    }

    /** `http_get_i`, up to the request being sent. */
    method Fetch(r: Ref, path: string, resolved: bool) returns (sends: bool)
      modifies this`effects
      ensures sends == CanFetch(old(View()), r, path, resolved)
      ensures View() == if sends then Happened(old(View()), Fetched, r) else old(View())
    {
      hide HttpAllowed;
      var c := Active(r);
      sends := c.Some? && c.value.http.Some? && HttpAllowed(c.value.http.value, path) && resolved;
      if sends { effects := effects + [Effect(Fetched, r, |trail|)]; }
    }

    method HttpGet(r: Ref, path: string, resolved: bool, response: Option<string>, detail: string)
      returns (reply: Reply, ghost ans: Option<Consent.Outcome>)
      requires Valid()
      modifies this`effects, this`trail, this`stored, this`broken, sink, ledger
      ensures Followed(old(Now()), Now())
      ensures Valid() && (View(), reply) == HttpGetOp(old(View()), D(), r, path, resolved, response, ans)
      ensures Asked(h, key, l5.promptHttp, ["http_get", r, path], detail, old(Book()), ans, Book())
    {
      hide Before, Decide, Asked, Book, Consent.Sound, Audit, RecordOk, CanRun, CanFetch, Happened,
        LiteralPost, ForwardedPost, Followed, Now;
      ghost var start := Now();
      assert Decide(l5, "http_get") == Prompt <==> l5.promptHttp by { PolicyIsFlags(l5); }
      var stop;
      stop, ans := Prepare("http_get", Fetched, r, ["http_get", r, path], detail);
      ghost var ready := Now();
      if stop.Some? { return stop.value, ans; }
      var sends := Fetch(r, path, resolved);
      var ok := sends && response.Some?;
      var _ := AuditEvent("http.result", r, Word(ok));
      FollowedOn(start, ready, Now());
      reply := if ok then Data(External, response.value) else Fail;
    }

    // ---- revoking, mitigation, bootstrap ----

    method Revoke(r: Ref) returns (reply: Reply)
      modifies this`caps, this`trail, this`stored, this`broken, sink
      ensures Followed(old(Now()), Now())
      ensures (View(), reply) == RevokeOp(old(View()), D(), r)
    {
      var known := r in caps;
      if known { caps := SetRevoked(caps, r); }
      var _ := AuditEvent("revoke", r, if known then "allow" else "deny");
      reply := if known then Done else Fail;
    }

    /** `set_mitigation_reduced`: collect the egress capabilities, then revoke them one by one. */
    method SetMitigation(flag: bool) returns (reply: Reply, ghost order: seq<Ref>)
      modifies this`caps, this`trail, this`stored, this`broken, this`reduced, sink
      ensures Followed(old(Now()), Now())
      ensures forall r :: r in order <==> ToRevoke(old(caps), r)
      ensures (View(), reply) == SetMitigationOp(old(View()), D(), flag, order)
    {
      hide Followed, Now, RevokeOp;
      ghost var first := Now();
      var egress := set r | r in caps && !caps[r].revoked && (caps[r].kind == Http || caps[r].kind == Message);
      reduced := flag;
      order := [];
      if flag {
        order := RevokeAll(egress);
      } else {
        order := SomeOrder(egress);
        FollowedSame();
      }
      ghost var last := Now();
      var _ := AuditEvent("mitigation", if flag then "reduced" else "full", "allow");
      FollowedOn(first, last, Now());
      reply := Done;
    }

    /** The loop of a downgrade: one revocation after another, in some order. */
    method RevokeAll(refs: set<Ref>) returns (ghost order: seq<Ref>)
      modifies this`caps, this`trail, this`stored, this`broken, sink
      ensures Followed(old(Now()), Now())
      ensures forall r :: r in order <==> r in refs
      ensures View() == RevokeEach(old(View()), D(), order)
    {
      hide Followed, Now, RevokeOp;
      order := [];
      var left := refs;
      FollowedSame();
      while left != {}
        invariant forall r :: r in order || r in left <==> r in refs
        invariant View() == RevokeEach(old(View()), D(), order)
        invariant Followed(old(Now()), Now())
        decreases left
      {
        var r :| r in left;
        ghost var before := Now();
        RevokeEachSnoc(old(View()), D(), order, r);
        var _ := Revoke(r);
        FollowedOn(old(Now()), before, Now());
        order := order + [r];
        left := left - {r};
      }
    }

    method SetBootstrap(id: Ref, workspace: string, openOk: bool) returns (reply: Reply)
      requires id !in caps
      modifies this`caps, this`trail, this`stored, this`broken, this`bootstrap, sink
      ensures Followed(old(Now()), Now())
      ensures (View(), reply) == SetBootstrapOp(old(View()), D(), id, workspace, openOk)
    {
      var g := GrantDir(id, workspace, [Op.Read, Op.List], Project, openOk);
      bootstrap := if g.CapIs? then Some(g.r) else None;
      reply := Done;
    }

    /** `consent_approve` and `consent_deny`: the ledger decides, the session audits. */
    method Settle(id: string, approve: bool) returns (reply: Reply, ghost summary: Option<string>)
      requires Valid()
      modifies this`trail, this`stored, this`broken, sink, ledger
      ensures Followed(old(Now()), Now())
      ensures Valid() && (View(), reply) == SettleOp(old(View()), D(), id, approve, ledger != null, summary)
      ensures Settled(id, approve, old(Book()), summary, Book())
    {
      if ledger == null { return Fail, None; }
      hide Audit, Consent.Decided, Consent.CanDecide, Consent.Sound;
      var s: Option<string>;
      if approve { s := ledger.Approve(id); } else { s := ledger.Deny(id); }
      var _ := AuditEvent(if approve then "consent.approve" else "consent.deny", id, Word(s.Some?));
      summary := s;
      reply := if s.Some? then Text(s.value) else Fail;
    }

    method TakeBootstrap() returns (reply: Reply)
      modifies this`bootstrap
      ensures Followed(old(Now()), Now())
      ensures (View(), reply) == TakeBootstrapOp(old(View()))
    {
      reply := if bootstrap.Some? then CapIs(bootstrap.value) else Fail;
      bootstrap := None;
    }
  }

  lemma {:induction false} RevokeEachSnoc(st: State, d: Disk, order: seq<Ref>, r: Ref)
    ensures RevokeEach(st, d, order + [r]) == RevokeOp(RevokeEach(st, d, order), d, r).0
    decreases |order|
  {
    hide RevokeOp;
    if order == [] {
      assert ([] + [r])[1..] == [];
    } else {
      assert (order + [r])[1..] == order[1..] + [r];
      RevokeEachSnoc(RevokeOp(st, d, order[0]).0, d, order[1..], r);
    }
  }

  /** Some listing of a finite set. */
  ghost function SomeOrder(s: set<Ref>): (order: seq<Ref>)
    ensures forall r :: r in order <==> r in s
  {
    if s == {} then []
    else
      var r :| r in s;
      [r] + SomeOrder(s - {r})
  }
}
