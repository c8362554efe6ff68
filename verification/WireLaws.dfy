/**
 What the words on the wire mean. Requests as a client prints them are planned as those requests,
 field for field; and an approver's words carry through to what passes a gate.
 */
module WireLaws {
  import opened Text
  import opened Registry
  import opened Broker
  import opened Wire
  import Sessions
  import Worlds
  import Base64
  import Consent
  import Stores
  import BrokerRuns

  // ---- printing ----

  function OpName(op: Op): string
  {
    match op
    case Read => "read"
    case Write => "write"
    case Delete => "delete"
    case List => "list"
    case Exec => "exec"
  }

  function OpNames(ops: seq<Op>): (r: seq<string>)
    ensures |r| == |ops|
  {
    seq(|ops|, i requires 0 <= i < |ops| => OpName(ops[i]))
  }

  predicate IsBytes(s: string) { forall i :: 0 <= i < |s| ==> s[i] as int < 256 }

  function BytesOf(s: string): (b: seq<Base64.byte>)
    requires IsBytes(s)
    ensures |b| == |s|
  {
    seq(|s|, i requires 0 <= i < |s| => s[i] as int)
  }

  /** What a client says besides the request itself: labels, an address, numbers, the data of a send. */
  datatype Extra = Extra(tag: string, host: string, port: nat, max: nat, data: seq<Base64.byte>)

  /** The fields of a request, as the shell's client and the other clients of the wire write them. */
  function FieldsOf(q: Request, x: Extra): seq<string>
    requires q.Post? ==> IsBytes(q.body)
  {
    match q
    case GrantDir(_, root, ops, taint, _) => ["GRANT_DIR", root, Join(OpNames(ops), ","), TaintName(taint)]
    case GrantSink(_) => ["GRANT_SINK", x.tag]
    case GrantMessage(_, _) => ["GRANT_MSG", x.tag]
    case GrantCommand(_, cwd, argv) => ["GRANT_CMD", cwd, Join(argv, [US])]
    case GrantHttp(_, _, spec, _) =>
      ["GRANT_HTTP", spec.scheme, x.host, Dec(x.port), Join(spec.methods, ","), Join(spec.paths, [US]), Dec(x.max)]
    case DeriveSub(_, r, seg, _) => ["DERIVE", r, "sub", seg]
    case DeriveReadonly(_, r) => ["DERIVE", r, "readonly"]
    case DeriveMsg(_, r, add, oneShot) =>
      if oneShot then ["DERIVE", r, "msg_oneshot"] else ["DERIVE", r, "msg_prefix", add]
    case ReadFile(r, rel, _) => ["INVOKE", r, "read", rel]
    case ListDir(r, rel, _) => ["INVOKE", r, "list", rel]
    case RunCommand(r, _, _) => ["INVOKE", r, "exec"]
    case HttpGet(r, path, _, _, _) => ["INVOKE", r, "http_get", path]
    case Send(r, taint) => ["INVOKE", r, "send", TaintName(taint), Base64.Encode(x.data)]
    case Post(r, subject, body, _) => ["INVOKE", r, "post", subject, Base64.Encode(BytesOf(body))]
    case PostFrom(r, subject, src, rel, _, _) => ["INVOKE", r, "post_from", subject, src, rel]
    case MailboxRead(r) => ["INVOKE", r, "mailbox_read"]
    case Revoke(r) => ["REVOKE", r]
    case TakeBootstrap => ["BOOTSTRAP"]
    case _ => [""]
  }

  function Print(q: Request, x: Extra): string
    requires q.Post? ==> IsBytes(q.body)
  {
    Join(FieldsOf(q, x), "\t")
  }

  predicate NoTab(s: string) { '\t' !in s }

  /** Texts that can be list items on the wire. */
  predicate Items(items: seq<string>, sep: char)
  {
    forall i :: 0 <= i < |items| ==> NoTab(items[i]) && sep !in items[i]
  }

  /** Requests a client can print: no tab in a text, and list items that can be told apart. */
  predicate Printable(q: Request, x: Extra)
  {
    && NoTab(x.tag) && NoTab(x.host) && x.port < 0x1_0000
    && match q
      case GrantDir(_, root, _, _, _) => NoTab(root)
      case GrantSink(_) => true
      case GrantMessage(_, _) => true
      case GrantCommand(_, cwd, argv) =>
        NoTab(cwd) && Items(argv, US) && forall i :: 0 <= i < |argv| ==> argv[i] != ""
      case GrantHttp(_, _, spec, _) =>
        && NoTab(spec.scheme) && spec.methods != [] && spec.paths != []
        && Items(spec.methods, ',') && Items(spec.paths, US)
        && forall i :: 0 <= i < |spec.methods| ==> Upper(Trim(spec.methods[i])) == spec.methods[i]
      case DeriveSub(_, r, seg, _) => NoTab(r) && NoTab(seg)
      case DeriveReadonly(_, r) => NoTab(r)
      case DeriveMsg(_, r, add, oneShot) => NoTab(r) && NoTab(add) && (oneShot ==> add == "")
      case ReadFile(r, rel, _) => NoTab(r) && NoTab(rel)
      case ListDir(r, rel, _) => NoTab(r) && NoTab(rel)
      case RunCommand(r, _, _) => NoTab(r)
      case HttpGet(r, path, _, _, _) => NoTab(r) && NoTab(path)
      case Send(r, _) => NoTab(r)
      case Post(r, subject, body, _) => NoTab(r) && NoTab(subject) && IsBytes(body)
      case PostFrom(r, subject, src, rel, _, _) => NoTab(r) && NoTab(subject) && NoTab(src) && NoTab(rel)
      case MailboxRead(r) => NoTab(r)
      case Revoke(r) => NoTab(r)
      case TakeBootstrap => true
      case _ => false
  }

  /** What the request does not say itself comes from outside; the ledger has not answered yet. */
  predicate Supplied(q: Request, w: World)
  {
    match q
    case GrantDir(id, _, _, _, openOk) => id == w.id && openOk == w.openOk
    case GrantSink(id) => id == w.id
    case GrantMessage(id, mailbox) => id == w.id && mailbox == w.mailbox
    case GrantCommand(id, _, _) => id == w.id
    case GrantHttp(id, origin, _, hostOk) => id == w.id && origin == w.origin && hostOk == w.hostOk
    case DeriveSub(id, _, _, openOk) => id == w.id && openOk == w.openOk
    case DeriveReadonly(id, _) => id == w.id
    case DeriveMsg(id, _, _, _) => id == w.id
    case ReadFile(_, _, data) => data == w.data
    case ListDir(_, _, names) => names == w.data
    case RunCommand(_, output, ledger) => output == w.data && ledger == None
    case HttpGet(_, _, resolved, response, ledger) => resolved == w.resolved && response == w.data && ledger == None
    case Post(_, _, _, ledger) => ledger == None
    case PostFrom(_, _, _, _, data, ledger) => data == w.data && ledger == None
    case _ => true
  }

  // ---- fields that carry lists and data ----

  lemma TrimName(op: Op)
    ensures Trim(OpName(op)) == OpName(op) && OpOf(OpName(op)) == Some(op) && NoTab(OpName(op)) && ',' !in OpName(op)
  {
    hide Trim, OpOf;
    var s := OpName(op);
    assert s[..1] == [s[0]] && s[|s| - 1..] == [s[|s| - 1]];
    assert 'a' <= s[0] <= 'z' && 'a' <= s[|s| - 1] <= 'z';
    TrimAscii(s);
    NameReads(op);
  }

  lemma NameReads(op: Op)
    ensures OpOf(OpName(op)) == Some(op)
  {
  }

  lemma {:induction false} OpsBack(ops: seq<Op>)
    ensures OpsOf(OpNames(ops)) == ops
  {
    hide OpName, OpOf, Trim;
    if ops != [] {
      TrimName(ops[0]);
      assert OpNames(ops)[1..] == OpNames(ops[1..]);
      OpsBack(ops[1..]);
      assert [ops[0]] + ops[1..] == ops;
    }
  }

  lemma {:induction false} OpsRead(ops: seq<Op>)
    ensures OpsOf(Split(Join(OpNames(ops), ","), ',')) == ops && NoTab(Join(OpNames(ops), ","))
  {
    hide OpName, OpOf, Trim;
    forall i | 0 <= i < |ops| ensures NoTab(OpNames(ops)[i]) && ',' !in OpNames(ops)[i] { TrimName(ops[i]); }
    NoTabJoin(OpNames(ops), ",");
    if ops == [] {
      NoOps();
    } else {
      SplitJoin(OpNames(ops), ',');
      assert Join(OpNames(ops), ",") == Join(OpNames(ops), [',']);
      OpsBack(ops);
    }
  }

  lemma NoOps()
    ensures Split("", ',') == [""] && OpsOf([""]) == []
  {
    assert Trim("") == "";
    assert [""][1..] == [];
  }

  lemma {:induction false} NoTabJoin(parts: seq<string>, sep: string)
    requires NoTab(sep) && forall i :: 0 <= i < |parts| ==> NoTab(parts[i])
    ensures NoTab(Join(parts, sep))
  {
    if |parts| > 1 { NoTabJoin(parts[1..], sep); }
  }

  lemma {:induction false} ListBack(items: seq<string>, sep: char)
    requires Items(items, sep) && sep != '\t'
    ensures NoTab(Join(items, [sep]))
    ensures Split(Join(items, [sep]), sep) == if items == [] then [""] else items
  {
    NoTabJoin(items, [sep]);
    if items != [] { SplitJoin(items, sep); } else { assert Split("", sep) == [""]; }
  }

  lemma {:induction false} NonEmptyItems(items: seq<string>)
    requires forall i :: 0 <= i < |items| ==> items[i] != ""
    ensures NonEmpty(items) == items && NonEmpty([""]) == []
  {
    assert [""][1..] == [];
    if items != [] {
      NonEmptyItems(items[1..]);
      assert [items[0]] + items[1..] == items;
    }
  }

  lemma {:induction false} MethodsBack(methods: seq<string>)
    requires forall i :: 0 <= i < |methods| ==> Upper(Trim(methods[i])) == methods[i]
    ensures MethodsOf(methods) == methods
  {
    hide Upper, Trim;
  }

  lemma {:induction false} DataNoTab(data: seq<Base64.byte>)
    ensures NoTab(Base64.Encode(data))
  {
    hide Base64.Encode, Base64.Bytes, Base64.Vals;
    Base64.BytesOfEncode(data);
    assert Base64.Val('\t') == None;
  }

  lemma {:induction false} BodyBack(body: string)
    requires IsBytes(body)
    ensures BodyOf(Base64.Encode(BytesOf(body))) == body
  {
    hide Base64.Encode, Base64.ChunkedDecode, Base64.NoPad;
    Base64.RoundTrip(BytesOf(body));
  }

  lemma TaintBack(t: Taint)
    ensures ParseTaint(TaintName(t)) == t && NoTab(TaintName(t))
  {
  }

  lemma {:induction false} DecNoTab(n: nat)
    ensures NoTab(Dec(n))
  {
    hide Dec;
    assert forall i :: 0 <= i < |Dec(n)| ==> IsDigit(Dec(n)[i]);
  }

  // ---- every verb ----

  lemma {:induction false} GrantPlanned(q: Request, x: Extra, w: World)
    requires Printable(q, x) && Supplied(q, w) && (q.GrantDir? || q.GrantSink? || q.GrantMessage? || q.GrantCommand?)
    ensures PlanOf(Control, FieldsOf(q, x), w) == Ask(q)
  {
    hide OpsOf, Split, Join, ParseTaint, TaintName, NonEmpty, PlanDerive, PlanInvoke, PlanConsent, OpNames;
    match q
    case GrantDir(_, _, ops, taint, _) =>
      OpsRead(ops);
      TaintBack(taint);
    case GrantSink(_) =>
    case GrantMessage(_, _) =>
    case GrantCommand(_, _, argv) =>
      ListBack(argv, US);
      NonEmptyItems(argv);
  }

  lemma {:induction false} HttpPlanned(q: Request, x: Extra, w: World)
    requires Printable(q, x) && Supplied(q, w) && q.GrantHttp?
    ensures PlanOf(Control, FieldsOf(q, x), w) == Ask(q)
  {
    hide Split, Join, MethodsOf, ParseU64, Dec, PlanOf, Upper, Trim;
    ParseOfDec(x.port);
    ListBack(q.spec.methods, ',');
    assert Join(q.spec.methods, ",") == Join(q.spec.methods, [',']);
    ListBack(q.spec.paths, US);
    MethodsBack(q.spec.methods);
    HttpFields(FieldsOf(q, x), x.port, w);
  }

  lemma {:induction false} HttpFields(f: seq<string>, port: nat, w: World)
    requires |f| == 7 && f[0] == "GRANT_HTTP" && ParseU64(f[3]) == Some(port) && port < 0x1_0000
    ensures PlanOf(Control, f, w)
         == Ask(GrantHttp(w.id, w.origin, HttpSpec(f[1], MethodsOf(Split(f[4], ',')), Split(f[5], US)), w.hostOk))
  {
    hide Split, MethodsOf, ParseU64, PlanDerive, PlanInvoke, PlanConsent, NonEmpty, OpsOf, ParseTaint;
  }

  lemma {:induction false} DerivePlanned(role: Role, q: Request, x: Extra, w: World)
    requires Printable(q, x) && Supplied(q, w) && (q.DeriveSub? || q.DeriveReadonly? || q.DeriveMsg?)
    ensures PlanOf(role, FieldsOf(q, x), w) == Ask(q)
  {
    hide PlanGrant, PlanInvoke, PlanConsent;
  }

  lemma {:induction false} LookPlanned(role: Role, q: Request, x: Extra, w: World)
    requires Printable(q, x) && Supplied(q, w)
    requires q.ReadFile? || q.ListDir? || q.MailboxRead? || q.RunCommand? || q.HttpGet? || q.Revoke? || q.TakeBootstrap?
    ensures PlanOf(role, FieldsOf(q, x), w) == Ask(q)
  {
    hide PlanGrant, PlanDerive, PlanConsent, BodyOf, ParseTaint;
  }

  lemma {:induction false} SayPlanned(role: Role, q: Request, x: Extra, w: World)
    requires Printable(q, x) && Supplied(q, w) && (q.Send? || q.Post? || q.PostFrom?)
    ensures PlanOf(role, FieldsOf(q, x), w) == Ask(q)
  {
    hide PlanGrant, PlanDerive, PlanConsent, BodyOf, ParseTaint, TaintName, Base64.Encode;
    if q.Send? { TaintBack(q.taint); }
    if q.Post? { BodyBack(q.body); }
  }

  predicate NoTabs(f: seq<string>) { f != [] && forall i :: 0 <= i < |f| ==> NoTab(f[i]) }

  lemma {:induction false} GrantFields(q: Request, x: Extra)
    requires Printable(q, x) && (q.GrantDir? || q.GrantSink? || q.GrantMessage? || q.GrantCommand?)
    ensures NoTabs(FieldsOf(q, x))
  {
    hide Join, OpNames, TaintName;
    if q.GrantDir? {
      OpsRead(q.ops);
      TaintBack(q.taint);
    }
    if q.GrantCommand? { ListBack(q.argv, US); }
  }

  lemma {:induction false} HttpFieldsNoTab(q: Request, x: Extra)
    requires Printable(q, x) && q.GrantHttp?
    ensures NoTabs(FieldsOf(q, x))
  {
    hide Join, Dec, Upper, Trim;
    DecNoTab(x.port);
    DecNoTab(x.max);
    ListBack(q.spec.methods, ',');
    assert Join(q.spec.methods, ",") == Join(q.spec.methods, [',']);
    ListBack(q.spec.paths, US);
  }

  lemma {:induction false} UseFields(q: Request, x: Extra)
    requires Printable(q, x)
    requires !q.GrantDir? && !q.GrantSink? && !q.GrantMessage? && !q.GrantCommand? && !q.GrantHttp?
    ensures NoTabs(FieldsOf(q, x))
  {
    hide TaintName, Base64.Encode;
    if q.Send? {
      TaintBack(q.taint);
      DataNoTab(x.data);
    }
    if q.Post? { DataNoTab(BytesOf(q.body)); }
  }

  lemma {:induction false} FieldsHaveNoTab(q: Request, x: Extra)
    requires Printable(q, x)
    ensures (q.Post? ==> IsBytes(q.body)) && NoTabs(FieldsOf(q, x))
  {
    hide NoTabs, FieldsOf;
    if q.GrantHttp? {
      HttpFieldsNoTab(q, x);
    } else if q.GrantDir? || q.GrantSink? || q.GrantMessage? || q.GrantCommand? {
      GrantFields(q, x);
    } else {
      UseFields(q, x);
    }
  }

  /**
   The wire round trip: every request a client prints is planned, in the control role, as exactly
   that request, field for field; in the guest role as well, unless it mints.
   */
  lemma {:induction false} PlannedAsPrinted(role: Role, q: Request, x: Extra, w: World)
    requires Printable(q, x) && Supplied(q, w)
    ensures
      var minting := q.GrantDir? || q.GrantSink? || q.GrantMessage? || q.GrantCommand? || q.GrantHttp?;
      PlanOf(role, Split(Print(q, x), '\t'), w) == if role == Guest && minting then Refuse else Ask(q)
  {
    hide PlanOf, FieldsOf, Printable, Supplied;
    FieldsHaveNoTab(q, x);
    SplitJoin(FieldsOf(q, x), '\t');
    assert Join(FieldsOf(q, x), "\t") == Join(FieldsOf(q, x), ['\t']);
    if q.DeriveSub? || q.DeriveReadonly? || q.DeriveMsg? {
      DerivePlanned(role, q, x, w);
    } else if q.Send? || q.Post? || q.PostFrom? {
      SayPlanned(role, q, x, w);
    } else if q.GrantDir? || q.GrantSink? || q.GrantMessage? || q.GrantCommand? || q.GrantHttp? {
      if role == Guest { GuestMintRefused(q, x, w); }
      else if q.GrantHttp? { HttpPlanned(q, x, w); }
      else { GrantPlanned(q, x, w); }
    } else {
      KindsLeft(q, x);
      LookPlanned(role, q, x, w);
    }
  }

  lemma KindsLeft(q: Request, x: Extra)
    requires Printable(q, x) && !q.DeriveSub? && !q.DeriveReadonly? && !q.DeriveMsg?
    requires !q.Send? && !q.Post? && !q.PostFrom?
    requires !q.GrantDir? && !q.GrantSink? && !q.GrantMessage? && !q.GrantCommand? && !q.GrantHttp?
    ensures q.ReadFile? || q.ListDir? || q.MailboxRead? || q.RunCommand? || q.HttpGet? || q.Revoke? || q.TakeBootstrap?
  {
  }

  lemma {:induction false} GuestMintRefused(q: Request, x: Extra, w: World)
    requires q.GrantDir? || q.GrantSink? || q.GrantMessage? || q.GrantCommand? || q.GrantHttp?
    ensures PlanOf(Guest, FieldsOf(q, x), w) == Refuse
  {
    hide Join, OpNames, TaintName, Dec, PlanGrant, PlanDerive, PlanInvoke, PlanConsent;
  }

  // ---- an approver's words, through to the gates ----

  /** The move is what these words ask for in the control role. */
  ghost predicate Says(mv: Worlds.Move, body: string)
  {
    mv.Ask? && exists w: World, a: Answer ::
      PlanOf(Control, Split(body, '\t'), w).Ask? && mv.q == WithAnswer(PlanOf(Control, Split(body, '\t'), w).q, a)
  }

  lemma {:induction false} SaysSettle(mv: Worlds.Move, id: string)
    requires NoTab(id)
    ensures Says(mv, "CONSENT_APPROVE\t" + id) ==> mv.q.Settle? && mv.q.id == id && mv.q.approve
    ensures Says(mv, "CONSENT_DENY\t" + id) ==> mv.q.Settle? && mv.q.id == id && !mv.q.approve
  {
    hide PlanOf;
    assert "CONSENT_APPROVE" + "\t" == "CONSENT_APPROVE\t" && "CONSENT_DENY" + "\t" == "CONSENT_DENY\t";
    ConsentFields("CONSENT_APPROVE", id);
    ConsentFields("CONSENT_DENY", id);
    forall w: World ensures PlanOf(Control, ["CONSENT_APPROVE", id], w) == Ask(Settle(id, true, false, None)) {
      ConsentPlans(id, w);
    }
    forall w: World ensures PlanOf(Control, ["CONSENT_DENY", id], w) == Ask(Settle(id, false, false, None)) {
      ConsentPlans(id, w);
    }
  }

  /** A move asks the gate about the key of a request in the ledger. */
  ghost predicate AsksKey(c: Worlds.Setup, w: Worlds.World, mv: Worlds.Move, req: Consent.Req)
  {
    && mv.Ask? && mv.key in w.sessions && PromptsFor(w.sessions[mv.key].l5, mv.q)
    && mv.key == req.session && Consent.Sig(c.h, Sessions.PartsOf(c.h, mv.q)) == req.sig
  }

  /** What a move can do to the ledger: nothing, or one of its steps. */
  lemma {:induction false} MoveIsLedgerStep(c: Worlds.Setup, w: Worlds.World, mv: Worlds.Move, w2: Worlds.World)
    returns (ev: Consent.Event)
    requires Worlds.Moves(c, w, mv, w2)
    ensures w2.consent == w.consent || Consent.Step(c.h, w.consent, ev, w2.consent)
    ensures w2.consent != w.consent && ev.Gate? ==>
      && mv.Ask? && mv.key in w.sessions && PromptsFor(w.sessions[mv.key].l5, mv.q) && ev.session == mv.key
      && ev.parts == Sessions.PartsOf(c.h, mv.q)
  {
    hide Step, Fresh, Sessions.PartsOf, Consent.GateStep, Consent.Step, Worlds.RecordOf;
    ev := Consent.Event.Deny("");
    if mv.Ask? && Sessions.IsGoverned(mv.q) {
      if w2.consent != w.consent {
        var parts := Sessions.PartsOf(c.h, mv.q);
        Worlds.GateIsStep(c.h, w.consent, mv.key, parts, mv.detail, mv.q.ledger.value, w2.consent);
        ev := Consent.Gate(mv.key, parts, mv.detail);
      }
    } else if mv.Ask? && mv.q.Settle? {
      ev := if mv.q.approve then Consent.Event.Approve(mv.q.id) else Consent.Event.Deny(mv.q.id);
    }
  }

  /** What an approver's move leaves in the ledger. */
  lemma {:induction false} SettleMove(c: Worlds.Setup, w: Worlds.World, mv: Worlds.Move, w2: Worlds.World)
    requires Worlds.Moves(c, w, mv, w2) && mv.Ask? && mv.q.Settle? && c.ledger
    ensures w2.consent.ledger
         == Consent.Decided(w.consent.ledger, mv.q.id, if mv.q.approve then Consent.Approved else Consent.Denied)
  {
    hide Step, Fresh, Worlds.RecordOf;
  }

  lemma {:induction false} DeniedMove(c: Worlds.Setup, w: Worlds.World, mv: Worlds.Move, w2: Worlds.World, id: string)
    requires Worlds.Moves(c, w, mv, w2) && Worlds.LedgerOk(c.h, w.consent) && id in w.consent.ledger.reqs
    ensures w.consent.ledger.reqs[id].status == Consent.Denied ==>
      id in w2.consent.ledger.reqs && w2.consent.ledger.reqs[id] == w.consent.ledger.reqs[id]
  {
    hide Worlds.Moves, Consent.Inv, Consent.Step, Consent.Balanced;
    var ev := MoveIsLedgerStep(c, w, mv, w2);
    if w2.consent != w.consent {
      Known(c.h, w.consent, id);
      Consent.StepKeepsIds(c.h, w.consent, ev, w2.consent, id);
    }
  }

  lemma Known(h: Hash, w: Consent.World, id: string)
    requires Consent.Inv(h, w) && id in w.ledger.reqs
    ensures id in w.asked && Consent.Sound(w.ledger)
  {
  }

  lemma {:induction false} ApprovedMove(c: Worlds.Setup, w: Worlds.World, mv: Worlds.Move, w2: Worlds.World, id: string)
    requires Worlds.Moves(c, w, mv, w2) && Worlds.LedgerOk(c.h, w.consent) && id in w.consent.ledger.reqs
    requires !AsksKey(c, w, mv, w.consent.ledger.reqs[id])
    ensures w.consent.ledger.reqs[id].status == Consent.Approved ==>
      id in w2.consent.ledger.reqs && w2.consent.ledger.reqs[id] == w.consent.ledger.reqs[id]
  {
    hide Worlds.Moves, Consent.Inv, Consent.Step, Consent.Balanced, Consent.Sig, Sessions.PartsOf, PromptsFor;
    var ev := MoveIsLedgerStep(c, w, mv, w2);
    if w2.consent != w.consent { Consent.StepKeepsApproved(c.h, w.consent, ev, w2.consent, id); }
  }

  lemma {:induction false} DeniedLasts(c: Worlds.Setup, run: Worlds.Run, m: nat, n: nat, id: string)
    requires Worlds.ValidRun(c, run) && m <= n <= |run.moves| && id in run.worlds[m].consent.ledger.reqs
    requires run.worlds[m].consent.ledger.reqs[id].status == Consent.Denied
    ensures id in run.worlds[n].consent.ledger.reqs
    ensures run.worlds[n].consent.ledger.reqs[id] == run.worlds[m].consent.ledger.reqs[id]
    decreases n - m
  {
    hide Worlds.Moves, Worlds.SessionsOk, Worlds.RecordsOk, Worlds.LedgerOk;
    if m < n {
      DeniedLasts(c, run, m, n - 1, id);
      Worlds.RunOk(c, run, n - 1);
      Worlds.RunMove(c, run, n - 1);
      DeniedMove(c, run.worlds[n - 1], run.moves[n - 1], run.worlds[n], id);
    }
  }

  lemma {:induction false} ApprovedLasts(c: Worlds.Setup, run: Worlds.Run, m: nat, n: nat, id: string)
    requires Worlds.ValidRun(c, run) && m <= n <= |run.moves| && id in run.worlds[m].consent.ledger.reqs
    requires run.worlds[m].consent.ledger.reqs[id].status == Consent.Approved
    requires forall k :: m <= k < n ==> !AsksKey(c, run.worlds[k], run.moves[k], run.worlds[m].consent.ledger.reqs[id])
    ensures id in run.worlds[n].consent.ledger.reqs
    ensures run.worlds[n].consent.ledger.reqs[id] == run.worlds[m].consent.ledger.reqs[id]
    decreases n - m
  {
    hide Worlds.Moves, Worlds.SessionsOk, Worlds.RecordsOk, Worlds.LedgerOk, AsksKey;
    if m < n {
      ApprovedLasts(c, run, m, n - 1, id);
      Worlds.RunOk(c, run, n - 1);
      Worlds.RunMove(c, run, n - 1);
      ApprovedMove(c, run.worlds[n - 1], run.moves[n - 1], run.worlds[n], id);
    }
  }

  /** What the gate of a request's key gives, by the request's status. */
  lemma {:induction false} KeyedMove(c: Worlds.Setup, w: Worlds.World, mv: Worlds.Move, w2: Worlds.World, id: string)
    requires Worlds.Moves(c, w, mv, w2) && Worlds.LedgerOk(c.h, w.consent) && c.ledger && id in w.consent.ledger.reqs
    requires AsksKey(c, w, mv, w.consent.ledger.reqs[id])
    ensures
      var req, parts := w.consent.ledger.reqs[id], Sessions.PartsOf(c.h, mv.q);
      && (req.status == Consent.Denied ==>
            mv.q.ledger == Some(Consent.Refused) && w2.consent.ledger == w.consent.ledger
            && w2.consent.passes == w.consent.passes)
      && (req.status == Consent.Approved ==>
            mv.q.ledger == Some(Consent.Granted) && w2.consent.ledger.reqs == w.consent.ledger.reqs - {id}
            && w2.consent.passes == w.consent.passes + multiset{Consent.Action(mv.key, parts)})
  {
    hide Step, Fresh, Worlds.RecordOf, Consent.Sig, Sessions.PartsOf, Consent.GateStep, Consent.Inv, Consent.Balanced;
    Known(c.h, w.consent, id);
    Consent.ApprovedGatePasses(c.h, w.consent, mv.key, Sessions.PartsOf(c.h, mv.q), mv.detail, mv.q.ledger.value,
                               w2.consent, id);
  }

  /**
   A denial is final, from the words on the wire to the effects: after `CONSENT_DENY` of a pending
   request no later request of that key and session passes or does anything, in any run.
   */
  lemma {:induction false} WireDenialIsFinal(c: Worlds.Setup, run: Worlds.Run, m: nat, n: nat, id: string)
    requires Worlds.ValidRun(c, run) && c.ledger && m < n < |run.moves| && NoTab(id)
    requires Says(run.moves[m], "CONSENT_DENY\t" + id) && Consent.CanDecide(run.worlds[m].consent.ledger, id)
    requires AsksKey(c, run.worlds[n], run.moves[n], run.worlds[m].consent.ledger.reqs[id])
    ensures
      var key, before, after := run.moves[n].key, run.worlds[n], run.worlds[n + 1];
      && run.moves[n].q.ledger == Some(Consent.Refused)
      && after.consent.passes == before.consent.passes && after.consent.ledger == before.consent.ledger
      && key in after.sessions && after.sessions[key].effects == before.sessions[key].effects
  {
    hide Worlds.Moves, Worlds.SessionsOk, Worlds.RecordsOk, Worlds.LedgerOk, AsksKey, Says;
    hide Sessions.PartsOf;
    SaysSettle(run.moves[m], id);
    assert run.moves[m].Ask? by { SaysAsks(run.moves[m], "CONSENT_DENY\t" + id); }
    Worlds.RunMove(c, run, m);
    SettleMove(c, run.worlds[m], run.moves[m], run.worlds[m + 1]);
    DeniedLasts(c, run, m + 1, n, id);
    Worlds.RunOk(c, run, n);
    Worlds.RunMove(c, run, n);
    var was := run.worlds[m].consent.ledger.reqs[id];
    KeyOnly(c, run.worlds[n], run.moves[n], was, run.worlds[n].consent.ledger.reqs[id]);
    KeyedMove(c, run.worlds[n], run.moves[n], run.worlds[n + 1], id);
    NoEffect(c, run.worlds[n], run.moves[n], run.worlds[n + 1], was);
  }

  lemma SaysAsks(mv: Worlds.Move, body: string)
    requires Says(mv, body)
    ensures mv.Ask?
  {
  }

  /** A request's key does not depend on its status. */
  lemma KeyOnly(c: Worlds.Setup, w: Worlds.World, mv: Worlds.Move, a: Consent.Req, b: Consent.Req)
    requires a.sig == b.sig && a.session == b.session
    ensures AsksKey(c, w, mv, a) <==> AsksKey(c, w, mv, b)
  {
    hide Consent.Sig, Sessions.PartsOf, PromptsFor;
  }

  /** A prompted request that was not granted does nothing. */
  lemma {:induction false} NoEffect(c: Worlds.Setup, w: Worlds.World, mv: Worlds.Move, w2: Worlds.World,
                                    req: Consent.Req)
    requires Worlds.Moves(c, w, mv, w2) && AsksKey(c, w, mv, req)
    ensures mv.Ask? && mv.key in w.sessions && mv.key in w2.sessions
    ensures mv.q.ledger != Some(Consent.Granted) ==> w2.sessions[mv.key].effects == w.sessions[mv.key].effects
  {
    hide PromptsFor, Worlds.LedgerMoves, Step, Fresh, Consent.Sig, Sessions.PartsOf;
    Worlds.AskMove(c, w, mv, w2);
    Worlds.EffectWasGranted(w.sessions[mv.key], Worlds.DiskOf(c, mv.key), mv.q);
  }

  /**
   An approval lets exactly one request pass, from the words on the wire to the gate: after
   `CONSENT_APPROVE` of a pending request the next request of that key and session is granted, and
   with that the approved request is gone.
   */
  lemma {:induction false} WireApprovalPassesOnce(c: Worlds.Setup, run: Worlds.Run, m: nat, n: nat, id: string)
    requires Worlds.ValidRun(c, run) && c.ledger && m < n < |run.moves| && NoTab(id)
    requires Says(run.moves[m], "CONSENT_APPROVE\t" + id) && Consent.CanDecide(run.worlds[m].consent.ledger, id)
    requires AsksKey(c, run.worlds[n], run.moves[n], run.worlds[m].consent.ledger.reqs[id])
    requires forall k :: m < k < n ==> !AsksKey(c, run.worlds[k], run.moves[k], run.worlds[m].consent.ledger.reqs[id])
    ensures
      var mv, before, after := run.moves[n], run.worlds[n].consent, run.worlds[n + 1].consent;
      && mv.q.ledger == Some(Consent.Granted) && id !in after.ledger.reqs
      && after.passes == before.passes + multiset{Consent.Action(mv.key, Sessions.PartsOf(c.h, mv.q))}
  {
    hide Worlds.Moves, Worlds.SessionsOk, Worlds.RecordsOk, Worlds.LedgerOk, AsksKey, Says, Sessions.PartsOf;
    SaysSettle(run.moves[m], id);
    assert run.moves[m].Ask? by { SaysAsks(run.moves[m], "CONSENT_APPROVE\t" + id); }
    Worlds.RunMove(c, run, m);
    SettleMove(c, run.worlds[m], run.moves[m], run.worlds[m + 1]);
    var was, now := run.worlds[m].consent.ledger.reqs[id], run.worlds[m + 1].consent.ledger.reqs[id];
    forall k | m + 1 <= k < n ensures !AsksKey(c, run.worlds[k], run.moves[k], now) {
      KeyOnly(c, run.worlds[k], run.moves[k], was, now);
    }
    ApprovedLasts(c, run, m + 1, n, id);
    Worlds.RunOk(c, run, n);
    Worlds.RunMove(c, run, n);
    KeyOnly(c, run.worlds[n], run.moves[n], was, run.worlds[n].consent.ledger.reqs[id]);
    KeyedMove(c, run.worlds[n], run.moves[n], run.worlds[n + 1], id);
  }
}
