/**
 Just-in-time consent (`policy.rs`, with `gate` and `action_sig` of `lib.rs`): one ledger,
 shared under a lock by every session and by the approvers. An action is named by the hash of
 a length-delimited encoding of its parameters; an approval lets it through once.
 */
module Consent {
  import opened Text

  // ---- action signatures ----

  /** Each parameter as a bar, its byte length, a colon and itself. */
  function Delimited(parts: seq<string>): string
  {
    if parts == [] then ""
    else "|" + Dec(|parts[0]|) + ":" + parts[0] + Delimited(parts[1..])
  }

  function Encode(parts: seq<string>): string { "capsig:v1" + Delimited(parts) }

  function Sig(h: Hash, parts: seq<string>): string { h(Encode(parts)) }

  lemma {:induction false} DelimitedSnoc(parts: seq<string>, p: string)
    ensures Delimited(parts + [p]) == Delimited(parts) + "|" + Dec(|p|) + ":" + p
  {
    if parts == [] {
      assert parts + [p] == [p];
      assert [p][1..] == [];
      assert Delimited([p]) == "|" + Dec(|p|) + ":" + p + "";
    } else {
      assert (parts + [p])[1..] == parts[1..] + [p];
      DelimitedSnoc(parts[1..], p);
    }
  }

  /** `action_sig`, the loop of the source. */
  method ActionSig(h: Hash, parts: seq<string>) returns (sig: string)
    ensures sig == Sig(h, parts)
  {
    var s := "capsig:v1";
    for i := 0 to |parts|
      invariant s == Encode(parts[..i])
    {
      assert parts[..i + 1] == parts[..i] + [parts[i]];
      DelimitedSnoc(parts[..i], parts[i]);
      s := s + "|";
      s := s + Dec(|parts[i]|);
      s := s + ":";
      s := s + parts[i];
    }
    assert parts[..|parts|] == parts;
    sig := h(s);
  }

  lemma {:induction false} FirstFieldUnique(x: string, a: string, y: string, b: string, c: char)
    requires c !in x && c !in y && x + [c] + a == y + [c] + b
    ensures x == y && a == b
  {
    if x == "" || y == "" {
      assert (x + [c] + a)[0] == (y + [c] + b)[0];
      assert x == "" ==> (x + [c] + a)[0] == c;
      assert y == "" ==> (y + [c] + b)[0] == c;
      assert a == (x + [c] + a)[1..] && b == (y + [c] + b)[1..];
    } else {
      assert x[0] == (x + [c] + a)[0] == (y + [c] + b)[0] == y[0];
      assert (x + [c] + a)[1..] == x[1..] + [c] + a;
      assert (y + [c] + b)[1..] == y[1..] + [c] + b;
      FirstFieldUnique(x[1..], a, y[1..], b, c);
      assert x == [x[0]] + x[1..] && y == [y[0]] + y[1..];
    }
  }

  /** The encoding has no field-boundary ambiguity: it determines the whole parameter list. */
  lemma {:induction false} DelimitedInjective(a: seq<string>, b: seq<string>)
    requires Delimited(a) == Delimited(b)
    ensures a == b
  {
    if a != [] && b != [] {
      hide Delimited;
      HeadField(a, b);
      DelimitedInjective(a[1..], b[1..]);
      assert a == [a[0]] + a[1..] && b == [b[0]] + b[1..];
    }
  }

  lemma {:induction false} HeadField(a: seq<string>, b: seq<string>)
    requires a != [] && b != [] && Delimited(a) == Delimited(b)
    ensures a[0] == b[0] && Delimited(a[1..]) == Delimited(b[1..])
  {
    hide Delimited, Dec;
    var ra, rb := a[0] + Delimited(a[1..]), b[0] + Delimited(b[1..]);
    DelimitedHead(a);
    DelimitedHead(b);
    NoColon(|a[0]|);
    NoColon(|b[0]|);
    FirstFieldUnique(Dec(|a[0]|), ra, Dec(|b[0]|), rb, ':');
    DecInjective(|a[0]|, |b[0]|);
    assert a[0] == ra[..|a[0]|] && b[0] == rb[..|b[0]|];
    assert Delimited(a[1..]) == ra[|a[0]|..] && Delimited(b[1..]) == rb[|b[0]|..];
  }

  lemma {:induction false} DelimitedHead(a: seq<string>)
    requires a != []
    ensures Delimited(a) != "" && Delimited(a)[1..] == Dec(|a[0]|) + [':'] + (a[0] + Delimited(a[1..]))
  {
    hide Dec;
    assert Delimited(a) == ['|'] + (Dec(|a[0]|) + [':'] + (a[0] + Delimited(a[1..])));
  }

  lemma {:induction false} NoColon(n: nat)
    ensures ':' !in Dec(n)
  {
    hide Dec;
    forall i | 0 <= i < |Dec(n)| ensures Dec(n)[i] != ':' { assert IsDigit(Dec(n)[i]); }
  }

  lemma {:induction false} EncodeInjective(a: seq<string>, b: seq<string>)
    requires Encode(a) == Encode(b)
    ensures a == b
  {
    hide Delimited;
    assert Encode(a)[|"capsig:v1"|..] == Delimited(a) && Encode(b)[|"capsig:v1"|..] == Delimited(b);
    DelimitedInjective(a, b);
  }

  // ---- the ledger ----

  datatype Status = Pending | Approved | Denied
  datatype Req = Req(sig: string, session: string, summary: string, status: Status)
  datatype Outcome = Granted | Waiting(id: string) | Refused

  /** `reqs` by request id, and the counter the ids are made from. */
  datatype Ledger = Ledger(reqs: map<string, Req>, last: nat)

  function IdOf(n: nat): string { "consent_" + Dec(n) }

  predicate HasKey(l: Ledger, id: string, sig: string, session: string)
  {
    id in l.reqs && l.reqs[id].sig == sig && l.reqs[id].session == session
  }

  predicate SameKey(a: Req, b: Req) { a.sig == b.sig && a.session == b.session }

  /** Keys are unique, and every id was made from a number already used. */
  ghost predicate Sound(l: Ledger)
  {
    && (forall i, j :: i in l.reqs && j in l.reqs && SameKey(l.reqs[i], l.reqs[j]) ==> i == j)
    && (forall n :: n > l.last ==> IdOf(n) !in l.reqs)
  }

  /** `request_or_check` as a relation: `l` to `l2` with the outcome. */
  ghost predicate Checked(l: Ledger, sig: string, session: string, summary: string, l2: Ledger, o: Outcome)
  {
    if exists id :: HasKey(l, id, sig, session) then
      var id :| HasKey(l, id, sig, session);
      match l.reqs[id].status
      case Approved => o == Granted && l2 == l.(reqs := l.reqs - {id})
      case Denied => o == Refused && l2 == l
      case Pending => o == Waiting(id) && l2 == l
    else
      var id := IdOf(l.last + 1);
      o == Waiting(id) && l2 == Ledger(l.reqs[id := Req(sig, session, summary, Pending)], l.last + 1)
  }

  /** `approve` and `deny`: only a pending request changes, and only its status. */
  predicate CanDecide(l: Ledger, id: string) { id in l.reqs && l.reqs[id].status == Pending }

  function Decided(l: Ledger, id: string, s: Status): Ledger
  {
    if CanDecide(l, id) then l.(reqs := l.reqs[id := l.reqs[id].(status := s)]) else l
  }

  class ConsentLedger {
    var reqs: map<string, Req>
    var last: nat

    ghost function View(): Ledger
      reads this
    {
      Ledger(reqs, last)
    }

    constructor ()
      ensures View() == Ledger(map[], 0) && Sound(View())
    {
      reqs, last := map[], 0;
    }

    /** `request_or_check`. */
    method RequestOrCheck(sig: string, session: string, summary: string) returns (o: Outcome)
      requires Sound(View())
      modifies this
      ensures Checked(old(View()), sig, session, summary, View(), o)
      ensures Sound(View())
    {
      if exists id :: id in reqs && reqs[id].sig == sig && reqs[id].session == session {
        var id :| id in reqs && reqs[id].sig == sig && reqs[id].session == session;
        assert HasKey(View(), id, sig, session);
        match reqs[id].status
        case Approved =>
          reqs := reqs - {id};
          o := Granted;
        case Denied => o := Refused;
        case Pending => o := Waiting(id);
      } else {
        IdsDistinct(last + 1);
        last := last + 1;
        var id := "consent_" + Dec(last);
        reqs := reqs[id := Req(sig, session, summary, Pending)];
        o := Waiting(id);
      }
    }

    method Approve(id: string) returns (summary: Option<string>)
      requires Sound(View())
      modifies this
      ensures View() == Decided(old(View()), id, Approved) && Sound(View())
      ensures summary == if CanDecide(old(View()), id) then Some(old(reqs[id].summary)) else None
    {
      summary := None;
      if id in reqs && reqs[id].status == Pending {
        summary := Some(reqs[id].summary);
        reqs := reqs[id := reqs[id].(status := Status.Approved)];
      }
    }

    method Deny(id: string) returns (summary: Option<string>)
      requires Sound(View())
      modifies this
      ensures View() == Decided(old(View()), id, Denied) && Sound(View())
      ensures summary == if CanDecide(old(View()), id) then Some(old(reqs[id].summary)) else None
    {
      summary := None;
      if id in reqs && reqs[id].status == Pending {
        summary := Some(reqs[id].summary);
        reqs := reqs[id := reqs[id].(status := Status.Denied)];
      }
    }
  }

  lemma {:induction false} IdsDistinct(n: nat)
    ensures forall m: nat :: IdOf(m) == IdOf(n) ==> m == n
  {
    forall m: nat | IdOf(m) == IdOf(n) ensures m == n {
      assert IdOf(m)[|"consent_"|..] == Dec(m) && IdOf(n)[|"consent_"|..] == Dec(n);
      DecInjective(m, n);
    }
  }

  // ---- every interleaving ----

  /** A session at a prompted gate, or an approver deciding. Each holds the lock while it acts. */
  datatype Event =
    | Gate(session: string, parts: seq<string>, summary: string)
    | Approve(id: string)
    | Deny(id: string)

  /** One session and one parameter list. */
  datatype Action = Action(session: string, parts: seq<string>)

  /**
   The ledger and its history: the action each id was registered for, how often each action
   passed, how often requests for it were approved, and every parameter list seen at a gate.
   */
  datatype World = World(ledger: Ledger, asked: map<string, Action>, passes: multiset<Action>,
                         approvals: multiset<Action>, seen: set<seq<string>>)

  const Start: World := World(Ledger(map[], 0), map[], multiset{}, multiset{}, {})

  /** A session's gate on a parameter list, with the ledger's outcome `o`. */
  ghost predicate GateStep(h: Hash, w: World, session: string, parts: seq<string>, summary: string, o: Outcome,
                           w2: World)
  {
    && Checked(w.ledger, Sig(h, parts), session, summary, w2.ledger, o)
    && w2.seen == w.seen + {parts}
    && w2.approvals == w.approvals
    && w2.passes == (if o == Granted then w.passes + multiset{Action(session, parts)} else w.passes)
    && w2.asked == if w2.ledger.last > w.ledger.last
                   then w.asked[IdOf(w2.ledger.last) := Action(session, parts)] else w.asked
  }

  ghost predicate Step(h: Hash, w: World, ev: Event, w2: World)
  {
    match ev
    case Gate(session, parts, summary) => exists o :: GateStep(h, w, session, parts, summary, o, w2)
    case Approve(id) =>
      && w2 == w.(ledger := Decided(w.ledger, id, Approved), approvals := w2.approvals)
      && w2.approvals == if CanDecide(w.ledger, id) && id in w.asked
                         then w.approvals + multiset{w.asked[id]} else w.approvals
    case Deny(id) => w2 == w.(ledger := Decided(w.ledger, id, Denied))
  }

  ghost predicate IsRun(h: Hash, evs: seq<Event>, ws: seq<World>)
  {
    |ws| == |evs| + 1 && ws[0] == Start && forall i :: 0 <= i < |evs| ==> Step(h, ws[i], evs[i], ws[i + 1])
  }

  /** What every reachable world satisfies. */
  ghost predicate Inv(h: Hash, w: World)
  {
    && Sound(w.ledger)
    && (forall n :: n > w.ledger.last ==> IdOf(n) !in w.asked)
    && (forall id :: id in w.ledger.reqs ==>
          && id in w.asked
          && w.asked[id].session == w.ledger.reqs[id].session
          && w.asked[id].parts in w.seen
          && w.ledger.reqs[id].sig == Sig(h, w.asked[id].parts))
  }

  /** No two of the lists seen share a signature. */
  ghost predicate Distinct(h: Hash, lists: set<seq<string>>)
  {
    forall a, b :: a in lists && b in lists && Sig(h, a) == Sig(h, b) ==> a == b
  }

  ghost predicate Outstanding(w: World, a: Action)
  {
    exists id :: id in w.ledger.reqs && id in w.asked && w.asked[id] == a && w.ledger.reqs[id].status == Approved
  }

  /** Conservation: what was approved has passed, or is waiting to pass, once each. */
  ghost predicate Balanced(w: World)
  {
    forall a :: w.approvals[a] == w.passes[a] + if Outstanding(w, a) then 1 else 0
  }

  lemma {:induction false} StepKeepsInv(h: Hash, w: World, ev: Event, w2: World)
    requires Inv(h, w) && Step(h, w, ev, w2)
    ensures Inv(h, w2) && w.seen <= w2.seen
  {
    hide Sig, IdOf;
    if ev.Gate? {
      hide Inv;
      IdsDistinct(w.ledger.last + 1);
      var id := GateCases(h, w, ev.session, ev.parts, ev.summary, w2);
      GateSound(h, w, Action(ev.session, ev.parts), ev.summary, w2, id);
    } else {
      assert w2.ledger.last == w.ledger.last && w2.asked == w.asked && w2.seen == w.seen;
      hide Inv;
      FewerRequests(h, w, w2);
    }
  }

  /** What a gate did: it used the one request with its key, `id`, or registered that new id. */
  ghost predicate Gated(h: Hash, w: World, b: Action, summary: string, w2: World, id: string)
  {
    && w2.seen == w.seen + {b.parts} && w2.approvals == w.approvals
    && if id in w.ledger.reqs then
        && HasKey(w.ledger, id, Sig(h, b.parts), b.session)
        && w2.asked == w.asked && w2.ledger.last == w.ledger.last
        && if w.ledger.reqs[id].status == Approved
           then w2.ledger.reqs == w.ledger.reqs - {id} && w2.passes == w.passes + multiset{b}
           else w2.ledger == w.ledger && w2.passes == w.passes
      else
        && id == IdOf(w.ledger.last + 1)
        && (forall x :: !HasKey(w.ledger, x, Sig(h, b.parts), b.session))
        && w2.ledger
           == Ledger(w.ledger.reqs[id := Req(Sig(h, b.parts), b.session, summary, Pending)], w.ledger.last + 1)
        && w2.asked == w.asked[id := b] && w2.passes == w.passes
  }

  /** A gate finds the one request with its key, or registers a new one under a new id. */
  lemma {:induction false} GateCases(h: Hash, w: World, session: string, parts: seq<string>, summary: string, w2: World)
    returns (id: string)
    requires Sound(w.ledger) && Step(h, w, Gate(session, parts, summary), w2)
    ensures Gated(h, w, Action(session, parts), summary, w2, id)
  {
    hide Sig, IdOf;
    var l, sig := w.ledger, Sig(h, parts);
    var o :| GateStep(h, w, session, parts, summary, o, w2);
    if exists x :: HasKey(l, x, sig, session) {
      id :| HasKey(l, id, sig, session);
      assert forall x :: HasKey(l, x, sig, session) ==> x == id;
    } else {
      id := IdOf(l.last + 1);
      assert id !in l.reqs;
    }
  }

  lemma {:induction false} GateSound(h: Hash, w: World, b: Action, summary: string, w2: World, id: string)
    requires Inv(h, w) && Gated(h, w, b, summary, w2, id)
    requires forall m: nat :: IdOf(m) == IdOf(w.ledger.last + 1) ==> m == w.ledger.last + 1
    ensures Inv(h, w2)
  {
    hide Sig, IdOf, Inv;
    if id in w.ledger.reqs {
      FewerRequests(h, w, w2);
    } else {
      NewRequest(h, w, id, Req(Sig(h, b.parts), b.session, summary, Pending), b, w2);
    }
  }

  lemma {:induction false} FewerRequests(h: Hash, w: World, w2: World)
    requires Inv(h, w) && w2.asked == w.asked && w2.ledger.last == w.ledger.last && w.seen <= w2.seen
    requires forall x :: x in w2.ledger.reqs ==>
      x in w.ledger.reqs && w2.ledger.reqs[x] == w.ledger.reqs[x].(status := w2.ledger.reqs[x].status)
    ensures Inv(h, w2)
  {
    hide Sig, IdOf;
  }

  lemma {:induction false} NewRequest(h: Hash, w: World, id: string, q: Req, b: Action, w2: World)
    requires Inv(h, w) && id !in w.ledger.reqs && id == IdOf(w.ledger.last + 1)
    requires forall m: nat :: IdOf(m) == id ==> m == w.ledger.last + 1
    requires forall x :: x in w.ledger.reqs ==> !HasKey(w.ledger, x, q.sig, q.session)
    requires w2.ledger == Ledger(w.ledger.reqs[id := q], w.ledger.last + 1) && w2.asked == w.asked[id := b]
    requires q.sig == Sig(h, b.parts) && q.session == b.session && w2.seen == w.seen + {b.parts}
    ensures Inv(h, w2)
  {
    hide Sig, IdOf;
    assert Sound(w2.ledger);
  }

  lemma {:induction false} StepKeepsBalance(h: Hash, w: World, ev: Event, w2: World)
    requires Inv(h, w) && Step(h, w, ev, w2)
    ensures Balanced(w) && Distinct(h, w2.seen) ==> Balanced(w2)
  {
    if Balanced(w) && Distinct(h, w2.seen) {
      match ev
      case Gate(session, parts, summary) =>
        var id := GateCases(h, w, session, parts, summary, w2);
        GateBalance(h, w, Action(session, parts), summary, w2, id);
      case Approve(id) => ApproveBalance(h, w, id, w2);
      case Deny(id) => SameOutstanding(w, w2);
    }
  }

  /** Requests in the ledger for one action are one request. */
  lemma {:induction false} OneRequest(h: Hash, w: World, i: string, j: string)
    requires Inv(h, w) && i in w.ledger.reqs && j in w.ledger.reqs && w.asked[i] == w.asked[j]
    ensures i == j
  {
    hide Sig, IdOf;
  }

  lemma {:induction false} ApproveBalance(h: Hash, w: World, id: string, w2: World)
    requires Inv(h, w) && Balanced(w) && Step(h, w, Approve(id), w2)
    ensures Balanced(w2)
  {
    hide Sig, IdOf;
    if CanDecide(w.ledger, id) {
      var b := w.asked[id];
      assert w2.ledger.reqs[id].status == Approved;
      assert Outstanding(w2, b);
      forall a ensures w2.approvals[a] == w2.passes[a] + if Outstanding(w2, a) then 1 else 0 {
        if Outstanding(w, a) {
          var x :| x in w.ledger.reqs && x in w.asked && w.asked[x] == a && w.ledger.reqs[x].status == Approved;
          if a == b { OneRequest(h, w, x, id); }
          assert x in w2.ledger.reqs && w2.ledger.reqs[x].status == Approved;
        }
        if Outstanding(w2, a) && a != b {
          var x :| x in w2.ledger.reqs && x in w2.asked && w2.asked[x] == a && w2.ledger.reqs[x].status == Approved;
          assert x in w.ledger.reqs && w.ledger.reqs[x].status == Approved;
        }
      }
    } else {
      assert w2 == w;
    }
  }

  lemma {:induction false} GateBalance(h: Hash, w: World, b: Action, summary: string, w2: World, id: string)
    requires Inv(h, w) && Balanced(w) && Gated(h, w, b, summary, w2, id) && Distinct(h, w2.seen)
    ensures Balanced(w2)
  {
    hide Sig, IdOf;
    if id in w.ledger.reqs && w.ledger.reqs[id].status == Approved {
      assert w.asked[id] == b;
      assert Outstanding(w, w.asked[id]);
      forall a ensures w2.approvals[a] == w2.passes[a] + if Outstanding(w2, a) then 1 else 0 {
        ConsumeOutstanding(h, w, id, w2, a);
      }
    } else {
      SameOutstanding(w, w2);
    }
  }

  /** Worlds with the same approved requests for the same actions. */
  lemma {:induction false} SameOutstanding(w: World, w2: World)
    requires forall x :: x in w.ledger.reqs && w.ledger.reqs[x].status == Approved && x in w.asked ==>
      x in w2.ledger.reqs && w2.ledger.reqs[x].status == Approved && x in w2.asked && w2.asked[x] == w.asked[x]
    requires forall x :: x in w2.ledger.reqs && w2.ledger.reqs[x].status == Approved && x in w2.asked ==>
      x in w.ledger.reqs && w.ledger.reqs[x].status == Approved && x in w.asked && w2.asked[x] == w.asked[x]
    ensures forall a :: Outstanding(w2, a) <==> Outstanding(w, a)
  {
    forall a ensures Outstanding(w2, a) <==> Outstanding(w, a) {
      if Outstanding(w, a) {
        var x :| x in w.ledger.reqs && x in w.asked && w.asked[x] == a && w.ledger.reqs[x].status == Approved;
        assert x in w2.ledger.reqs;
      }
      if Outstanding(w2, a) {
        var x :| x in w2.ledger.reqs && x in w2.asked && w2.asked[x] == a && w2.ledger.reqs[x].status == Approved;
        assert x in w.ledger.reqs;
      }
    }
  }

  lemma {:induction false} ConsumeOutstanding(h: Hash, w: World, id: string, w2: World, a: Action)
    requires Inv(h, w) && id in w.ledger.reqs && w.ledger.reqs[id].status == Approved
    requires w2.ledger.reqs == w.ledger.reqs - {id} && w2.asked == w.asked
    ensures Outstanding(w2, a) <==> Outstanding(w, a) && a != w.asked[id]
  {
    hide Sig, IdOf;
    if Outstanding(w2, a) {
      var x :| x in w2.ledger.reqs && x in w2.asked && w2.asked[x] == a && w2.ledger.reqs[x].status == Approved;
      assert x in w.ledger.reqs && x != id;
      if a == w.asked[id] { OneRequest(h, w, x, id); }
    }
    if Outstanding(w, a) && a != w.asked[id] {
      var x :| x in w.ledger.reqs && x in w.asked && w.asked[x] == a && w.ledger.reqs[x].status == Approved;
      assert x in w2.ledger.reqs;
    }
  }

  lemma {:induction false} RunInv(h: Hash, evs: seq<Event>, ws: seq<World>, n: nat)
    requires IsRun(h, evs, ws) && n <= |evs|
    ensures Inv(h, ws[n])
    ensures forall m :: 0 <= m <= n ==> ws[m].seen <= ws[n].seen
  {
    hide Step;
    if n > 0 {
      RunInv(h, evs, ws, n - 1);
      StepKeepsInv(h, ws[n - 1], evs[n - 1], ws[n]);
    }
  }

  lemma {:induction false} RunBalance(h: Hash, evs: seq<Event>, ws: seq<World>, n: nat)
    requires IsRun(h, evs, ws) && n <= |evs| && Distinct(h, ws[n].seen)
    ensures Balanced(ws[n])
  {
    if n == 0 {
      assert forall a :: !Outstanding(Start, a);
    } else {
      RunInv(h, evs, ws, n);
      RunInv(h, evs, ws, n - 1);
      RunBalance(h, evs, ws, n - 1);
      StepKeepsBalance(h, ws[n - 1], evs[n - 1], ws[n]);
    }
  }

  /**
   Consent conservation. In every interleaving of sessions and approvers, at every moment, an
   action has passed at most as often as requests for that same session and parameter list
   were approved; or two parameter lists seen at the gates are a hash collision.
   */
  lemma {:induction false} ConsentConserved(h: Hash, evs: seq<Event>, ws: seq<World>, n: nat)
    requires IsRun(h, evs, ws) && n <= |evs|
    ensures (forall a :: ws[n].passes[a] <= ws[n].approvals[a] <= ws[n].passes[a] + 1)
         || exists a, b :: a in ws[n].seen && b in ws[n].seen && a != b && Collision(h, Encode(a), Encode(b))
  {
    if Distinct(h, ws[n].seen) {
      RunBalance(h, evs, ws, n);
    } else {
      IndistinctCollide(h, ws[n].seen);
    }
  }

  /** Lists that share a signature are a digest collision, because their encodings differ. */
  lemma {:induction false} IndistinctCollide(h: Hash, lists: set<seq<string>>)
    requires !Distinct(h, lists)
    ensures exists a, b :: a in lists && b in lists && a != b && Collision(h, Encode(a), Encode(b))
  {
    hide Encode;
    var a, b :| a in lists && b in lists && Sig(h, a) == Sig(h, b) && a != b;
    if Encode(a) == Encode(b) { EncodeInjective(a, b); }
    assert Collision(h, Encode(a), Encode(b));
  }

  // ---- ids and denials ----

  lemma {:induction false} StepKeepsIds(h: Hash, w: World, ev: Event, w2: World, id: string)
    requires Inv(h, w) && Step(h, w, ev, w2) && id in w.asked
    ensures id in w2.asked && w2.asked[id] == w.asked[id]
    ensures id !in w.ledger.reqs ==> id !in w2.ledger.reqs
    ensures id in w.ledger.reqs && w.ledger.reqs[id].status == Denied ==>
              id in w2.ledger.reqs && w2.ledger.reqs[id] == w.ledger.reqs[id]
  {
    hide Sig, IdOf;
    if ev.Gate? {
      hide Step;
      var x := GateCases(h, w, ev.session, ev.parts, ev.summary, w2);
    }
  }

  /**
   Ids are never reused: an id keeps the action it was made for, and once consumed it never
   returns. A denied request stays denied in every later world.
   */
  lemma {:induction false} IdsAndDenialsLast(h: Hash, evs: seq<Event>, ws: seq<World>, m: nat, n: nat, id: string)
    requires IsRun(h, evs, ws) && m <= n <= |evs| && id in ws[m].asked
    ensures id in ws[n].asked && ws[n].asked[id] == ws[m].asked[id]
    ensures id !in ws[m].ledger.reqs ==> id !in ws[n].ledger.reqs
    ensures id in ws[m].ledger.reqs && ws[m].ledger.reqs[id].status == Denied ==>
              id in ws[n].ledger.reqs && ws[n].ledger.reqs[id] == ws[m].ledger.reqs[id]
    decreases n - m
  {
    hide Step, Inv;
    if m < n {
      IdsAndDenialsLast(h, evs, ws, m, n - 1, id);
      RunInv(h, evs, ws, n - 1);
      StepKeepsIds(h, ws[n - 1], evs[n - 1], ws[n], id);
    }
  }

  /** A denied key is refused at every later gate; nothing passes on it. */
  lemma {:induction false} DeniedKeyRefused(h: Hash, evs: seq<Event>, ws: seq<World>, m: nat, n: nat, id: string)
    requires IsRun(h, evs, ws) && m <= n < |evs|
    requires id in ws[m].ledger.reqs && ws[m].ledger.reqs[id].status == Denied
    requires evs[n].Gate? && evs[n].session == ws[m].ledger.reqs[id].session
    requires Sig(h, evs[n].parts) == ws[m].ledger.reqs[id].sig
    ensures ws[n + 1].passes == ws[n].passes && ws[n + 1].ledger == ws[n].ledger
  {
    hide Sig, IdOf;
    RunInv(h, evs, ws, m);
    RunInv(h, evs, ws, n);
    IdsAndDenialsLast(h, evs, ws, m, n, id);
    assert HasKey(ws[n].ledger, id, Sig(h, evs[n].parts), evs[n].session);
    assert Step(h, ws[n], evs[n], ws[n + 1]);
  }

  // ---- an approval lets exactly one request pass ----

  /** A prompted request puts its action to the ledger under this key. */
  predicate KeyedAs(h: Hash, ev: Event, q: Req)
  {
    ev.Gate? && ev.session == q.session && Sig(h, ev.parts) == q.sig
  }

  lemma {:induction false} StepKeepsApproved(h: Hash, w: World, ev: Event, w2: World, id: string)
    requires Inv(h, w) && Step(h, w, ev, w2) && id in w.ledger.reqs
    ensures w.ledger.reqs[id].status == Approved && !KeyedAs(h, ev, w.ledger.reqs[id]) ==>
      id in w2.ledger.reqs && w2.ledger.reqs[id] == w.ledger.reqs[id]
  {
    hide Sig, IdOf, Inv;
    assert Sound(w.ledger) by { InvParts(h, w); }
    if ev.Gate? {
      hide Step;
      var x := GateCases(h, w, ev.session, ev.parts, ev.summary, w2);
      NextIdIsNew(w.ledger);
    }
  }

  lemma InvParts(h: Hash, w: World)
    requires Inv(h, w)
    ensures Sound(w.ledger)
  {
  }

  lemma NextIdIsNew(l: Ledger)
    requires Sound(l)
    ensures IdOf(l.last + 1) !in l.reqs
  {
    hide IdOf;
  }

  /** The gate of an approved request passes, once: the request is gone with it. */
  lemma {:induction false} ApprovedGatePasses(h: Hash, w: World, session: string, parts: seq<string>, summary: string,
                                              o: Outcome, w2: World, id: string)
    requires Sound(w.ledger) && GateStep(h, w, session, parts, summary, o, w2)
    requires HasKey(w.ledger, id, Sig(h, parts), session)
    ensures w.ledger.reqs[id].status == Approved ==>
      && o == Granted && w2.ledger.reqs == w.ledger.reqs - {id} && w2.ledger.last == w.ledger.last
      && w2.passes == w.passes + multiset{Action(session, parts)}
    ensures w.ledger.reqs[id].status == Denied ==> o == Refused && w2.ledger == w.ledger && w2.passes == w.passes
    ensures w.ledger.reqs[id].status == Pending ==> o == Waiting(id) && w2.ledger == w.ledger && w2.passes == w.passes
  {
    hide Sig, IdOf;
  }

  /** The first gate of a key registers it, pending, under a new id; nothing passes. */
  lemma {:induction false} FirstGateRegisters(h: Hash, w: World, session: string, parts: seq<string>, summary: string,
                                              o: Outcome, w2: World)
    requires Sound(w.ledger) && GateStep(h, w, session, parts, summary, o, w2)
    requires forall id :: !HasKey(w.ledger, id, Sig(h, parts), session)
    ensures
      && o.Waiting? && o.id !in w.ledger.reqs && w2.passes == w.passes
      && w2.ledger.reqs == w.ledger.reqs[o.id := Req(Sig(h, parts), session, summary, Pending)]
  {
    hide Sig, IdOf;
    NextIdIsNew(w.ledger);
  }

  lemma {:induction false} ApprovedLasts(h: Hash, evs: seq<Event>, ws: seq<World>, m: nat, n: nat, id: string)
    requires IsRun(h, evs, ws) && m <= n <= |evs| && id in ws[m].ledger.reqs && ws[m].ledger.reqs[id].status == Approved
    requires forall k :: m <= k < n ==> !KeyedAs(h, evs[k], ws[m].ledger.reqs[id])
    ensures id in ws[n].ledger.reqs && ws[n].ledger.reqs[id] == ws[m].ledger.reqs[id]
    decreases n - m
  {
    hide Step, Inv, Sig;
    if m < n {
      ApprovedLasts(h, evs, ws, m, n - 1, id);
      RunInv(h, evs, ws, n - 1);
      StepKeepsApproved(h, ws[n - 1], evs[n - 1], ws[n], id);
    }
  }

  /** An approver has said yes to the pending request `id`, which is for `a`. */
  function Agreed(w: World, id: string, a: Action): World
  {
    w.(ledger := Decided(w.ledger, id, Approved), approvals := w.approvals + multiset{a})
  }

  /**
   The consent round trip, from any reachable world: the first request of a new key waits, once it is
   approved the next one passes, and the one after that waits again under another id.
   */
  lemma {:induction false} ConsentRoundTrip(h: Hash, w0: World, session: string, parts: seq<string>, summary: string,
                                            o1: Outcome, w1: World, o2: Outcome, w3: World, o3: Outcome, w4: World)
    requires Inv(h, w0) && forall id :: !HasKey(w0.ledger, id, Sig(h, parts), session)
    requires GateStep(h, w0, session, parts, summary, o1, w1)
    requires o1.Waiting? ==>
      var w2 := Agreed(w1, o1.id, Action(session, parts));
      GateStep(h, w2, session, parts, summary, o2, w3) && GateStep(h, w3, session, parts, summary, o3, w4)
    ensures o1.Waiting? && o2 == Granted && w3.passes == w0.passes + multiset{Action(session, parts)}
    ensures o3.Waiting? && o3.id != o1.id && w4.passes == w3.passes
  {
    hide Sig, IdOf, Inv, GateStep;
    InvParts(h, w0);
    FirstGateRegisters(h, w0, session, parts, summary, o1, w1);
    assert Step(h, w0, Gate(session, parts, summary), w1);
    StepKeepsInv(h, w0, Gate(session, parts, summary), w1);
    InvParts(h, w1);
    var w2 := Agreed(w1, o1.id, Action(session, parts));
    ApprovedKeepsSound(w1.ledger, o1.id);
    assert HasKey(w2.ledger, o1.id, Sig(h, parts), session);
    ApprovedGatePasses(h, w2, session, parts, summary, o2, w3, o1.id);
    assert Sound(w3.ledger) by { FewerKeepsSound(w2.ledger, w3.ledger); }
    forall id ensures !HasKey(w3.ledger, id, Sig(h, parts), session) {
      if HasKey(w3.ledger, id, Sig(h, parts), session) { OneKey(w2.ledger, id, o1.id); }
    }
    FirstGateRegisters(h, w3, session, parts, summary, o3, w4);
    LastGrows(h, w0, session, parts, summary, o1, w1);
    LastGrows(h, w3, session, parts, summary, o3, w4);
    IdsDistinct(w0.ledger.last + 1);
  }

  lemma OneKey(l: Ledger, i: string, j: string)
    requires Sound(l) && i in l.reqs && j in l.reqs && SameKey(l.reqs[i], l.reqs[j])
    ensures i == j
  {
  }

  lemma ApprovedKeepsSound(l: Ledger, id: string)
    requires Sound(l) && id in l.reqs
    ensures Sound(Decided(l, id, Approved))
  {
    hide IdOf;
  }

  lemma FewerKeepsSound(l: Ledger, l2: Ledger)
    requires Sound(l) && l2.last == l.last && l2.reqs.Keys <= l.reqs.Keys
    requires forall x :: x in l2.reqs ==> l2.reqs[x] == l.reqs[x]
    ensures Sound(l2)
  {
    hide IdOf;
  }

  /** A new request takes the next number. */
  lemma LastGrows(h: Hash, w: World, session: string, parts: seq<string>, summary: string, o: Outcome, w2: World)
    requires GateStep(h, w, session, parts, summary, o, w2)
    requires forall id :: !HasKey(w.ledger, id, Sig(h, parts), session)
    ensures o == Waiting(IdOf(w.ledger.last + 1)) && w2.ledger.last == w.ledger.last + 1
  {
    hide Sig, IdOf;
  }
}
