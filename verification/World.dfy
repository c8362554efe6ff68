/**
 The whole service: sessions that come and go, one sink and one ledger shared by all of them. Every
 record is a step of its own, so the records of different sessions interleave in any order, and
 each gets as far as the disk lets it.
 */
module Worlds {
  import opened Text
  import opened Registry
  import opened Broker
  import opened Sessions
  import opened SharedSinks
  import AuditSinks
  import BrokerRuns
  import Stores
  import Effects
  import Consent
  import Log = Audit
  import Paths

  /** The digest, the sink at the start, whether there is a ledger, and how far each record gets. */
  datatype Setup = Setup(h: Hash, sink: AuditSinks.Sink, ledger: bool, reach: string -> nat -> AuditSinks.Point)

  /**
   `records`: every record so far, in order. `places[k][i]`: where among them session `k`'s event `i`
   is. A session's state runs ahead of its records by the events of one request at most; an effect
   marked `at` takes place when exactly that many of the session's events have been sent.
   */
  datatype World = World(sink: AuditSinks.Sink, consent: Consent.World, sessions: map<string, State>,
                         places: map<string, seq<nat>>, records: seq<Rec>)

  datatype Move = Enter(key: string, l5: Engine) | Ask(key: string, q: Request, detail: string) | Write(key: string)

  function DiskOf(c: Setup, key: string): Disk { (i: nat) => c.reach(key)(i) == AuditSinks.Finished }

  function RecordOf(c: Setup, key: string, trail: seq<Event>, i: nat): Rec
    requires i < |trail|
  {
    Rec(key, i, EventEntry(key, trail[i]), c.reach(key)(i))
  }

  /** A request's dealings with the shared ledger. */
  ghost predicate LedgerMoves(c: Setup, key: string, l5: Engine, q: Request, detail: string, w: Consent.World,
                              w2: Consent.World)
  {
    if IsGoverned(q) then
      if c.ledger && PromptsFor(l5, q) then
        q.ledger.Some? && Consent.GateStep(c.h, w, key, PartsOf(c.h, q), detail, q.ledger.value, w2)
      else q.ledger == None && w2 == w
    else if q.Settle? then
      && q.hasLedger == c.ledger
      && if c.ledger then
          && (q.summary.Some? <==> Consent.CanDecide(w.ledger, q.id))
          && Consent.Step(c.h, w, if q.approve then Consent.Event.Approve(q.id) else Consent.Event.Deny(q.id), w2)
        else q.summary == None && w2 == w
    else w2 == w
  }

  ghost predicate Moves(c: Setup, w: World, mv: Move, w2: World)
  {
    match mv
    case Enter(key, l5) =>
      && key !in w.sessions
      && w2 == w.(sessions := w.sessions[key := NewSession(key, true, l5)], places := w.places[key := []])
    case Ask(key, q, detail) =>
      && key in w.sessions && key in w.places && |w.places[key]| == |w.sessions[key].trail|
      && Fresh(w.sessions[key], q)
      && w2 == w.(sessions := w.sessions[key := Step(w.sessions[key], DiskOf(c, key), q).0], consent := w2.consent)
      && LedgerMoves(c, key, w.sessions[key].l5, q, detail, w.consent, w2.consent)
    case Write(key) =>
      && key in w.sessions && key in w.places && |w.places[key]| < |w.sessions[key].trail|
      && var r := RecordOf(c, key, w.sessions[key].trail, |w.places[key]|);
        w2 == w.(sink := AuditSinks.Put(c.h, w.sink, r.entry, r.point), records := w.records + [r],
                 places := w.places[key := w.places[key] + [|w.records|]])
  }

  datatype Run = Run(worlds: seq<World>, moves: seq<Move>)

  ghost predicate ValidRun(c: Setup, run: Run)
  {
    && |run.worlds| == |run.moves| + 1
    && run.worlds[0] == World(c.sink, Consent.Start, map[], map[], [])
    && forall i :: 0 <= i < |run.moves| ==> Moves(c, run.worlds[i], run.moves[i], run.worlds[i + 1])
  }

  lemma {:induction false} RunMove(c: Setup, run: Run, i: nat)
    requires ValidRun(c, run) && i < |run.moves|
    ensures Moves(c, run.worlds[i], run.moves[i], run.worlds[i + 1])
  {
    hide Moves;
  }

  // ---- what every world satisfies ----

  /** The flags of the trail are what the disk said. */
  ghost predicate FlagsOk(c: Setup, key: string, st: State)
  {
    && |st.stored| == |st.trail|
    && forall i :: 0 <= i < |st.trail| ==> (st.stored[i] <==> c.reach(key)(i) == AuditSinks.Finished)
  }

  /** The session's first events are among the records, in their order. */
  ghost predicate PlacesOk(c: Setup, key: string, trail: seq<Event>, places: seq<nat>, records: seq<Rec>)
  {
    && |places| <= |trail|
    && (forall i :: 0 <= i < |places| ==> places[i] < |records| && records[places[i]] == RecordOf(c, key, trail, i))
    && (forall i, j :: 0 <= i < j < |places| ==> places[i] < places[j])
  }

  ghost predicate SessionOk(c: Setup, key: string, st: State, places: seq<nat>, records: seq<Rec>)
  {
    && BrokerRuns.Inv(st) && st.hasSink && st.key == key && FlagsOk(c, key, st)
    && PlacesOk(c, key, st.trail, places, records)
  }

  /** Every record is some session's event. */
  ghost predicate RecordsOk(c: Setup, w: World)
  {
    forall j :: 0 <= j < |w.records| ==>
      && w.records[j].key in w.sessions && w.records[j].index < |w.sessions[w.records[j].key].trail|
      && w.records[j] == RecordOf(c, w.records[j].key, w.sessions[w.records[j].key].trail, w.records[j].index)
  }

  ghost predicate SessionsOk(c: Setup, w: World)
  {
    && w.places.Keys == w.sessions.Keys
    && forall key :: key in w.sessions ==> SessionOk(c, key, w.sessions[key], w.places[key], w.records)
  }

  ghost predicate LedgerOk(h: Hash, w: Consent.World)
  {
    Consent.Inv(h, w) && (Consent.Distinct(h, w.seen) ==> Consent.Balanced(w))
  }

  ghost predicate WorldOk(c: Setup, w: World)
  {
    w.sink == SinkAt(c.h, c.sink, w.records) && SessionsOk(c, w) && RecordsOk(c, w) && LedgerOk(c.h, w.consent)
  }

  lemma NewSessionOk(c: Setup, key: string, l5: Engine, records: seq<Rec>)
    ensures SessionOk(c, key, NewSession(key, true, l5), [], records)
  {
  }

  lemma {:induction false} AskKeepsSession(c: Setup, key: string, st: State, q: Request, places: seq<nat>,
                                           records: seq<Rec>)
    requires SessionOk(c, key, st, places, records) && Fresh(st, q)
    ensures
      var after := Step(st, DiskOf(c, key), q).0;
      && SessionOk(c, key, after, places, records) && BrokerRuns.Progress(st, after)
  {
    hide BrokerRuns.Core, BrokerRuns.HttpInv, Step, Fresh, Extends;
    var d := DiskOf(c, key);
    BrokerRuns.StepKeeps(st, d, q);
    Stores.StepAppends(st, d, q);
    var after := Step(st, d, q).0;
    forall i | 0 <= i < |after.trail| ensures after.stored[i] <==> c.reach(key)(i) == AuditSinks.Finished {
      if i < |st.trail| { assert after.stored[i] == st.stored[i]; }
    }
  }

  /** More records leave every session's places where they are. */
  lemma {:induction false} RecordsGrow(c: Setup, key: string, st: State, places: seq<nat>, records: seq<Rec>, r: Rec)
    requires SessionOk(c, key, st, places, records)
    ensures SessionOk(c, key, st, places, records + [r])
  {
    hide BrokerRuns.Inv, FlagsOk;
  }

  lemma {:induction false} WriteKeepsSession(c: Setup, key: string, st: State, places: seq<nat>, records: seq<Rec>)
    requires SessionOk(c, key, st, places, records) && |places| < |st.trail|
    ensures SessionOk(c, key, st, places + [|records|], records + [RecordOf(c, key, st.trail, |places|)])
  {
    hide BrokerRuns.Inv, FlagsOk;
  }

  lemma {:induction false} MoveKeepsSessions(c: Setup, w: World, mv: Move, w2: World)
    requires Moves(c, w, mv, w2)
    ensures SessionsOk(c, w) ==> SessionsOk(c, w2) && AllProgress(w, w2)
  {
    if SessionsOk(c, w) { MoveKeepsEach(c, w, mv, w2); }
  }

  /** Every session goes on from where it was. */
  ghost predicate AllProgress(w: World, w2: World)
  {
    forall key :: key in w.sessions ==>
      key in w2.sessions && BrokerRuns.Progress(w.sessions[key], w2.sessions[key])
  }

  lemma {:induction false} MoveKeepsEach(c: Setup, w: World, mv: Move, w2: World)
    requires SessionsOk(c, w) && Moves(c, w, mv, w2)
    ensures SessionsOk(c, w2) && AllProgress(w, w2)
  {
    hide SessionOk, LedgerMoves, Step, Fresh, BrokerRuns.Progress, RecordOf, AuditSinks.Put;
    forall key | key in w.sessions ensures BrokerRuns.Progress(w.sessions[key], w.sessions[key]) {
      StillProgress(w.sessions[key]);
    }
    match mv
    case Enter(key, l5) => NewSessionOk(c, key, l5, w.records);
    case Ask(key, q, _) => AskKeepsSession(c, key, w.sessions[key], q, w.places[key], w.records);
    case Write(key) =>
      var r := RecordOf(c, key, w.sessions[key].trail, |w.places[key]|);
      forall k | k in w2.sessions ensures SessionOk(c, k, w2.sessions[k], w2.places[k], w2.records) {
        if k == key {
          WriteKeepsSession(c, key, w.sessions[key], w.places[key], w.records);
        } else {
          RecordsGrow(c, k, w.sessions[k], w.places[k], w.records, r);
        }
      }
  }

  lemma StillProgress(st: State)
    ensures BrokerRuns.Progress(st, st)
  {
  }

  /** Trails only grow. */
  ghost predicate TrailsGrow(w: World, w2: World)
  {
    forall key :: key in w.sessions ==> key in w2.sessions && w.sessions[key].trail <= w2.sessions[key].trail
  }

  lemma {:induction false} MoveGrowsTrails(c: Setup, w: World, mv: Move, w2: World)
    requires Moves(c, w, mv, w2)
    ensures SessionsOk(c, w) ==> TrailsGrow(w, w2)
  {
    hide Moves, SessionsOk, Extends;
    MoveKeepsSessions(c, w, mv, w2);
  }

  lemma {:induction false} OldRecordsOk(c: Setup, w: World, w2: World)
    requires RecordsOk(c, w) && TrailsGrow(w, w2) && w2.records == w.records
    ensures RecordsOk(c, w2)
  {
    hide EventEntry;
    forall j | 0 <= j < |w.records|
      ensures
        var r := w.records[j];
        && r.key in w2.sessions && r.index < |w2.sessions[r.key].trail|
        && r == RecordOf(c, r.key, w2.sessions[r.key].trail, r.index)
    {
      assert w.sessions[w.records[j].key].trail <= w2.sessions[w.records[j].key].trail;
    }
  }

  lemma {:induction false} MoveKeepsRecords(c: Setup, w: World, mv: Move, w2: World)
    requires Moves(c, w, mv, w2)
    ensures RecordsOk(c, w) && SessionsOk(c, w) ==> RecordsOk(c, w2)
    ensures w.sink == SinkAt(c.h, c.sink, w.records) ==> w2.sink == SinkAt(c.h, c.sink, w2.records)
  {
    hide LedgerMoves, Step, Fresh, AuditSinks.Put, SessionsOk, EventEntry, TrailsGrow, NewSession;
    MoveGrowsTrails(c, w, mv, w2);
    if mv.Write? {
      assert w2.records[..|w.records|] == w.records;
    } else {
      hide RecordsOk;
      if RecordsOk(c, w) && SessionsOk(c, w) { OldRecordsOk(c, w, w2); }
    }
  }

  lemma {:induction false} LedgerKeeps(h: Hash, w: Consent.World, ev: Consent.Event, w2: Consent.World)
    requires Consent.Step(h, w, ev, w2)
    ensures LedgerOk(h, w) ==> LedgerOk(h, w2) && w.seen <= w2.seen
  {
    hide Consent.Inv, Consent.Step, Consent.Balanced, Consent.Sig;
    if LedgerOk(h, w) {
      Consent.StepKeepsInv(h, w, ev, w2);
      Consent.StepKeepsBalance(h, w, ev, w2);
    }
  }

  lemma {:induction false} MoveKeepsLedger(c: Setup, w: World, mv: Move, w2: World)
    requires Moves(c, w, mv, w2)
    ensures LedgerOk(c.h, w.consent) ==> LedgerOk(c.h, w2.consent)
  {
    hide LedgerOk, Step, Fresh, AuditSinks.Put, RecordOf, Consent.GateStep, Consent.Step, Consent.Sig, PartsOf;
    if mv.Ask? && IsGoverned(mv.q) {
      if w2.consent != w.consent {
        var parts := PartsOf(c.h, mv.q);
        GateIsStep(c.h, w.consent, mv.key, parts, mv.detail, mv.q.ledger.value, w2.consent);
        LedgerKeeps(c.h, w.consent, Consent.Gate(mv.key, parts, mv.detail), w2.consent);
      }
    } else if mv.Ask? && mv.q.Settle? && c.ledger {
      LedgerKeeps(c.h, w.consent, if mv.q.approve then Consent.Event.Approve(mv.q.id) else Consent.Event.Deny(mv.q.id),
                  w2.consent);
    }
  }

  lemma GateIsStep(h: Hash, w: Consent.World, key: string, parts: seq<string>, detail: string, o: Consent.Outcome,
                   w2: Consent.World)
    requires Consent.GateStep(h, w, key, parts, detail, o, w2)
    ensures Consent.Step(h, w, Consent.Gate(key, parts, detail), w2)
  {
  }

  lemma {:induction false} StartOk(c: Setup)
    ensures WorldOk(c, World(c.sink, Consent.Start, map[], map[], []))
  {
    forall a ensures !Consent.Outstanding(Consent.Start, a) {}
    assert Consent.Sound(Consent.Start.ledger);
  }

  /** The invariant holds in every world of every run. */
  lemma {:induction false} RunOk(c: Setup, run: Run, n: nat)
    requires ValidRun(c, run) && n <= |run.moves|
    ensures WorldOk(c, run.worlds[n])
  {
    hide Moves, SessionsOk, RecordsOk, LedgerOk, SinkAt;
    if n == 0 {
      StartOk(c);
    } else {
      var w, mv, w2 := run.worlds[n - 1], run.moves[n - 1], run.worlds[n];
      RunOk(c, run, n - 1);
      RunMove(c, run, n - 1);
      MoveKeepsSessions(c, w, mv, w2);
      MoveKeepsRecords(c, w, mv, w2);
      MoveKeepsLedger(c, w, mv, w2);
    }
  }

  /** A session's past is never rewritten. */
  lemma {:induction false} SessionOnward(c: Setup, run: Run, m: nat, n: nat, key: string)
    requires ValidRun(c, run) && m <= n <= |run.moves| && key in run.worlds[m].sessions
    ensures key in run.worlds[n].sessions
    ensures BrokerRuns.Progress(run.worlds[m].sessions[key], run.worlds[n].sessions[key])
    decreases n - m
  {
    hide Moves, SessionsOk, RecordsOk, LedgerOk, SinkAt, BrokerRuns.Progress;
    if m == n {
      StillProgress(run.worlds[m].sessions[key]);
    } else {
      SessionOnward(c, run, m, n - 1, key);
      RunOk(c, run, n - 1);
      RunMove(c, run, n - 1);
      MoveKeepsSessions(c, run.worlds[n - 1], run.moves[n - 1], run.worlds[n]);
      ProgressOn(run.worlds[m].sessions[key], run.worlds[n - 1].sessions[key], run.worlds[n].sessions[key]);
    }
  }

  lemma ProgressOn(a: State, b: State, c: State)
    requires BrokerRuns.Progress(a, b) && BrokerRuns.Progress(b, c)
    ensures BrokerRuns.Progress(a, c)
  {
    hide Extends;
    ExtendsTransitive(a.caps, b.caps, c.caps);
  }

  // ---- what is in the log ----

  predicate Holds(log: string, at: nat, text: string) { at + |text| <= |log| && log[at..at + |text|] == text }

  /** Event `i` of the session has its printed line in the synced log. */
  ghost predicate LineInLog(c: Setup, w: World, key: string, i: nat)
  {
    && key in w.sessions && key in w.places && i < |w.places[key]| && i < |w.sessions[key].trail|
    && var p := w.places[key][i];
      && p < |w.records| && w.records[p].entry == EventEntry(key, w.sessions[key].trail[i])
      && Holds(w.sink.dev.log, PlaceOf(c.h, c.sink, w.records, p), TextOf(c.h, c.sink, w.records, p))
  }

  /** The lines of two events stand in the order of the events. */
  ghost predicate LineBefore(c: Setup, w: World, key: string, i: nat, j: nat)
  {
    && key in w.places && i < |w.places[key]| && j < |w.places[key]|
    && w.places[key][i] < |w.records| && w.places[key][j] < |w.records|
    && PlaceOf(c.h, c.sink, w.records, w.places[key][i]) + |TextOf(c.h, c.sink, w.records, w.places[key][i])|
       <= PlaceOf(c.h, c.sink, w.records, w.places[key][j])
  }

  /** The first `n` events of the session are in the log, each a whole line as printed, in order. */
  ghost predicate InLog(c: Setup, w: World, key: string, n: nat)
  {
    && (forall i :: 0 <= i < n ==> LineInLog(c, w, key, i))
    && forall i, j :: 0 <= i < j < n ==> LineBefore(c, w, key, i, j)
  }

  lemma {:induction false} StoredLine(c: Setup, w: World, key: string, i: nat)
    requires key in w.sessions && key in w.places && i < |w.places[key]| && i < |w.sessions[key].stored|
    ensures WorldOk(c, w) && w.sessions[key].stored[i] ==>
      LineInLog(c, w, key, i) && w.records[w.places[key][i]].point == AuditSinks.Finished
  {
    hide BrokerRuns.Inv, LedgerOk, RecordsOk, SinkAt, PlaceOf, TextOf, EventEntry;
    if WorldOk(c, w) && w.sessions[key].stored[i] {
      assert SessionOk(c, key, w.sessions[key], w.places[key], w.records);
      FinishedLineStays(c.h, c.sink, w.records, w.places[key][i]);
    }
  }

  /**
   A flag is a line: in every world of every run, the events that were sent and flagged as stored have
   their lines in the log, in order, whatever other sessions wrote in between and wherever their
   records stopped.
   */
  lemma {:induction false} StoredEventsAreInLog(c: Setup, run: Run, n: nat, key: string, k: nat)
    requires ValidRun(c, run) && n <= |run.moves| && key in run.worlds[n].sessions && key in run.worlds[n].places
    requires k <= |run.worlds[n].places[key]| && k <= |run.worlds[n].sessions[key].stored|
    requires forall i :: 0 <= i < k ==> run.worlds[n].sessions[key].stored[i]
    ensures InLog(c, run.worlds[n], key, k)
  {
    hide LineInLog, LedgerOk, RecordsOk, SinkAt, PlaceOf, TextOf, BrokerRuns.Inv, Moves;
    var w := run.worlds[n];
    RunOk(c, run, n);
    forall i | 0 <= i < k ensures LineInLog(c, w, key, i) && w.records[w.places[key][i]].point == AuditSinks.Finished {
      StoredLine(c, w, key, i);
    }
    assert SessionOk(c, key, w.sessions[key], w.places[key], w.records);
    forall i, j | 0 <= i < j < k ensures LineBefore(c, w, key, i, j) {
      PlacesInOrder(c.h, c.sink, w.records, w.places[key][i], w.places[key][j]);
    }
  }

  /**
   Record before effect, in the log itself: in any world where an effect of any session has taken
   place, its intent and every earlier event of that session are lines of the log, in order, and the
   intent is the last of them.
   */
  lemma {:induction false} EffectsFollowTheirLines(c: Setup, run: Run, n: nat, key: string, k: nat)
    requires ValidRun(c, run) && n <= |run.moves| && key in run.worlds[n].sessions && key in run.worlds[n].places
    requires k < |run.worlds[n].sessions[key].effects|
    requires run.worlds[n].sessions[key].effects[k].at <= |run.worlds[n].places[key]|
    ensures
      var st := run.worlds[n].sessions[key];
      var e := st.effects[k];
      && 0 < e.at <= |st.trail| && st.trail[e.at - 1].op == IntentOp(e.kind) && st.trail[e.at - 1].subject == e.r
      && InLog(c, run.worlds[n], key, e.at)
  {
    hide InLog, LedgerOk, RecordsOk, SinkAt, Moves, FlagsOk, PlacesOk;
    hide BrokerRuns.AuditInv, BrokerRuns.FacetInv, BrokerRuns.DeliveryInv, BrokerRuns.OneShotInv, BrokerRuns.MailInv;
    hide BrokerRuns.HttpInv;
    var w := run.worlds[n];
    RunOk(c, run, n);
    assert SessionOk(c, key, w.sessions[key], w.places[key], w.records);
    assert BrokerRuns.EffectOk(w.sessions[key].trail, w.sessions[key].stored, w.sessions[key].effects[k]);
    StoredEventsAreInLog(c, run, n, key, w.sessions[key].effects[k].at);
  }

  predicate Discloses(q: Request) { q.ReadFile? || q.ListDir? || q.MailboxRead? }

  lemma {:induction false} DisclosureStored(st: State, d: Disk, q: Request)
    requires BrokerRuns.Inv(st) && Fresh(st, q) && Discloses(q) && Step(st, d, q).1 != Fail
    ensures
      var after := Step(st, d, q).0;
      |after.stored| == |after.trail| == |st.trail| + 1 && forall i :: 0 <= i < |after.stored| ==> after.stored[i]
  {
    hide BrokerRuns.EffectInv, BrokerRuns.FacetInv, BrokerRuns.DeliveryInv, BrokerRuns.OneShotInv, BrokerRuns.MailInv;
    hide BrokerRuns.HttpInv, IsActive, Paths.SafeJoin, Paths.IsSecretPath;
    assert !st.broken && RecordOk(st, d);
  }

  /**
   Record before disclosure: once the events of an answered read, listing or mailbox read have been
   sent, and so before its answer leaves, they and all earlier ones of the session are in the log.
   */
  lemma {:induction false} DisclosuresFollowTheirLines(c: Setup, run: Run, m: nat, n: nat)
    requires ValidRun(c, run) && m < n <= |run.moves|
    requires run.moves[m].Ask? && Discloses(run.moves[m].q)
    ensures
      var key := run.moves[m].key;
      && key in run.worlds[m].sessions && Fresh(run.worlds[m].sessions[key], run.moves[m].q)
      && key in run.worlds[m + 1].sessions && key in run.worlds[n].places
      && (Step(run.worlds[m].sessions[key], DiskOf(c, key), run.moves[m].q).1 != Fail
          && |run.worlds[m + 1].sessions[key].trail| <= |run.worlds[n].places[key]| ==>
            InLog(c, run.worlds[n], key, |run.worlds[m + 1].sessions[key].trail|))
  {
    hide InLog, LedgerOk, RecordsOk, SinkAt, Moves, Fresh, Step, SessionOk, LedgerMoves, BrokerRuns.Inv, Extends;
    var mv := run.moves[m];
    var key := mv.key;
    RunOk(c, run, m);
    RunOk(c, run, m + 1);
    RunOk(c, run, n);
    RunMove(c, run, m);
    AskMove(c, run.worlds[m], mv, run.worlds[m + 1]);
    SessionOnward(c, run, m + 1, n, key);
    var st, after, now := run.worlds[m].sessions[key], run.worlds[m + 1].sessions[key], run.worlds[n].sessions[key];
    if Step(st, DiskOf(c, key), mv.q).1 != Fail && |after.trail| <= |run.worlds[n].places[key]| {
      assert BrokerRuns.Inv(st) by { SessionParts(c, run.worlds[m], key); }
      DisclosureStored(st, DiskOf(c, key), mv.q);
      assert forall i :: 0 <= i < |after.stored| ==> now.stored[i] == after.stored[i];
      StoredEventsAreInLog(c, run, n, key, |after.trail|);
    }
  }

  lemma AskMove(c: Setup, w: World, mv: Move, w2: World)
    requires Moves(c, w, mv, w2) && mv.Ask?
    ensures mv.key in w.sessions && Fresh(w.sessions[mv.key], mv.q) && mv.key in w2.sessions
    ensures w2.sessions[mv.key] == Step(w.sessions[mv.key], DiskOf(c, mv.key), mv.q).0
  {
    hide Step, Fresh, LedgerMoves;
  }

  lemma SessionParts(c: Setup, w: World, key: string)
    requires SessionsOk(c, w) && key in w.sessions
    ensures BrokerRuns.Inv(w.sessions[key])
  {
    hide BrokerRuns.Inv;
    assert SessionOk(c, key, w.sessions[key], w.places[key], w.records);
  }

  // ---- when the log replays ----

  /** All keys and texts are what Rust strings can be. */
  ghost predicate AllText(w: World)
  {
    forall key :: key in w.sessions ==>
      Log.CleanField(key)
      && forall i :: 0 <= i < |w.sessions[key].trail| ==>
           var e := w.sessions[key].trail[i]; Utf8(e.op) && Utf8(e.subject) && Utf8(e.decision)
  }

  lemma {:induction false} TextIsClean(c: Setup, w: World)
    requires RecordsOk(c, w) && AllText(w)
    ensures CleanRecs(w.records)
  {
    hide Utf8, Log.CleanEntry, Log.CleanField, Cleaned;
    forall j | 0 <= j < |w.records| ensures Log.CleanEntry(w.records[j].entry) {
      var r := w.records[j];
      var e := w.sessions[r.key].trail[r.index];
      CleanedIsClean(r.key, e.op, e.subject, e.decision);
    }
  }

  /**
   The shared log replays to the sink's count and head if and only if no record of any session ever
   stopped after a byte of its line was written, or the digest collides on a content with noughts in
   front. While none did, the disk opens to exactly the memory.
   */
  lemma {:induction false} LogReplaysIffQuiet(c: Setup, run: Run, n: nat)
    requires ValidRun(c, run) && n <= |run.moves|
    ensures
      var w := run.worlds[n];
      Orderly(c, w) ==>
        && ((Log.Replay(c.h, File(w.sink)) == Some(w.sink.mark) <==> Quiet(w.records))
            || NamedCollision(c.h, c.sink, w.records))
        && (Quiet(w.records) ==> AuditSinks.Settled(c.h, w.sink.mark, w.sink.dev))
  {
    hide SessionsOk, LedgerOk, SinkAt, Moves, AuditSinks.Settled, Quiet, NamedCollision, Log.Replay, File, RecordsOk;
    hide AllText, CleanRecs;
    var w := run.worlds[n];
    RunOk(c, run, n);
    if Orderly(c, w) {
      TextIsClean(c, w);
      ReplaysIffQuiet(c.h, c.sink, w.records);
      if Quiet(w.records) { QuietSettled(c.h, c.sink, w.records); }
    }
  }

  /** Event `i` of the session is the line of the log that its number says. */
  ghost predicate NumberedLine(c: Setup, w: World, key: string, i: nat)
  {
    && key in w.sessions && key in w.places && i < |w.places[key]| && i < |w.sessions[key].trail|
    && var p := w.places[key][i];
      && p < |w.records|
      && var m := SinkAt(c.h, c.sink, w.records[..p]).mark;
        var lines := Log.Lines(w.sink.dev.log);
        && m.count < |lines| && lines[m.count] == Log.Line(c.h, m, EventEntry(key, w.sessions[key].trail[i]))
  }

  /** A sink that started settled, texts that are text, and numbers in bounds. */
  ghost predicate Orderly(c: Setup, w: World)
  {
    && AllText(w) && AuditSinks.Settled(c.h, c.sink.mark, c.sink.dev)
    && c.sink.mark.count + |w.records| < U64_BOUND
  }

  /** While none did, every stored event of every session is the line of the log that its number says. */
  lemma {:induction false} QuietEventsAreLines(c: Setup, run: Run, n: nat, key: string, i: nat)
    requires ValidRun(c, run) && n <= |run.moves| && key in run.worlds[n].sessions && key in run.worlds[n].places
    requires i < |run.worlds[n].places[key]| && i < |run.worlds[n].sessions[key].stored|
    ensures
      var w := run.worlds[n];
      Orderly(c, w) && Quiet(w.records) && w.sessions[key].stored[i] ==> NumberedLine(c, w, key, i)
  {
    hide LedgerOk, SinkAt, Moves, AuditSinks.Settled, Quiet, RecordsOk, AllText, CleanRecs, BrokerRuns.Inv;
    hide Log.Lines, Log.Line, EventEntry;
    var w := run.worlds[n];
    RunOk(c, run, n);
    StoredLine(c, w, key, i);
    if Orderly(c, w) && Quiet(w.records) && w.sessions[key].stored[i] {
      TextIsClean(c, w);
      assert SessionOk(c, key, w.sessions[key], w.places[key], w.records);
      QuietLines(c.h, c.sink, w.records, w.places[key][i]);
    }
  }

  // ---- effects and approvals ----

  /** What a move adds to the effects that were prompted for: its session and parameter list, once. */
  function Prompted(c: Setup, w: World, mv: Move, w2: World): multiset<Consent.Action>
  {
    if mv.Ask? && IsGoverned(mv.q) && mv.key in w.sessions && mv.key in w2.sessions
       && PromptsFor(w.sessions[mv.key].l5, mv.q)
       && |w2.sessions[mv.key].effects| > |w.sessions[mv.key].effects|
    then multiset{Consent.Action(mv.key, PartsOf(c.h, mv.q))}
    else multiset{}
  }

  /** All effects so far that the policy prompts for, by session and parameter list. */
  function PromptedEffects(c: Setup, run: Run, n: nat): multiset<Consent.Action>
    requires n < |run.worlds| && n <= |run.moves|
  {
    if n == 0 then multiset{}
    else PromptedEffects(c, run, n - 1) + Prompted(c, run.worlds[n - 1], run.moves[n - 1], run.worlds[n])
  }

  /** An effect of a prompted request was granted. */
  lemma {:induction false} EffectWasGranted(st: State, d: Disk, q: Request)
    requires Fresh(st, q) && PromptsFor(st.l5, q)
    ensures Step(st, d, q).0.effects != st.effects ==> q.ledger == Some(Consent.Granted)
    ensures |Step(st, d, q).0.effects| <= |st.effects| + 1
  {
    hide Step, IsActive, Effects.OnAllowlist, Fresh;
    Effects.StepAuthorised(st, d, q);
  }

  lemma {:induction false} PassesGrow(h: Hash, w: Consent.World, ev: Consent.Event, w2: Consent.World,
                                      a: Consent.Action)
    requires Consent.Step(h, w, ev, w2)
    ensures w.passes[a] <= w2.passes[a]
  {
    hide Consent.Sig, Consent.Checked, Consent.Decided;
  }

  lemma {:induction false} PromptedPasses(c: Setup, w: World, mv: Move, w2: World, a: Consent.Action)
    requires Moves(c, w, mv, w2)
    ensures Prompted(c, w, mv, w2)[a] + w.consent.passes[a] <= w2.consent.passes[a]
  {
    hide Step, Fresh, AuditSinks.Put, RecordOf, Consent.Checked, Consent.Sig, PartsOf, Consent.Step;
    if mv.Ask? && IsGoverned(mv.q) {
      var st := w.sessions[mv.key];
      if PromptsFor(st.l5, mv.q) { EffectWasGranted(st, DiskOf(c, mv.key), mv.q); }
    } else if mv.Ask? && mv.q.Settle? && c.ledger {
      PassesGrow(c.h, w.consent, if mv.q.approve then Consent.Event.Approve(mv.q.id) else Consent.Event.Deny(mv.q.id),
                 w2.consent, a);
    }
  }

  lemma {:induction false} EffectsPassed(c: Setup, run: Run, n: nat, a: Consent.Action)
    requires ValidRun(c, run) && n <= |run.moves|
    ensures PromptedEffects(c, run, n)[a] <= run.worlds[n].consent.passes[a]
  {
    hide Moves, Prompted;
    if n > 0 {
      EffectsPassed(c, run, n - 1, a);
      RunMove(c, run, n - 1);
      PromptedPasses(c, run.worlds[n - 1], run.moves[n - 1], run.worlds[n], a);
    }
  }

  /**
   Effects and approvals, joined: in every run of any sessions and approvers over one ledger, the
   commands, fetches and posts that the policy prompts for, for one session and one parameter list,
   never outnumber the approvals given to exactly that session and list; or two of the lists seen at
   the gates are a digest collision.
   */
  lemma {:induction false} EffectsNeverOutnumberApprovals(c: Setup, run: Run, n: nat)
    requires ValidRun(c, run) && n <= |run.moves|
    ensures
      var w := run.worlds[n].consent;
      || (forall a :: PromptedEffects(c, run, n)[a] <= w.approvals[a])
      || exists a, b :: a in w.seen && b in w.seen && a != b && Collision(c.h, Consent.Encode(a), Consent.Encode(b))
  {
    hide Moves, PromptedEffects, SessionsOk, RecordsOk, SinkAt, Consent.Inv, Consent.Outstanding, Consent.Encode;
    var w := run.worlds[n].consent;
    RunOk(c, run, n);
    if Consent.Distinct(c.h, w.seen) {
      forall a ensures PromptedEffects(c, run, n)[a] <= w.approvals[a] {
        EffectsPassed(c, run, n, a);
        assert w.passes[a] <= w.approvals[a];
      }
    } else {
      Consent.IndistinctCollide(c.h, w.seen);
    }
  }
}
