/**
 The sink that appends to the log (`AuditSink`), how far its disk writes have got at any
 moment, and what `open` makes of the disk after a crash at each of those moments.
 */
module AuditSinks {
  import opened Text
  import opened Audit

  /**
   The disk under one sink. `log` and `anchor` are durable. `tail` was written to the log
   but not yet synced; `swapped` was renamed over the anchor but its directory entry is not
   yet synced.
   */
  datatype Device = Device(log: string, tail: string, anchor: Option<string>, swapped: Option<string>)

  /** How far one `record` has got. `Writing(n)`: n bytes of the line were written. */
  datatype Point = Writing(n: nat) | Synced | TempWritten | Renamed | Finished

  function Advance(d: Device, text: string, anchor: string, at: Point): Device
  {
    var synced := d.(log := d.log + d.tail + text, tail := "");
    match at
    case Writing(n) => d.(tail := d.tail + if n <= |text| then text[..n] else text)
    case Synced | TempWritten => synced
    case Renamed => synced.(swapped := Some(anchor))
    case Finished => synced.(anchor := Some(anchor), swapped := None)
  }

  /** What a crash leaves: any prefix of the unsynced bytes, and either anchor if one was being swapped in. */
  function AfterCrash(d: Device, keep: nat, swap: bool): Device
    requires keep <= |d.tail|
  {
    Device(d.log + d.tail[..keep], "", if swap && d.swapped.Some? then d.swapped else d.anchor, None)
  }

  /** A sink as others see it: the mark in memory and the disk. */
  datatype Sink = Sink(mark: Mark, dev: Device)

  /** The sink after one `record` has got as far as `at`; memory moves only when it finished. */
  function Put(h: Hash, s: Sink, e: Entry, at: Point): Sink
  {
    var n := NextMark(h, s.mark, e);
    Sink(if at == Finished then n else s.mark, Advance(s.dev, Line(h, s.mark, e) + "\n", AnchorText(n), at))
  }

  class AuditSink {
    const h: Hash
    var count: nat
    var head: string
    var dev: Device

    ghost function View(): Mark
      reads this
    {
      Mark(count, head)
    }

    ghost function Now(): Sink
      reads this
    {
      Sink(View(), dev)
    }

    /** `AuditSink::open`: resumes exactly the replayed mark, or refuses. */
    static method OpenLog(h: Hash, d: Device) returns (s: Option<AuditSink>)
      requires d.tail == "" && d.swapped == None
      ensures s.Some? <==> Open(h, Some(d.log), d.anchor).Some?
      ensures s.Some? ==> fresh(s.value) && s.value.h == h && s.value.dev == d
      ensures s.Some? ==> Some(s.value.View()) == Open(h, Some(d.log), d.anchor)
    {
      var r := ReplayLog(h, d.log);
      if r == None { return None; }
      var c, hd := r.value.count, r.value.head;
      if c > 0 || d.anchor.Some? {
        if d.anchor == None || !Utf8(d.anchor.value) { return None; }
        var a := Split(Trim(d.anchor.value), '\t');
        if |a| != 2 || ParseU64(a[0]) != Some(c) || a[1] != hd { return None; }
      }
      var sink := new AuditSink(h, c, hd, d);
      s := Some(sink);
    }

    constructor (h: Hash, count: nat, head: string, dev: Device)
      ensures this.h == h && this.count == count && this.head == head && this.dev == dev
    {
      this.h, this.count, this.head, this.dev := h, count, head, dev;
    }

    /**
     `record`. `reached` is how far the disk lets it go: anything short of `Finished` is an
     I/O error, which leaves the disk where it stopped and the mark in memory unmoved.
     */
    method Record(e: Entry, reached: Point) returns (ok: bool)
      modifies this
      ensures ok <==> reached == Finished
      ensures View() == if ok then NextMark(h, old(View()), e) else old(View())
      ensures dev == Advance(old(dev), Line(h, old(View()), e) + "\n",
                             AnchorText(NextMark(h, old(View()), e)), reached)
      ensures Now() == Put(h, old(Now()), e, reached)
    {
      hide Content, Join, Dec;
      var fields := [Dec(count), e.session, e.op, e.detail, e.decision, head];
      var digest := h(Content(fields));
      var text := Join(fields + [digest], "\t") + "\n";
      if reached.Writing? {
        dev := dev.(tail := dev.tail + if reached.n <= |text| then text[..reached.n] else text);
        return false;
      }
      dev := dev.(tail := dev.tail + text);
      dev := dev.(log := dev.log + dev.tail, tail := "");
      if reached == Synced || reached == TempWritten { return false; }
      dev := dev.(swapped := Some(Dec(count + 1) + "\t" + digest));
      if reached == Renamed { return false; }
      dev := dev.(anchor := dev.swapped, swapped := None);
      count, head := count + 1, digest;
      ok := true;
    }
  }

  // ---- a settled sink ----

  /** Nothing in flight, and the disk opens to exactly the mark in memory. */
  predicate Settled(h: Hash, m: Mark, d: Device)
  {
    && d.tail == "" && d.swapped == None
    && Terminated(d.log)
    && Open(h, Some(d.log), d.anchor) == Some(m)
  }

  lemma {:induction false} SettledHead(h: Hash, m: Mark, d: Device)
    requires Settled(h, m, d)
    ensures Replay(h, d.log) == Some(m) && ChainHead(m.head) && m.count == |Lines(d.log)|
  {
    ReplayHead(h, Lines(d.log), Mark(0, GENESIS));
    ReplayCounts(h, Lines(d.log), Mark(0, GENESIS));
  }

  lemma {:induction false} LogGrows(h: Hash, log: string, m: Mark, e: Entry)
    requires Replay(h, log) == Some(m) && Terminated(log)
    requires CleanEntry(e) && m.count < U64_BOUND
    ensures Replay(h, log + (Line(h, m, e) + "\n")) == Some(NextMark(h, m, e))
    ensures Terminated(log + (Line(h, m, e) + "\n"))
  {
    var line := Line(h, m, e);
    ReplayHead(h, Lines(log), Mark(0, GENESIS));
    LineReplays(h, m, e);
    LinesAppend(log, line + "\n");
    ReplayAppend(h, Lines(log), [line], Mark(0, GENESIS));
  }

  /** A successful record keeps the sink settled, one line further. */
  lemma {:induction false} RecordSettles(h: Hash, m: Mark, d: Device, e: Entry)
    requires Settled(h, m, d) && CleanEntry(e) && m.count + 1 < U64_BOUND
    ensures Settled(h, NextMark(h, m, e),
                    Advance(d, Line(h, m, e) + "\n", AnchorText(NextMark(h, m, e)), Finished))
  {
    hide Replay, Line, AnchorSays, Content;
    SettledHead(h, m, d);
    LogGrows(h, d.log, m, e);
    var n := NextMark(h, m, e);
    assert d.log + d.tail + (Line(h, m, e) + "\n") == d.log + (Line(h, m, e) + "\n");
    assert ChainHead(n.head) by { assert IsDigest(h(Content(Unhashed(m, e)))); }
    AnchorReads(n, n);
  }

  // ---- crash recovery ----

  /** Bytes past the settled log make the replay fail or count one line more. */
  lemma {:induction false} ExtraBytes(h: Hash, m: Mark, d: Device, more: string)
    requires Settled(h, m, d) && more != "" && '\n' !in more
    ensures Replay(h, d.log + more).Some? ==> Replay(h, d.log + more).value.count == m.count + 1
    ensures Open(h, Some(d.log + more), d.anchor) == None
  {
    SettledHead(h, m, d);
    LinesAppend(d.log, more);
    OneLine(more);
    ReplayCounts(h, Lines(d.log + more), Mark(0, GENESIS));
    var r := Replay(h, d.log + more);
  }

  /** The log is one whole line ahead of the anchor: refused. */
  lemma {:induction false} LineAhead(h: Hash, m: Mark, d: Device, e: Entry)
    requires Settled(h, m, d) && CleanEntry(e) && m.count + 1 < U64_BOUND
    ensures Open(h, Some(d.log + (Line(h, m, e) + "\n")), d.anchor) == None
  {
    SettledHead(h, m, d);
    LogGrows(h, d.log, m, e);
  }

  /**
   Crash recovery. Wherever inside `record` the machine stops, and whatever part of the
   unsynced bytes survives, opening afterwards yields the state before, the state after, or
   a refusal. With the old anchor it succeeds exactly when no byte of the new line survived;
   with the new one it always yields the state after.
   */
  lemma {:induction false} CrashRecovery(h: Hash, m: Mark, d: Device, e: Entry, at: Point, keep: nat, swap: bool)
    requires Settled(h, m, d) && CleanEntry(e) && m.count + 1 < U64_BOUND
    requires keep <= |Advance(d, Line(h, m, e) + "\n", AnchorText(NextMark(h, m, e)), at).tail|
    ensures
      var n := NextMark(h, m, e);
      var c := AfterCrash(Advance(d, Line(h, m, e) + "\n", AnchorText(n), at), keep, swap);
      var r := Open(h, Some(c.log), c.anchor);
      && (r == None || (r == Some(m) && Settled(h, m, c)) || (r == Some(n) && Settled(h, n, c)))
      && (r == Some(m) ==> c.log == d.log)
      && (r == Some(n) ==> c.log == d.log + (Line(h, m, e) + "\n"))
      && (c.anchor == d.anchor ==> (r.Some? <==> c.log == d.log))
      && (c.anchor == d.anchor ==> r == if c.log == d.log then Some(m) else None)
      && (c.anchor != d.anchor ==> c.anchor == Some(AnchorText(n)) && r == Some(n))
  {
    hide Open, Line, AnchorText, Content, Terminated;
    if at.Writing? {
      CrashWhileWriting(h, m, d, e, at.n, keep);
    } else {
      var n := NextMark(h, m, e);
      var text := Line(h, m, e) + "\n";
      RecordSettles(h, m, d, e);
      LineAhead(h, m, d, e);
      assert d.log + d.tail + text == d.log + text;
      assert (d.log + text) + ""[..keep] == d.log + text;
    }
  }

  lemma {:induction false} CrashWhileWriting(h: Hash, m: Mark, d: Device, e: Entry, n: nat, keep: nat)
    requires Settled(h, m, d) && CleanEntry(e) && m.count + 1 < U64_BOUND
    requires keep <= |Advance(d, Line(h, m, e) + "\n", "", Writing(n)).tail|
    ensures
      var log := d.log + Advance(d, Line(h, m, e) + "\n", "", Writing(n)).tail[..keep];
      && Open(h, Some(log), d.anchor) == (if keep == 0 then Some(m) else None)
      && (log == d.log <==> keep == 0)
  {
    hide Open, Line, Terminated;
    var line := Line(h, m, e);
    var more := Advance(d, line + "\n", "", Writing(n)).tail[..keep];
    assert more == (line + "\n")[..keep];
    SettledHead(h, m, d);
    if keep == 0 {
      assert d.log + more == d.log;
    } else if keep <= |line| {
      LineFields(h, m, e);
      assert more == line[..keep];
      ExtraBytes(h, m, d, more);
    } else {
      assert more == line + "\n";
      LineAhead(h, m, d, e);
    }
  }

  // ---- whole lives of a sink ----

  /** A record that returned, or one cut short by a crash and followed by a restart. */
  datatype Event = Recorded(e: Entry) | Crashed(e: Entry, at: Point, keep: nat, swap: bool)

  /** `Up`: serving, with the entries the log holds. `Down`: the last restart was refused. */
  datatype Life = Down | Up(mark: Mark, dev: Device, entries: seq<Entry>)

  function Next(h: Hash, s: Life, ev: Event): Life
  {
    if s.Down? then s
    else
      var text := Line(h, s.mark, ev.e) + "\n";
      var n := NextMark(h, s.mark, ev.e);
      match ev
      case Recorded(e) => Up(n, Advance(s.dev, text, AnchorText(n), Finished), s.entries + [e])
      case Crashed(e, at, keep, swap) =>
        var left := Advance(s.dev, text, AnchorText(n), at);
        var c := AfterCrash(left, if keep <= |left.tail| then keep else |left.tail|, swap);
        var r := Open(h, Some(c.log), c.anchor);
        if r == None then Down
        else Up(r.value, c, if r == Some(s.mark) then s.entries else s.entries + [e])
  }

  function Lifetime(h: Hash, evs: seq<Event>): Life
  {
    if evs == [] then Up(Mark(0, GENESIS), Device("", "", None, None), [])
    else Next(h, Lifetime(h, evs[..|evs| - 1]), evs[|evs| - 1])
  }

  function MarkOf(h: Hash, entries: seq<Entry>): Mark
  {
    if entries == [] then Mark(0, GENESIS)
    else NextMark(h, MarkOf(h, entries[..|entries| - 1]), entries[|entries| - 1])
  }

  /** The log text of a list of entries. */
  function Print(h: Hash, entries: seq<Entry>): string
  {
    if entries == [] then ""
    else
      var before := entries[..|entries| - 1];
      Print(h, before) + (Line(h, MarkOf(h, before), entries[|entries| - 1]) + "\n")
  }

  /** The log and the memory tell the same story. */
  predicate Agrees(h: Hash, s: Life)
  {
    s.Up? ==>
      && Settled(h, s.mark, s.dev)
      && s.mark == MarkOf(h, s.entries)
      && s.mark.count == |s.entries|
      && s.dev.log == Print(h, s.entries)
  }

  lemma {:induction false} OneMore(h: Hash, entries: seq<Entry>, e: Entry)
    ensures MarkOf(h, entries + [e]) == NextMark(h, MarkOf(h, entries), e)
    ensures Print(h, entries + [e]) == Print(h, entries) + (Line(h, MarkOf(h, entries), e) + "\n")
  {
    hide Line, NextMark;
    assert (entries + [e])[..|entries|] == entries;
  }

  lemma FinishedLog(d: Device, text: string, anchor: string)
    requires d.tail == ""
    ensures Advance(d, text, anchor, Finished).log == d.log + text
  {
    assert d.log + d.tail == d.log;
  }

  lemma {:induction false} NextAgrees(h: Hash, s: Life, ev: Event)
    requires Agrees(h, s) && CleanEntry(ev.e)
    requires s.Up? ==> s.mark.count + 1 < U64_BOUND
    ensures Agrees(h, Next(h, s, ev))
    ensures Next(h, s, ev).Up? ==> s.Up? && Next(h, s, ev).mark.count <= s.mark.count + 1
  {
    hide Open, Line, AnchorText, Content, Terminated, Advance, AfterCrash, Print, MarkOf;
    if s.Up? {
      var m, d := s.mark, s.dev;
      var n := NextMark(h, m, ev.e);
      var text := Line(h, m, ev.e) + "\n";
      OneMore(h, s.entries, ev.e);
      if ev.Recorded? {
        RecordSettles(h, m, d, ev.e);
        FinishedLog(d, text, AnchorText(n));
      } else {
        var left := Advance(d, text, AnchorText(n), ev.at);
        var keep := if ev.keep <= |left.tail| then ev.keep else |left.tail|;
        CrashRecovery(h, m, d, ev.e, ev.at, keep, ev.swap);
      }
    }
  }

  /**
   For every sequence of records from any sessions, crashes and restarts: while the sink is
   up, the log is exactly the print of its entries, it replays to the count and head in
   memory, and the anchor matches. A crashed record is in the log whole or not at all.
   */
  lemma {:induction false} LifetimeAgrees(h: Hash, evs: seq<Event>)
    requires |evs| < U64_BOUND - 1
    requires forall i :: 0 <= i < |evs| ==> CleanEntry(evs[i].e)
    ensures Agrees(h, Lifetime(h, evs))
    ensures Lifetime(h, evs).Up? ==> Lifetime(h, evs).mark.count <= |evs|
    ensures Lifetime(h, evs).Up? && Lifetime(h, evs).entries != [] ==>
              VerifyPersisted(h, Some(Lifetime(h, evs).dev.log), Lifetime(h, evs).dev.anchor)
  {
    hide Open, VerifyPersisted, Next;
    if evs != [] {
      LifetimeAgrees(h, evs[..|evs| - 1]);
      NextAgrees(h, Lifetime(h, evs[..|evs| - 1]), evs[|evs| - 1]);
    } else {
      FreshDisk(h);
    }
    var s := Lifetime(h, evs);
    if s.Up? && s.entries != [] { SettledVerifies(h, s.mark, s.dev); }
  }

  lemma {:induction false} FreshDisk(h: Hash)
    ensures Settled(h, Mark(0, GENESIS), Device("", "", None, None))
    ensures Print(h, []) == ""
  {
    assert Lines("") == [];
  }

  lemma {:induction false} SettledVerifies(h: Hash, m: Mark, d: Device)
    ensures Settled(h, m, d) && m.count > 0 ==> VerifyPersisted(h, Some(d.log), d.anchor)
  {
  }

  /** Nothing crashed: every record is in the log, in order. */
  lemma {:induction false} RecordsAllPresent(h: Hash, evs: seq<Event>)
    requires forall i :: 0 <= i < |evs| ==> evs[i].Recorded?
    ensures Lifetime(h, evs).Up?
    ensures Lifetime(h, evs).entries == seq(|evs|, i requires 0 <= i < |evs| => evs[i].e)
  {
    if evs != [] { RecordsAllPresent(h, evs[..|evs| - 1]); }
  }

  // ---- a log without its last line feed ----

  lemma {:induction false} CutLastLine(log: string) returns (pre: string, last: string)
    ensures log == pre + last && Terminated(pre) && '\n' !in last
    ensures last == "" <==> Terminated(log)
  {
    if Terminated(log) {
      pre, last := log, "";
    } else {
      var c := log[|log| - 1];
      var last';
      pre, last' := CutLastLine(log[..|log| - 1]);
      last := last' + [c];
      assert log == log[..|log| - 1] + [c];
    }
  }

  /**
   `open` resumes a log whose final line feed is missing, and then the next record is glued
   to the last line. The log keeps replaying to the memory exactly when the opened log ended
   in a line feed (or was empty).
   */
  lemma {:induction false} ResumeKeepsAgreement(h: Hash, log: string, anchor: Option<string>, m: Mark, e: Entry)
    requires Open(h, Some(log), anchor) == Some(m) && CleanEntry(e) && m.count + 1 < U64_BOUND
    ensures Replay(h, log + (Line(h, m, e) + "\n")) == Some(NextMark(h, m, e)) <==> Terminated(log)
    ensures !Terminated(log) ==> Replay(h, log + (Line(h, m, e) + "\n")) == None
  {
    hide Split, Lines, Line, ReplayFrom, AnchorSays, Content;
    if Terminated(log) {
      LogGrows(h, log, m, e);
    } else {
      var line := Line(h, m, e);
      var pre, last := CutLastLine(log);
      LastLineFields(h, pre, last);
      ReplayHead(h, Lines(log), Mark(0, GENESIS));
      LineFields(h, m, e);
      SplitLength(last, line, '\t');
      LongLineRefused(h, pre, last + line);
      assert log + (line + "\n") == pre + (last + line + "\n");
    }
  }

  lemma {:induction false} LastLineFields(h: Hash, pre: string, last: string)
    requires Terminated(pre) && last != "" && '\n' !in last && Replay(h, pre + last).Some?
    ensures |Split(last, '\t')| == 7
  {
    OneLine(last);
    LinesAppend(pre, last);
    ReplayAppend(h, Lines(pre), [last], Mark(0, GENESIS));
  }

  lemma {:induction false} LongLineRefused(h: Hash, pre: string, line: string)
    requires Terminated(pre) && '\n' !in line && |Split(line, '\t')| > 7
    ensures Replay(h, pre + (line + "\n")) == None
  {
    GluedLine(line);
    LinesAppend(pre, line + "\n");
    ReplayAppend(h, Lines(pre), [StripCR(line)], Mark(0, GENESIS));
  }

  lemma {:induction false} EmptyReplay(h: Hash, m: Mark)
    ensures ReplayFrom(h, [], m) == Some(m)
  {
  }

  lemma {:induction false} GluedLine(s: string)
    requires '\n' !in s
    ensures Lines(s + "\n") == [StripCR(s)]
    ensures |Split(StripCR(s), '\t')| == |Split(s, '\t')|
  {
    LinesAfterFeed(s, "");
    assert s + "\n" + "" == s + "\n";
    SplitWhole(s, '\n');
    if StripCR(s) != s {
      assert s == s[..|s| - 1] + "\r";
      SplitLength(s[..|s| - 1], "\r", '\t');
    }
  }

  /** The shortest such log: one record, its line feed cut off. */
  lemma {:induction false} ResumeWithoutFeed(h: Hash, a: Entry, b: Entry)
    requires CleanEntry(a) && CleanEntry(b)
    ensures
      var m := NextMark(h, Mark(0, GENESIS), a);
      var log := Line(h, Mark(0, GENESIS), a);
      && Open(h, Some(log), Some(AnchorText(m))) == Some(m)
      && Replay(h, log + (Line(h, m, b) + "\n")) == None
  {
    var g := Mark(0, GENESIS);
    var m, log := NextMark(h, g, a), Line(h, g, a);
    LineFields(h, g, a);
    LineReplays(h, g, a);
    OneLine(log);
    assert ChainHead(m.head) by { assert IsDigest(h(Content(Unhashed(g, a)))); }
    AnchorReads(m, m);
    ResumeKeepsAgreement(h, log, Some(AnchorText(m)), m, b);
  }

  /** A line numbered for an earlier mark is refused. */
  lemma {:induction false} StaleLineRefused(h: Hash, log: string, m: Mark, n: Mark, b: Entry)
    requires Terminated(log) && Replay(h, log) == Some(n) && n.count != m.count
    requires CleanEntry(b) && ChainHead(m.head) && m.count < U64_BOUND
    ensures Replay(h, log + (Line(h, m, b) + "\n")) == None
  {
    hide Lines, Line, Content;
    var line := Line(h, m, b);
    LinesAppend(log, line + "\n");
    LineReplays(h, m, b);
    LineFields(h, m, b);
    ParseOfDec(m.count);
    ReplayAppend(h, Lines(log), [line], Mark(0, GENESIS));
  }

  // ---- what the head binds ----

  /** Joined content of line `i` of a replayed log. */
  function ContentAt(lines: seq<string>, i: nat): string
    requires i < |lines| && |Split(lines[i], '\t')| >= 6
  {
    Content(Split(lines[i], '\t'))
  }

  ghost predicate SameContents(a: seq<string>, b: seq<string>)
  {
    |a| == |b| && forall i :: 0 <= i < |a| ==>
      |Split(a[i], '\t')| == 7 && |Split(b[i], '\t')| == 7 && ContentAt(a, i) == ContentAt(b, i)
  }

  ghost predicate CollisionBetween(h: Hash, a: seq<string>, b: seq<string>)
  {
    exists i: nat, j: nat :: i < |a| && j < |b| && |Split(a[i], '\t')| == 7 && |Split(b[j], '\t')| == 7
                          && Collision(h, ContentAt(a, i), ContentAt(b, j))
  }

  /** The previous head can be read off a line's joined content. */
  lemma {:induction false} ContentBindsPrev(p: seq<string>, q: seq<string>)
    requires |p| == 7 && |q| == 7 && ChainHead(p[5]) && ChainHead(q[5]) && Content(p) == Content(q)
    ensures p[5] == q[5]
  {
    hide Content, Split;
    ChainHeadClean(p[5]);
    ChainHeadClean(q[5]);
    ContentEndsInPrev(p);
    ContentEndsInPrev(q);
    LastFieldUnique(Join(p[..5], "|"), p[5], Join(q[..5], "|"), q[5], '|');
  }

  lemma {:induction false} ContentEndsInPrev(p: seq<string>)
    requires |p| == 7
    ensures Content(p) == Join(p[..5], "|") + ['|'] + p[5]
  {
    hide Join;
    assert p[..6] == p[..5] + [p[5]];
    JoinAppend(p[..5], [p[5]], "|");
    JoinOne(p[5], "|");
  }

  lemma {:induction false} LastLine(h: Hash, a: seq<string>)
    requires a != [] && ReplayFrom(h, a, Mark(0, GENESIS)).Some?
    ensures
      var r := ReplayFrom(h, a[..|a| - 1], Mark(0, GENESIS));
      var p := Split(a[|a| - 1], '\t');
      && r.Some? && Accepts(h, a[|a| - 1], r.value) && ChainHead(r.value.head)
      && ReplayFrom(h, a, Mark(0, GENESIS)).value.head == p[6] == h(Content(p))
  {
    assert a == a[..|a| - 1] + [a[|a| - 1]];
    ReplayAppend(h, a[..|a| - 1], [a[|a| - 1]], Mark(0, GENESIS));
    ReplayHead(h, a[..|a| - 1], Mark(0, GENESIS));
  }

  /**
   Chain binding: two logs that replay to the same head have the same number of lines and the
   same joined content on every line, or two different contents among them hash alike.
   */
  lemma {:induction false} ChainBinding(h: Hash, a: seq<string>, b: seq<string>)
    requires ReplayFrom(h, a, Mark(0, GENESIS)).Some? && ReplayFrom(h, b, Mark(0, GENESIS)).Some?
    requires ReplayFrom(h, a, Mark(0, GENESIS)).value.head == ReplayFrom(h, b, Mark(0, GENESIS)).value.head
    ensures SameContents(a, b) || CollisionBetween(h, a, b)
    decreases |a|
  {
    hide Split, ReplayFrom, Content;
    EmptyReplay(h, Mark(0, GENESIS));
    if a != [] { LastLine(h, a); assert IsDigest(h(Content(Split(a[|a| - 1], '\t')))); }
    if b != [] { LastLine(h, b); assert IsDigest(h(Content(Split(b[|b| - 1], '\t')))); }
    if a != [] && b != [] {
      var i, j := |a| - 1, |b| - 1;
      var p, q := Split(a[i], '\t'), Split(b[j], '\t');
      if Content(p) == Content(q) {
        ContentBindsPrev(p, q);
        ChainBinding(h, a[..i], b[..j]);
        if !SameContents(a[..i], b[..j]) {
          var x: nat, y: nat :| x < i && y < j && |Split(a[..i][x], '\t')| == 7 && |Split(b[..j][y], '\t')| == 7
                             && Collision(h, ContentAt(a[..i], x), ContentAt(b[..j], y));
          assert Collision(h, ContentAt(a, x), ContentAt(b, y));
        } else {
          forall k | 0 <= k < |a|
            ensures |Split(a[k], '\t')| == 7 && |Split(b[k], '\t')| == 7 && ContentAt(a, k) == ContentAt(b, k)
          {
            if k < i { assert a[..i][k] == a[k] && b[..j][k] == b[k]; }
          }
        }
      } else {
        assert Collision(h, ContentAt(a, i), ContentAt(b, j));
      }
    }
  }

  /**
   Tamper evidence relative to the anchor: any log that still verifies against the anchor of
   a settled sink has the sink's lines, content for content, or exhibits a collision.
   In particular a log with fewer lines never verifies.
   */
  lemma {:induction false} VerifiedLogIsTheLog(h: Hash, m: Mark, d: Device, log: string)
    requires Settled(h, m, d)
    ensures m.count > 0 && VerifyPersisted(h, Some(log), d.anchor) ==>
      && |Lines(log)| == |Lines(d.log)|
      && (SameContents(Lines(log), Lines(d.log)) || CollisionBetween(h, Lines(log), Lines(d.log)))
  {
    SettledHead(h, m, d);
    ReplayCounts(h, Lines(log), Mark(0, GENESIS));
    if m.count > 0 && VerifyPersisted(h, Some(log), d.anchor) { ChainBinding(h, Lines(log), Lines(d.log)); }
  }

  lemma {:induction false} PrintLines(h: Hash, entries: seq<Entry>)
    requires |entries| < U64_BOUND && forall i :: 0 <= i < |entries| ==> CleanEntry(entries[i])
    ensures |Lines(Print(h, entries))| == |entries| && Terminated(Print(h, entries))
    ensures ChainHead(MarkOf(h, entries).head) && MarkOf(h, entries).count == |entries|
  {
    hide Lines, Line, Content;
    if entries == [] {
      FreshDisk(h);
      SettledHead(h, Mark(0, GENESIS), Device("", "", None, None));
    } else {
      var k := |entries| - 1;
      PrintLines(h, entries[..k]);
      LineReplays(h, MarkOf(h, entries[..k]), entries[k]);
      LinesAppend(Print(h, entries[..k]), Line(h, MarkOf(h, entries[..k]), entries[k]) + "\n");
      assert IsDigest(h(Content(Unhashed(MarkOf(h, entries[..k]), entries[k]))));
    }
  }

  /** Cutting any nonempty run of trailing lines off the log makes `verify_persisted` fail. */
  lemma {:induction false} TruncationDetected(h: Hash, evs: seq<Event>, kept: nat)
    requires |evs| < U64_BOUND - 1 && forall i :: 0 <= i < |evs| ==> CleanEntry(evs[i].e)
    requires Lifetime(h, evs).Up? && kept < |Lifetime(h, evs).entries|
    ensures
      var s := Lifetime(h, evs);
      !VerifyPersisted(h, Some(Print(h, s.entries[..kept])), s.dev.anchor)
  {
    var s := Lifetime(h, evs);
    LifetimeAgrees(h, evs);
    EntriesClean(h, evs);
    PrintLines(h, s.entries[..kept]);
    PrintLines(h, s.entries);
    if VerifyPersisted(h, Some(Print(h, s.entries[..kept])), s.dev.anchor) {
      VerifiedLogIsTheLog(h, s.mark, s.dev, Print(h, s.entries[..kept]));
    }
  }

  lemma {:induction false} EntriesClean(h: Hash, evs: seq<Event>)
    requires forall i :: 0 <= i < |evs| ==> CleanEntry(evs[i].e)
    ensures Lifetime(h, evs).Up? ==>
      forall i :: 0 <= i < |Lifetime(h, evs).entries| ==> CleanEntry(Lifetime(h, evs).entries[i])
  {
    hide Open, Line, AnchorText, NextMark;
    if evs != [] { EntriesClean(h, evs[..|evs| - 1]); }
  }
}
