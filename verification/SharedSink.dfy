/**
 One sink under many hands: any sequence of records, each getting as far as the disk lets it, with
 no crash in between. Which of them are in the log, and when the log still replays to the memory.
 */
module SharedSinks {
  import opened Text
  import opened Audit
  import opened AuditSinks

  /** A call of `record`: whose event it is, which of that session's events, and how far it got. */
  datatype Rec = Rec(key: string, index: nat, entry: Entry, point: Point)

  function SinkAt(h: Hash, s0: Sink, recs: seq<Rec>): Sink
  {
    if recs == [] then s0
    else
      var r := recs[|recs| - 1];
      Put(h, SinkAt(h, s0, recs[..|recs| - 1]), r.entry, r.point)
  }

  /** What the log file reads as: the synced bytes, then those written since. */
  function File(s: Sink): string { s.dev.log + s.dev.tail }

  /** The line record `j` prints. */
  function TextOf(h: Hash, s0: Sink, recs: seq<Rec>, j: nat): string
    requires j < |recs|
  {
    Line(h, SinkAt(h, s0, recs[..j]).mark, recs[j].entry) + "\n"
  }

  /** Where in the file record `j` starts to write. */
  function PlaceOf(h: Hash, s0: Sink, recs: seq<Rec>, j: nat): nat
    requires j < |recs|
  {
    |File(SinkAt(h, s0, recs[..j]))|
  }

  // ---- the file only grows ----

  /** What one record adds to the file. */
  function Added(line: string, at: Point): string
  {
    match at
    case Writing(n) => if n <= |line| then line[..n] else line + "\n"
    case _ => line + "\n"
  }

  lemma {:induction false} FileGrows(h: Hash, s: Sink, e: Entry, at: Point)
    ensures File(Put(h, s, e, at)) == File(s) + Added(Line(h, s.mark, e), at)
    ensures s.dev.log <= Put(h, s, e, at).dev.log
    ensures !at.Writing? ==>
      Put(h, s, e, at).dev.log == File(s) + Line(h, s.mark, e) + "\n" && Put(h, s, e, at).dev.tail == ""
  {
    hide Line, NextMark, AnchorText;
    var line := Line(h, s.mark, e);
    var text := line + "\n";
    assert at.Writing? && at.n == |text| ==> text[..at.n] == text;
    assert at.Writing? && at.n <= |line| ==> text[..at.n] == line[..at.n];
    assert s.dev.log + s.dev.tail + text == s.dev.log + (s.dev.tail + text);
  }

  lemma {:induction false} SinkGrows(h: Hash, s0: Sink, recs: seq<Rec>, m: nat)
    requires m <= |recs|
    ensures SinkAt(h, s0, recs[..m]).dev.log <= SinkAt(h, s0, recs).dev.log
    ensures File(SinkAt(h, s0, recs[..m])) <= File(SinkAt(h, s0, recs))
  {
    hide Put, File;
    if m < |recs| {
      var k := |recs| - 1;
      assert recs[..k][..m] == recs[..m];
      SinkGrows(h, s0, recs[..k], m);
      FileGrows(h, SinkAt(h, s0, recs[..k]), recs[k].entry, recs[k].point);
    } else {
      assert recs[..m] == recs;
    }
  }

  /** A prefix ends where it ends in any extension. */
  lemma PrefixSegment(a: string, text: string, b: string)
    requires a + text <= b
    ensures |a| + |text| <= |b| && b[|a|..|a| + |text|] == text
  {
    assert b[..|a + text|] == a + text;
    assert b[|a|..|a + text|] == (a + text)[|a|..];
  }

  /** A record that finished has its whole line in the synced log, at its place, from then on. */
  lemma {:induction false} FinishedLineStays(h: Hash, s0: Sink, recs: seq<Rec>, j: nat)
    requires j < |recs| && recs[j].point == Finished
    ensures
      var text, place := TextOf(h, s0, recs, j), PlaceOf(h, s0, recs, j);
      var log := SinkAt(h, s0, recs).dev.log;
      place + |text| <= |log| && log[place..place + |text|] == text
  {
    hide Put, File, Line;
    var s := SinkAt(h, s0, recs[..j]);
    assert recs[..j + 1][..j] == recs[..j];
    FileGrows(h, s, recs[j].entry, Finished);
    SinkGrows(h, s0, recs, j + 1);
    var text := TextOf(h, s0, recs, j);
    assert File(s) + Line(h, s.mark, recs[j].entry) + "\n" == File(s) + text;
    PrefixSegment(File(s), text, SinkAt(h, s0, recs).dev.log);
  }

  /** Lines stand in the order of their records. */
  lemma {:induction false} PlacesInOrder(h: Hash, s0: Sink, recs: seq<Rec>, i: nat, j: nat)
    requires i < j < |recs| && recs[i].point == Finished
    ensures PlaceOf(h, s0, recs, i) + |TextOf(h, s0, recs, i)| <= PlaceOf(h, s0, recs, j)
  {
    hide Put, File, Line;
    var s := SinkAt(h, s0, recs[..i]);
    assert recs[..i + 1][..i] == recs[..i] && recs[..j][..i + 1] == recs[..i + 1];
    FileGrows(h, s, recs[i].entry, Finished);
    SinkGrows(h, s0, recs[..j], i + 1);
  }

  // ---- torn lines ----

  function Noughts(k: nat): (s: string)
    ensures |s| == k && forall i :: 0 <= i < k ==> s[i] == '0'
  {
    seq(k, i => '0')
  }

  predicate Digits(s: string) { forall i :: 0 <= i < |s| ==> IsDigit(s[i]) }

  /** What a broken-off line can leave in front of the next one: a tab, or the start of a number. */
  predicate Stub(m: Mark, frag: string)
  {
    && frag != "" && '\n' !in frag
    && ('\t' in frag || (if m.count == 0 then frag == Noughts(|frag|) else Digits(frag) && frag[0] != '0'))
  }

  lemma {:induction false} DecHead(n: nat)
    ensures n > 0 ==> Dec(n)[0] != '0'
  {
    if n >= 10 { DecHead(n / 10); }
  }

  lemma {:induction false} ValueSnoc(s: string, c: char)
    requires Digits(s) && IsDigit(c)
    ensures Digits(s + [c]) && Value(s + [c]) == 10 * Value(s) + (c as int - '0' as int)
  {
    assert (s + [c])[..|s|] == s;
  }

  lemma {:induction false} ValueOfNoughts(k: nat)
    ensures Value(Noughts(k)) == 0
  {
    if k > 0 {
      assert Noughts(k)[..k - 1] == Noughts(k - 1);
      ValueOfNoughts(k - 1);
    }
  }

  lemma {:induction false} ValuePositive(s: string)
    requires Digits(s) && s != "" && s[0] != '0'
    ensures Value(s) >= 1
  {
    if |s| > 1 { ValuePositive(s[..|s| - 1]); }
  }

  /** Digits in front of a number make it larger by ten at least. */
  lemma {:induction false} ValueAfter(a: string, b: string)
    requires Digits(a) && Digits(b) && b != "" && Value(a) >= 1
    ensures Digits(a + b) && Value(a + b) >= 10 + Value(b)
    decreases |b|
  {
    var k := |b| - 1;
    assert a + b == (a + b[..k]) + [b[k]] && b == b[..k] + [b[k]];
    if k > 0 { ValueAfter(a, b[..k]); }
    assert k == 0 ==> a + b[..k] == a;
    ValueSnoc(a + b[..k], b[k]);
    ValueSnoc(b[..k], b[k]);
  }

  lemma TabSplits(s: string)
    ensures '\t' in s ==> |Split(s, '\t')| >= 2
  {
    JoinSplit(s, '\t');
    if |Split(s, '\t')| == 1 { JoinOne(Split(s, '\t')[0], "\t"); }
  }

  /** The fields of a line that is glued to a stub without a tab. */
  function GluedFields(h: Hash, m: Mark, e: Entry, frag: string): (p: seq<string>)
    ensures |p| == 7
  {
    [frag + Dec(m.count)] + Fields(h, m, e)[1..]
  }

  lemma {:induction false} GluedContent(h: Hash, m: Mark, e: Entry, frag: string)
    ensures Content(GluedFields(h, m, e, frag)) == frag + Content(Unhashed(m, e))
  {
    var p, q := GluedFields(h, m, e, frag)[..6], Unhashed(m, e);
    assert p[1..] == q[1..] && q[..6] == q;
    assert Join(p, "|") == p[0] + "|" + Join(p[1..], "|");
    assert Join(q, "|") == q[0] + "|" + Join(q[1..], "|");
  }

  /** Nothing a stub without a tab can do lets the next line's number pass for another than nought. */
  lemma {:induction false} GluedNumber(m: Mark, b: Mark, frag: string)
    requires Stub(m, frag) && '\t' !in frag && (b.count == m.count || b.count == m.count + 1)
    ensures ParseU64(frag + Dec(m.count)) == Some(b.count) <==>
      m.count == 0 && b.count == 0 && frag == Noughts(|frag|)
  {
    var s := frag + Dec(m.count);
    ValueOfDec(m.count);
    if m.count == 0 {
      assert s == Noughts(|frag| + 1);
      ValueOfNoughts(|frag| + 1);
    } else {
      ValuePositive(frag);
      ValueAfter(frag, Dec(m.count));
      assert IsDigit(s[0]);
    }
  }

  /** The one way a glued line is accepted: noughts before the number nought, and a digest collision. */
  predicate Excused(h: Hash, m: Mark, e: Entry, b: Mark, frag: string)
  {
    && m.count == 0 && b.count == 0 && b.head == m.head && frag == Noughts(|frag|)
    && h(frag + Content(Unhashed(m, e))) == h(Content(Unhashed(m, e)))
  }

  lemma {:induction false} GluedAccepted(h: Hash, m: Mark, e: Entry, b: Mark, frag: string)
    requires CleanEntry(e) && ChainHead(m.head) && Stub(m, frag)
    requires b.count == m.count || b.count == m.count + 1
    ensures Accepts(h, frag + Line(h, m, e), b) <==> Excused(h, m, e, b, frag)
    ensures Accepts(h, frag + Line(h, m, e), b) ==> Split(frag + Line(h, m, e), '\t')[6] == NextMark(h, m, e).head
  {
    hide Content, Line, ParseU64, Utf8, Split;
    var line := Line(h, m, e);
    LineFields(h, m, e);
    if '\t' in frag {
      TabSplits(frag);
      SplitLength(frag, line, '\t');
      assert Excused(h, m, e, b, frag) ==> false by { NoTabInNoughts(|frag|); }
    } else {
      SplitPrefix(frag, line, '\t');
      assert Split(frag + line, '\t') == GluedFields(h, m, e, frag);
      GluedContent(h, m, e, frag);
      GluedNumber(m, b, frag);
      if frag == Noughts(|frag|) {
        Utf8Ascii(frag);
        Utf8Append(frag, line);
      }
    }
  }

  lemma NoTabInNoughts(k: nat)
    ensures '\t' !in Noughts(k)
  {
  }

  /** The next full line after a stub. */
  lemma {:induction false} GluedReplay(h: Hash, pre: string, b: Mark, frag: string, m: Mark, e: Entry)
    requires Terminated(pre) && Replay(h, pre) == Some(b) && Stub(m, frag)
    requires CleanEntry(e) && ChainHead(m.head) && (b.count == m.count || b.count == m.count + 1)
    ensures Replay(h, pre + frag + Line(h, m, e) + "\n")
         == if Excused(h, m, e, b, frag) then Some(Mark(b.count + 1, NextMark(h, m, e).head)) else None
  {
    hide Content, Line, Split, Lines, Accepts, Excused, NextMark, StripCR, Stub;
    var line := Line(h, m, e);
    var glued := frag + line;
    LineFields(h, m, e);
    assert '\n' !in frag by { StubHasNoFeed(m, frag); }
    GluedLine(glued);
    assert StripCR(glued) == glued by { SameEnd(frag, line); }
    LinesAppend(pre, glued + "\n");
    assert pre + frag + line + "\n" == pre + (glued + "\n");
    ReplayAppend(h, Lines(pre), [glued], Mark(0, GENESIS));
    GluedAccepted(h, m, e, b, frag);
    assert [glued][1..] == [];
  }

  lemma StubHasNoFeed(m: Mark, frag: string)
    requires Stub(m, frag)
    ensures '\n' !in frag && frag != ""
  {
  }

  lemma SameEnd(a: string, b: string)
    requires b != "" && StripCR(b) == b
    ensures StripCR(a + b) == a + b
  {
    assert (a + b)[|a + b| - 1] == b[|b| - 1];
    assert b[|b| - 1] == '\r' ==> |StripCR(b)| == |b| - 1;
  }

  /** What is written of a line before it ends is a stub. */
  lemma {:induction false} LineStub(h: Hash, m: Mark, e: Entry, n: nat)
    requires CleanEntry(e) && ChainHead(m.head) && 0 < n <= |Line(h, m, e)|
    ensures Stub(m, Line(h, m, e)[..n])
  {
    hide Content;
    var line := Line(h, m, e);
    LineFields(h, m, e);
    var d := Dec(m.count);
    LineStart(h, m, e);
    var frag := line[..n];
    DecHead(m.count);
    if n > |d| {
      assert frag[|d|] == '\t';
    } else {
      assert frag == d[..n];
    }
  }

  lemma {:induction false} LineStart(h: Hash, m: Mark, e: Entry)
    ensures |Line(h, m, e)| > |Dec(m.count)|
    ensures Line(h, m, e)[..|Dec(m.count)|] == Dec(m.count) && Line(h, m, e)[|Dec(m.count)|] == '\t'
  {
    hide Dec, Content, NextMark;
    var p := Fields(h, m, e);
    assert Join(p, "\t") == p[0] + "\t" + Join(p[1..], "\t");
  }

  lemma {:induction false} StubGrows(h: Hash, m: Mark, e: Entry, frag: string, n: nat)
    requires CleanEntry(e) && ChainHead(m.head) && 0 < n <= |Line(h, m, e)| && Stub(m, frag)
    ensures Stub(m, frag + Line(h, m, e)[..n])
  {
    hide Line;
    LineStub(h, m, e, n);
  }

  // ---- one failed record ----

  /** The named collision: a line's content, and the same with noughts in front, hash alike. */
  predicate PaddedCollision(h: Hash, m: Mark, e: Entry, k: nat)
  {
    m.count == 0 && k > 0 && Collision(h, Noughts(k) + Content(Unhashed(m, e)), Content(Unhashed(m, e)))
  }

  lemma ExcusedIsCollision(h: Hash, m: Mark, e: Entry, b: Mark, frag: string)
    requires frag != ""
    ensures Excused(h, m, e, b, frag) ==> PaddedCollision(h, m, e, |frag|)
  {
    var c := Content(Unhashed(m, e));
    assert |frag + c| != |c|;
  }

  /** A full line, numbered as the memory is, on a file that already counts one more. */
  lemma {:induction false} StaleFile(h: Hash, file: string, m: Mark, e: Entry)
    requires Terminated(file) && Replay(h, file).Some? && Replay(h, file).value.count == m.count + 1
    requires CleanEntry(e) && ChainHead(m.head) && m.count < U64_BOUND
    ensures Replay(h, file + Line(h, m, e) + "\n") == None
  {
    hide Replay, Line;
    StaleLineRefused(h, file, m, Replay(h, file).value, e);
    assert file + Line(h, m, e) + "\n" == file + (Line(h, m, e) + "\n");
  }

  /**
   A record that failed, wherever it stopped, then one that finished: the log replays to the memory if
   and only if no byte of the failed line was written, or its first digit alone was, the chain was
   empty, and the digest collides on that nought. Otherwise it never replays.
   */
  lemma {:induction false} FailedRecordForks(h: Hash, s: Sink, a: Entry, b: Entry, at: Point)
    requires Settled(h, s.mark, s.dev) && CleanEntry(a) && CleanEntry(b) && s.mark.count + 1 < U64_BOUND
    requires at != Finished
    ensures
      var after := Put(h, Put(h, s, a, at), b, Finished);
      var kept := at == Writing(0) || (at == Writing(1) && PaddedCollision(h, s.mark, b, 1));
      && (Replay(h, after.dev.log) == Some(after.mark) <==> kept)
      && (!kept ==> Replay(h, after.dev.log) == None)
  {
    hide Settled, Line, Content, Replay, Stub, Excused, PaddedCollision;
    var m := s.mark;
    var file := File(s);
    var line := Line(h, m, a);
    var s1 := Put(h, s, a, at);
    var after := Put(h, s1, b, Finished);
    assert file == s.dev.log && Terminated(file) by { SettledTail(h, s); }
    SettledHead(h, m, s.dev);
    FileGrows(h, s, a, at);
    FileGrows(h, s1, b, Finished);
    assert s1.mark == m && after.dev.log == file + Added(line, at) + Line(h, m, b) + "\n";
    LogGrows(h, file, m, a);
    LogGrows(h, file, m, b);
    if at.Writing? && at.n <= |line| {
      if at.n == 0 {
        assert file + line[..0] == file;
        assert file + Line(h, m, b) + "\n" == file + (Line(h, m, b) + "\n");
      } else {
        TornThenLine(h, file, m, a, b, at.n);
      }
    } else {
      assert file + (line + "\n") == file + Added(line, at);
      StaleFile(h, file + (line + "\n"), m, b);
      assert |line| > 1 by { LineStart(h, m, a); }
    }
  }

  lemma {:induction false} TornThenLine(h: Hash, file: string, m: Mark, a: Entry, b: Entry, n: nat)
    requires Terminated(file) && Replay(h, file) == Some(m) && ChainHead(m.head) && CleanEntry(a) && CleanEntry(b)
    requires 0 < n <= |Line(h, m, a)|
    ensures Replay(h, file + Line(h, m, a)[..n] + Line(h, m, b) + "\n")
         == if n == 1 && PaddedCollision(h, m, b, 1) then Some(NextMark(h, m, b)) else None
  {
    hide Line, Content, Replay, Stub, Excused, PaddedCollision;
    LineStub(h, m, a, n);
    GluedReplay(h, file, m, Line(h, m, a)[..n], m, b);
    OneNought(h, m, a, b, n);
  }

  lemma SettledTail(h: Hash, s: Sink)
    requires Settled(h, s.mark, s.dev)
    ensures File(s) == s.dev.log && Terminated(s.dev.log)
  {
  }

  /** Of a line numbered nought only the first byte is noughts and nothing else. */
  lemma {:induction false} OneNought(h: Hash, m: Mark, a: Entry, b: Entry, n: nat)
    requires 0 < n <= |Line(h, m, a)|
    ensures Excused(h, m, b, m, Line(h, m, a)[..n]) <==> n == 1 && PaddedCollision(h, m, b, 1)
  {
    hide Content, Line;
    var line := Line(h, m, a);
    var frag := line[..n];
    LineStart(h, m, a);
    ExcusedIsCollision(h, m, b, m, frag);
    if m.count == 0 {
      assert Dec(0) == "0" && line[0] == '0' && line[1] == '\t';
      if n == 1 {
        assert frag == Noughts(1);
      } else {
        assert frag[1] == '\t' && Noughts(n)[1] == '0';
      }
    }
  }

  // ---- any number of records ----

  /** No record stopped after a byte of its line was written. */
  predicate Quiet(recs: seq<Rec>)
  {
    forall j :: 0 <= j < |recs| ==> recs[j].point == Finished || recs[j].point == Writing(0)
  }

  ghost predicate NamedCollision(h: Hash, s0: Sink, recs: seq<Rec>)
  {
    exists j, k: nat :: 0 <= j < |recs| && PaddedCollision(h, SinkAt(h, s0, recs[..j]).mark, recs[j].entry, k)
  }

  /** The file holds, up to some line end, what no replay accepts. */
  ghost predicate Dead(h: Hash, file: string)
  {
    exists n :: 0 <= n <= |file| && Terminated(file[..n]) && Replay(h, file[..n]) == None
  }

  /** The file is a whole line ahead of the memory. */
  ghost predicate Ahead(h: Hash, m: Mark, file: string)
  {
    Terminated(file) && Replay(h, file).Some? && Replay(h, file).value.count == m.count + 1
  }

  /** The file ends in a broken-off line, after lines that count as the memory does, or one more. */
  ghost predicate Torn(h: Hash, m: Mark, file: string)
  {
    exists n :: 0 <= n < |file| && TornAt(h, m, file, n)
  }

  ghost predicate TornAt(h: Hash, m: Mark, file: string, n: nat)
    requires n <= |file|
  {
    && Terminated(file[..n]) && Stub(m, file[n..]) && Replay(h, file[..n]).Some?
    && (Replay(h, file[..n]).value.count == m.count || Replay(h, file[..n]).value.count == m.count + 1)
  }

  ghost predicate Broken(h: Hash, m: Mark, file: string)
  {
    Dead(h, file) || Ahead(h, m, file) || Torn(h, m, file)
  }

  lemma {:induction false} DeadForever(h: Hash, file: string, more: string)
    requires Dead(h, file)
    ensures Dead(h, file + more) && Replay(h, file + more) == None
  {
    hide Replay, Terminated;
    var n :| 0 <= n <= |file| && Terminated(file[..n]) && Replay(h, file[..n]) == None;
    var all := file + more;
    assert all[..n] == file[..n] && all == all[..n] + all[n..];
    DeadLines(h, all[..n], all[n..]);
  }

  lemma {:induction false} DeadLines(h: Hash, pre: string, rest: string)
    requires Terminated(pre) && Replay(h, pre) == None
    ensures Replay(h, pre + rest) == None
  {
    hide Lines, ReplayFrom;
    LinesAppend(pre, rest);
    ReplayAppend(h, Lines(pre), Lines(rest), Mark(0, GENESIS));
  }

  /** None of these files replays to the memory. */
  lemma {:induction false} BrokenIsNotMemory(h: Hash, m: Mark, file: string)
    requires Broken(h, m, file)
    ensures Replay(h, file) != Some(m)
  {
    hide Replay, Terminated, Stub;
    if Dead(h, file) {
      DeadForever(h, file, "");
      assert file + "" == file;
    } else if !Ahead(h, m, file) {
      var n :| 0 <= n < |file| && TornAt(h, m, file, n);
      StubHasNoFeed(m, file[n..]);
      assert file == file[..n] + file[n..];
      TornCounts(h, file[..n], file[n..]);
    }
  }

  lemma {:induction false} TornCounts(h: Hash, pre: string, frag: string)
    requires Terminated(pre) && Replay(h, pre).Some? && frag != "" && '\n' !in frag
    ensures Replay(h, pre + frag).Some? ==> Replay(h, pre + frag).value.count == Replay(h, pre).value.count + 1
  {
    hide Lines, ReplayFrom;
    OneLine(frag);
    LinesAppend(pre, frag);
    ReplayCounts(h, Lines(pre), Mark(0, GENESIS));
    ReplayCounts(h, Lines(pre + frag), Mark(0, GENESIS));
  }

  /** The first record to stop after a byte was written breaks the file. */
  lemma {:induction false} BreakStarts(h: Hash, s: Sink, e: Entry, at: Point)
    requires Settled(h, s.mark, s.dev) && CleanEntry(e) && s.mark.count + 1 < U64_BOUND
    requires at != Finished && at != Writing(0)
    ensures Broken(h, s.mark, File(Put(h, s, e, at)))
  {
    hide Settled, Line, Content, Replay, Stub;
    var m, file := s.mark, File(s);
    var line := Line(h, m, e);
    var all := file + Added(line, at);
    assert file == s.dev.log && Terminated(file) by { SettledTail(h, s); }
    SettledHead(h, m, s.dev);
    FileGrows(h, s, e, at);
    if at.Writing? && at.n <= |line| {
      LineStub(h, m, e, at.n);
      assert all[..|file|] == file && all[|file|..] == line[..at.n];
      assert TornAt(h, m, all, |file|);
    } else {
      LogGrows(h, file, m, e);
      assert all == file + (line + "\n");
    }
  }

  /** Once broken the file stays broken, or the collision is exhibited. */
  lemma {:induction false} BreakLasts(h: Hash, s: Sink, e: Entry, at: Point)
    requires Broken(h, s.mark, File(s)) && CleanEntry(e) && ChainHead(s.mark.head) && s.mark.count + 1 < U64_BOUND
    ensures
      || Broken(h, Put(h, s, e, at).mark, File(Put(h, s, e, at)))
      || exists k: nat :: PaddedCollision(h, s.mark, e, k)
  {
    hide Line, Content, Replay, Stub, PaddedCollision, NextMark, Dead, Terminated;
    var m, file := s.mark, File(s);
    var line := Line(h, m, e);
    var more := Added(line, at);
    FileGrows(h, s, e, at);
    if Dead(h, file) {
      DeadForever(h, file, more);
    } else if more == "" {
      assert file + more == file && at != Finished;
    } else if at.Writing? && at.n <= |line| {
      PartOnBroken(h, m, file, e, at.n);
    } else {
      LineOnBroken(h, m, file, e);
      assert file + more == file + line + "\n";
    }
  }

  /** Part of a line on a file that is ahead or torn. */
  lemma {:induction false} PartOnBroken(h: Hash, m: Mark, file: string, e: Entry, n: nat)
    requires (Ahead(h, m, file) || Torn(h, m, file)) && CleanEntry(e) && ChainHead(m.head)
    requires 0 < n <= |Line(h, m, e)|
    ensures Torn(h, m, file + Line(h, m, e)[..n])
  {
    hide Line, Replay, Stub, Terminated;
    var part := Line(h, m, e)[..n];
    var all := file + part;
    if Ahead(h, m, file) {
      LineStub(h, m, e, n);
      assert all[..|file|] == file && all[|file|..] == part;
      assert TornAt(h, m, all, |file|);
    } else {
      var k :| 0 <= k < |file| && TornAt(h, m, file, k);
      StubGrows(h, m, e, file[k..], n);
      assert all[..k] == file[..k] && all[k..] == file[k..] + part;
      assert TornAt(h, m, all, k);
    }
  }

  /** A whole line on a file that is ahead or torn kills it, but for the collision. */
  lemma {:induction false} LineOnBroken(h: Hash, m: Mark, file: string, e: Entry)
    requires (Ahead(h, m, file) || Torn(h, m, file)) && CleanEntry(e) && ChainHead(m.head) && m.count < U64_BOUND
    ensures Dead(h, file + Line(h, m, e) + "\n") || exists k: nat :: PaddedCollision(h, m, e, k)
  {
    hide Line, Replay, Stub, Content, Excused, PaddedCollision, NextMark;
    var all := file + Line(h, m, e) + "\n";
    assert all[..|all|] == all && Terminated(all);
    if Ahead(h, m, file) {
      StaleFile(h, file, m, e);
    } else {
      var k :| 0 <= k < |file| && TornAt(h, m, file, k);
      var frag := file[k..];
      StubHasNoFeed(m, frag);
      assert file == file[..k] + frag;
      GluedReplay(h, file[..k], Replay(h, file[..k]).value, frag, m, e);
      ExcusedIsCollision(h, m, e, Replay(h, file[..k]).value, frag);
    }
  }

  lemma {:induction false} MarkAfter(h: Hash, s0: Sink, recs: seq<Rec>)
    requires ChainHead(s0.mark.head)
    ensures
      var m := SinkAt(h, s0, recs).mark;
      ChainHead(m.head) && s0.mark.count <= m.count <= s0.mark.count + |recs|
  {
    if recs != [] {
      var k := |recs| - 1;
      MarkAfter(h, s0, recs[..k]);
      assert IsDigest(h(Content(Unhashed(SinkAt(h, s0, recs[..k]).mark, recs[k].entry))));
    }
  }

  predicate CleanRecs(recs: seq<Rec>) { forall j :: 0 <= j < |recs| ==> CleanEntry(recs[j].entry) }

  /** Without a break the sink stays settled. */
  lemma {:induction false} QuietSettled(h: Hash, s0: Sink, recs: seq<Rec>)
    requires Settled(h, s0.mark, s0.dev) && Quiet(recs) && CleanRecs(recs) && s0.mark.count + |recs| < U64_BOUND
    ensures Settled(h, SinkAt(h, s0, recs).mark, SinkAt(h, s0, recs).dev)
  {
    hide Settled, Line, AnchorText, NextMark, CleanEntry;
    if recs != [] {
      var k := |recs| - 1;
      QuietSettled(h, s0, recs[..k]);
      var s := SinkAt(h, s0, recs[..k]);
      SettledHead(h, s0.mark, s0.dev);
      MarkAfter(h, s0, recs[..k]);
      if recs[k].point == Finished {
        RecordSettles(h, s.mark, s.dev, recs[k].entry);
      } else {
        NothingWritten(h, s, recs[k].entry);
      }
    }
  }

  lemma NothingWritten(h: Hash, s: Sink, e: Entry)
    ensures Put(h, s, e, Writing(0)) == s
  {
    assert s.dev.tail + "" == s.dev.tail;
  }

  lemma {:induction false} NoisyBroken(h: Hash, s0: Sink, recs: seq<Rec>)
    requires Settled(h, s0.mark, s0.dev) && CleanRecs(recs) && s0.mark.count + |recs| < U64_BOUND
    requires !Quiet(recs)
    ensures Broken(h, SinkAt(h, s0, recs).mark, File(SinkAt(h, s0, recs))) || NamedCollision(h, s0, recs)
  {
    hide Settled, Broken, PaddedCollision, CleanEntry, Put, File, SinkAt;
    var k := |recs| - 1;
    var before := recs[..k];
    var s := SinkAt(h, s0, before);
    LastPut(h, s0, recs);
    SettledHead(h, s0.mark, s0.dev);
    MarkAfter(h, s0, before);
    assert CleanEntry(recs[k].entry);
    if Quiet(before) {
      QuietSettled(h, s0, before);
      assert recs[k].point != Finished && recs[k].point != Writing(0);
      BreakStarts(h, s, recs[k].entry, recs[k].point);
      assert Put(h, s, recs[k].entry, recs[k].point).mark == s.mark by { NotMoved(h, s, recs[k].entry, recs[k].point); }
    } else {
      NoisyBroken(h, s0, before);
      if Broken(h, s.mark, File(s)) {
        BreakLasts(h, s, recs[k].entry, recs[k].point);
        if j: nat :| PaddedCollision(h, s.mark, recs[k].entry, j) { assert recs[..k] == before; }
      } else {
        var j, n: nat :| 0 <= j < |before| && PaddedCollision(h, SinkAt(h, s0, before[..j]).mark, before[j].entry, n);
        assert before[..j] == recs[..j] && before[j] == recs[j];
      }
    }
  }

  lemma LastPut(h: Hash, s0: Sink, recs: seq<Rec>)
    requires recs != []
    ensures
      var r := recs[|recs| - 1];
      SinkAt(h, s0, recs) == Put(h, SinkAt(h, s0, recs[..|recs| - 1]), r.entry, r.point)
  {
  }

  lemma NotMoved(h: Hash, s: Sink, e: Entry, at: Point)
    requires at != Finished
    ensures Put(h, s, e, at).mark == s.mark
  {
  }

  /**
   The log file replays to the memory if and only if no record ever stopped after a byte of its
   line; or two contents, one the other with noughts in front, are a digest collision.
   */
  lemma {:induction false} ReplaysIffQuiet(h: Hash, s0: Sink, recs: seq<Rec>)
    requires Settled(h, s0.mark, s0.dev) && CleanRecs(recs) && s0.mark.count + |recs| < U64_BOUND
    ensures
      var s := SinkAt(h, s0, recs);
      (Replay(h, File(s)) == Some(s.mark) <==> Quiet(recs)) || NamedCollision(h, s0, recs)
  {
    hide Settled, Broken, Put, CleanEntry, Quiet, NamedCollision, SinkAt, Replay;
    var s := SinkAt(h, s0, recs);
    if Quiet(recs) {
      QuietSettled(h, s0, recs);
      SettledHead(h, s.mark, s.dev);
      SettledTail(h, s);
    } else {
      NoisyBroken(h, s0, recs);
      if Broken(h, s.mark, File(s)) { BrokenIsNotMemory(h, s.mark, File(s)); }
    }
  }

  /** A finished record on a settled sink adds its line to the lines of the log. */
  lemma {:induction false} OneMoreLine(h: Hash, s: Sink, e: Entry)
    requires Settled(h, s.mark, s.dev) && CleanEntry(e) && s.mark.count < U64_BOUND
    ensures Lines(Put(h, s, e, Finished).dev.log) == Lines(s.dev.log) + [Line(h, s.mark, e)]
  {
    hide Settled, Line, AnchorText, NextMark, CleanEntry, Lines, Put;
    var line := Line(h, s.mark, e);
    SettledHead(h, s.mark, s.dev);
    SettledTail(h, s);
    FileGrows(h, s, e, Finished);
    LineReplays(h, s.mark, e);
    assert s.dev.log + line + "\n" == s.dev.log + (line + "\n");
    LinesAppend(s.dev.log, line + "\n");
  }

  /** While it is quiet, every finished record is the line of the log that its number says. */
  lemma {:induction false} QuietLines(h: Hash, s0: Sink, recs: seq<Rec>, j: nat)
    requires Settled(h, s0.mark, s0.dev) && Quiet(recs) && CleanRecs(recs) && s0.mark.count + |recs| < U64_BOUND
    requires j < |recs| && recs[j].point == Finished
    ensures
      var m, lines := SinkAt(h, s0, recs[..j]).mark, Lines(SinkAt(h, s0, recs).dev.log);
      m.count < |lines| && lines[m.count] == Line(h, m, recs[j].entry)
    decreases |recs|
  {
    hide Settled, Line, AnchorText, NextMark, CleanEntry, Lines, Put, SinkAt;
    var k := |recs| - 1;
    var before := recs[..k];
    var s := SinkAt(h, s0, before);
    LastPut(h, s0, recs);
    QuietSettled(h, s0, before);
    SettledHead(h, s.mark, s.dev);
    SettledHead(h, s0.mark, s0.dev);
    MarkAfter(h, s0, before);
    if j < k {
      assert before[..j] == recs[..j];
      QuietLines(h, s0, before, j);
    }
    assert CleanEntry(recs[k].entry);
    if recs[k].point == Finished {
      OneMoreLine(h, s, recs[k].entry);
    } else {
      NothingWritten(h, s, recs[k].entry);
    }
  }
}
