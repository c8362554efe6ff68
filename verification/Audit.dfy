/**
 The durable audit log (`audit.rs`): a text log of hash-chained lines, an anchor file
 replaced atomically, and a recovery routine that replays the log before resuming it.
 */
module Audit {
  import opened Text

  const GENESIS: string := "GENESIS"

  /** What a session asks the sink to record. */
  datatype Entry = Entry(session: string, op: string, detail: string, decision: string)

  /** `count` and `head` of a sink or of a replayed log. */
  datatype Mark = Mark(count: nat, head: string)

  // ---- printing ----

  /** A field that cannot be mistaken for a separator and that reads back as text. */
  predicate CleanField(s: string)
  {
    '\t' !in s && '\n' !in s && Utf8(s)
  }

  predicate CleanEntry(e: Entry)
  {
    CleanField(e.session) && CleanField(e.op) && CleanField(e.detail) && CleanField(e.decision)
  }

  /** What `Session::audit` does to each text before it is hashed or written. */
  function Sanitize(s: string): string
  {
    seq(|s|, i requires 0 <= i < |s| => if s[i] == '\t' || s[i] == '\n' then ' ' else s[i])
  }

  /** Any text becomes a clean field. */
  lemma {:induction false} SanitizeIsClean(s: string)
    requires Utf8(s)
    ensures CleanField(Sanitize(s))
    decreases |s|
  {
    var t := Sanitize(s);
    forall i | 0 <= i < |t| ensures t[i] != '\t' && t[i] != '\n' {}
    if s != "" {
      var w := Width(s);
      SanitizeWidth(s);
      hide Width;
      SanitizeIsClean(s[w..]);
      assert t[w..] == Sanitize(s[w..]);
    }
  }

  lemma SanitizeWidth(s: string)
    requires Width(s) > 0
    ensures Width(Sanitize(s)) == Width(s)
  {
    var t := Sanitize(s);
    assert forall i :: 0 <= i < |s| && s[i] as int >= 0x80 ==> t[i] == s[i];
    assert s[0] as int < 0x80 ==> t[0] as int < 0x80;
  }

  /** The hashed content: the first six fields joined by bars, without lengths. */
  function Content(p: seq<string>): string
    requires |p| >= 6
  {
    Join(p[..6], "|")
  }

  function Unhashed(m: Mark, e: Entry): (p: seq<string>)
    ensures |p| == 6
  {
    [Dec(m.count), e.session, e.op, e.detail, e.decision, m.head]
  }

  function NextMark(h: Hash, m: Mark, e: Entry): Mark
  {
    Mark(m.count + 1, h(Content(Unhashed(m, e))))
  }

  function Fields(h: Hash, m: Mark, e: Entry): (p: seq<string>)
    ensures |p| == 7
  {
    Unhashed(m, e) + [NextMark(h, m, e).head]
  }

  function Line(h: Hash, m: Mark, e: Entry): string
  {
    Join(Fields(h, m, e), "\t")
  }

  function AnchorText(m: Mark): string
  {
    Dec(m.count) + "\t" + m.head
  }

  // ---- reading ----

  function StripCR(s: string): string
  {
    if s != "" && s[|s| - 1] == '\r' then s[..|s| - 1] else s
  }

  function StripAll(parts: seq<string>): (r: seq<string>)
    ensures |r| == |parts|
  {
    seq(|parts|, i requires 0 <= i < |parts| => StripCR(parts[i]))
  }

  /** `BufRead::lines`: a line end is LF or CR LF; an unfinished last line is still a line. */
  function Lines(log: string): seq<string>
  {
    var parts := Split(log, '\n');
    var last := parts[|parts| - 1];
    StripAll(parts[..|parts| - 1]) + if last == "" then [] else [last]
  }

  predicate Accepts(h: Hash, line: string, m: Mark)
  {
    var p := Split(line, '\t');
    && Utf8(line)
    && |p| == 7
    && ParseU64(p[0]) == Some(m.count)
    && p[5] == m.head
    && h(Content(p)) == p[6]
  }

  /** Replaying lines on top of a mark; `None` is a refused log. */
  function ReplayFrom(h: Hash, lines: seq<string>, m: Mark): Option<Mark>
  {
    if lines == [] then Some(m)
    else if !Accepts(h, lines[0], m) then None
    else ReplayFrom(h, lines[1..], Mark(m.count + 1, Split(lines[0], '\t')[6]))
  }

  function Replay(h: Hash, log: string): Option<Mark>
  {
    ReplayFrom(h, Lines(log), Mark(0, GENESIS))
  }

  /** `replay`, the loop of the source. */
  method ReplayLog(h: Hash, log: string) returns (r: Option<Mark>)
    ensures r == Replay(h, log)
  {
    var lines := Lines(log);
    var prev, count, head := GENESIS, 0, GENESIS;
    var i := 0;
    while i < |lines|
      invariant 0 <= i <= |lines| && count == i && head == prev
      invariant ReplayFrom(h, lines[i..], Mark(count, head)) == Replay(h, log)
    {
      assert lines[i..][0] == lines[i] && lines[i..][1..] == lines[i + 1..];
      if !Utf8(lines[i]) { return None; }
      var p := Split(lines[i], '\t');
      if |p| != 7 { return None; }
      var seqno := ParseU64(p[0]);
      if seqno == None || seqno.value != i || p[5] != prev { return None; }
      if h(Content(p)) != p[6] { return None; }
      prev, head, count := p[6], p[6], seqno.value + 1;
      i := i + 1;
    }
    r := Some(Mark(count, head));
  }

  predicate AnchorSays(anchor: Option<string>, m: Mark)
  {
    && anchor.Some?
    && Utf8(anchor.value)
    && var a := Split(Trim(anchor.value), '\t');
      |a| == 2 && ParseU64(a[0]) == Some(m.count) && a[1] == m.head
  }

  /** `AuditSink::open` on what the disk holds (a missing log is `None`). */
  function Open(h: Hash, log: Option<string>, anchor: Option<string>): Option<Mark>
  {
    var r := if log.Some? then Replay(h, log.value) else Some(Mark(0, GENESIS));
    if r.Some? && (r.value.count > 0 || anchor.Some?) && !AnchorSays(anchor, r.value) then None else r
  }

  /** `verify_persisted`. */
  predicate VerifyPersisted(h: Hash, log: Option<string>, anchor: Option<string>)
  {
    log.Some? && Replay(h, log.value).Some? && AnchorSays(anchor, Replay(h, log.value).value)
  }

  // ---- lines of a growing log ----

  /** The shape every log written by `record` has: empty, or ending in a line feed. */
  predicate Terminated(log: string)
  {
    log == "" || log[|log| - 1] == '\n'
  }

  lemma {:induction false} StripAllAppend(a: seq<string>, b: seq<string>)
    ensures StripAll(a + b) == StripAll(a) + StripAll(b)
  {
  }

  lemma {:induction false} LinesAfterFeed(a: string, b: string)
    ensures Lines(a + "\n" + b) == StripAll(Split(a, '\n')) + Lines(b)
  {
    SplitAt(a, '\n', b);
    hide Split, StripCR;
    var pa, pb := Split(a, '\n'), Split(b, '\n');
    var all := pa + pb;
    var tail := if pb[|pb| - 1] == "" then [] else [pb[|pb| - 1]];
    assert Split(a + "\n" + b, '\n') == all;
    assert all[..|all| - 1] == pa + pb[..|pb| - 1];
    assert all[|all| - 1] == pb[|pb| - 1];
    StripAllAppend(pa, pb[..|pb| - 1]);
    assert (StripAll(pa) + StripAll(pb[..|pb| - 1])) + tail == StripAll(pa) + (StripAll(pb[..|pb| - 1]) + tail);
  }

  /** Past a line feed, what is appended forms its own lines. */
  lemma {:induction false} LinesAppend(log: string, more: string)
    requires Terminated(log)
    ensures Lines(log + more) == Lines(log) + Lines(more)
  {
    if log == "" {
      assert log + more == more;
      assert Lines(log) == [];
    } else {
      var a := log[..|log| - 1];
      assert log == a + "\n" + "" && log + more == a + "\n" + more;
      LinesAfterFeed(a, "");
      LinesAfterFeed(a, more);
    }
  }

  lemma {:induction false} OneLine(s: string)
    requires s != "" && '\n' !in s
    ensures Lines(s) == [s]
  {
    SplitWhole(s, '\n');
  }

  lemma {:induction false} ReplayAppend(h: Hash, a: seq<string>, b: seq<string>, m: Mark)
    ensures ReplayFrom(h, a + b, m)
         == if ReplayFrom(h, a, m).None? then None else ReplayFrom(h, b, ReplayFrom(h, a, m).value)
    decreases |a|
  {
    if a == [] {
      assert a + b == b;
    } else if Accepts(h, a[0], m) {
      assert (a + b)[1..] == a[1..] + b;
      ReplayAppend(h, a[1..], b, Mark(m.count + 1, Split(a[0], '\t')[6]));
    }
  }

  /** A replay counts lines: its result names the number of lines it read. */
  lemma {:induction false} ReplayCounts(h: Hash, lines: seq<string>, m: Mark)
    ensures ReplayFrom(h, lines, m).Some? ==> ReplayFrom(h, lines, m).value.count == m.count + |lines|
  {
    if lines != [] && Accepts(h, lines[0], m) {
      ReplayCounts(h, lines[1..], Mark(m.count + 1, Split(lines[0], '\t')[6]));
    }
  }

  predicate ChainHead(s: string) { s == GENESIS || IsDigest(s) }

  lemma {:induction false} ChainHeadClean(s: string)
    requires ChainHead(s)
    ensures CleanField(s) && '|' !in s && s != ""
    ensures forall i :: 0 <= i < |s| ==> s[i] as int < 0x80
    ensures !IsSpace(s[|s| - 1..]) && s[|s| - 1] != '\r'
  {
    hide Utf8;
    if IsDigest(s) {
      forall i | 0 <= i < |s| ensures IsHex(s[i]) {}
    } else {
      assert s == "GENESIS";
    }
    Utf8Ascii(s);
  }

  lemma {:induction false} ReplayHead(h: Hash, lines: seq<string>, m: Mark)
    requires ChainHead(m.head)
    ensures ReplayFrom(h, lines, m).Some? ==> ChainHead(ReplayFrom(h, lines, m).value.head)
  {
    if lines != [] && Accepts(h, lines[0], m) {
      assert IsDigest(h(Content(Split(lines[0], '\t'))));
      ReplayHead(h, lines[1..], Mark(m.count + 1, Split(lines[0], '\t')[6]));
    }
  }

  // ---- one record ----

  lemma {:induction false} DecClean(n: nat)
    ensures CleanField(Dec(n))
    ensures forall i :: 0 <= i < |Dec(n)| ==> Dec(n)[i] as int < 0x80
  {
    forall i | 0 <= i < |Dec(n)| ensures IsDigit(Dec(n)[i]) {}
    Utf8Ascii(Dec(n));
  }

  lemma {:induction false} FieldsClean(h: Hash, m: Mark, e: Entry)
    requires CleanEntry(e) && ChainHead(m.head)
    ensures forall i :: 0 <= i < 7 ==> CleanField(Fields(h, m, e)[i])
    ensures |Fields(h, m, e)[6]| == 64 && Fields(h, m, e)[6][63] != '\r'
  {
    hide Utf8, Dec, Content, IsSpace;
    var last := Fields(h, m, e)[6];
    assert IsDigest(last);
    DecClean(m.count);
    ChainHeadClean(m.head);
    ChainHeadClean(last);
  }

  lemma {:induction false} LineFields(h: Hash, m: Mark, e: Entry)
    requires CleanEntry(e) && ChainHead(m.head)
    ensures Split(Line(h, m, e), '\t') == Fields(h, m, e)
    ensures Utf8(Line(h, m, e)) && '\n' !in Line(h, m, e)
    ensures Line(h, m, e) != "" && StripCR(Line(h, m, e)) == Line(h, m, e)
  {
    var p := Fields(h, m, e);
    var sep := ['\t'];
    FieldsClean(h, m, e);
    assert Line(h, m, e) == Join(p, sep);
    SplitJoin(p, '\t');
    assert Utf8(sep) by { Utf8Ascii(sep); }
    Utf8Join(p, sep);
    NoFeedInJoin(p, sep);
    LineEnd(p, sep);
  }

  lemma {:induction false} LineEnd(p: seq<string>, sep: string)
    requires |p| == 7 && |p[6]| == 64
    ensures Join(p, sep) != "" && Join(p, sep)[|Join(p, sep)| - 1] == p[6][63]
  {
    JoinAppend(p[..6], p[6..], sep);
    assert p == p[..6] + p[6..];
    assert p[6..] == [p[6]];
  }

  lemma {:induction false} NoFeedInJoin(parts: seq<string>, sep: string)
    requires '\n' !in sep
    requires forall i :: 0 <= i < |parts| ==> '\n' !in parts[i]
    ensures '\n' !in Join(parts, sep)
  {
    if |parts| > 1 { NoFeedInJoin(parts[1..], sep); }
  }

  /** The recorded line is one line, and it is the line the replay accepts next. */
  lemma {:induction false} LineReplays(h: Hash, m: Mark, e: Entry)
    requires CleanEntry(e) && ChainHead(m.head) && m.count < U64_BOUND
    ensures Lines(Line(h, m, e) + "\n") == [Line(h, m, e)]
    ensures ReplayFrom(h, [Line(h, m, e)], m) == Some(NextMark(h, m, e))
  {
    var line := Line(h, m, e);
    LineFields(h, m, e);
    LinesAfterFeed(line, "");
    assert line + "\n" + "" == line + "\n";
    SplitWhole(line, '\n');
    assert StripAll([line]) == [line];
    ParseOfDec(m.count);
    var p := Split(line, '\t');
    assert p[..6] == Unhashed(m, e)[..6];
  }

  lemma {:induction false} AnchorPlain(m: Mark)
    requires ChainHead(m.head)
    ensures Utf8(AnchorText(m)) && Trim(AnchorText(m)) == AnchorText(m)
  {
    hide Utf8, Dec, Trim;
    var d, t := Dec(m.count), AnchorText(m);
    DecClean(m.count);
    ChainHeadClean(m.head);
    forall i | 0 <= i < |t| ensures t[i] as int < 0x80 {
      if i < |d| { assert t[i] == d[i]; }
      else if i > |d| { assert t[i] == m.head[i - |d| - 1]; }
    }
    Utf8Ascii(t);
    assert IsDigit(d[0]) && t[..1] == [d[0]];
    assert t[|t| - 1..] == m.head[|m.head| - 1..];
    TrimAscii(t);
  }

  lemma {:induction false} AnchorFields(m: Mark)
    requires ChainHead(m.head)
    ensures Split(AnchorText(m), '\t') == [Dec(m.count), m.head]
  {
    DecClean(m.count);
    ChainHeadClean(m.head);
    SplitAt(Dec(m.count), '\t', m.head);
    SplitWhole(Dec(m.count), '\t');
    SplitWhole(m.head, '\t');
  }

  /** A written anchor names its own mark and no other. */
  lemma {:induction false} AnchorReads(m: Mark, n: Mark)
    requires ChainHead(m.head) && m.count < U64_BOUND
    ensures AnchorSays(Some(AnchorText(m)), n) <==> n == m
  {
    AnchorPlain(m);
    AnchorFields(m);
    ParseOfDec(m.count);
  }
}
