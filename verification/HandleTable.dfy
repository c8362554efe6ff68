/**
 The per-process handle table and the guest's system calls (`capvm.rs`): a guest names what it
 uses by small numbers, and only the host puts capabilities into the table.
 */
module HandleTable {
  import opened Text
  import opened Registry
  import opened Broker
  import opened Sessions
  import Consent
  import Paths

  // ---- the table as a value ----

  type Slots = seq<Option<Ref>>

  /** The finite map from handles to references that the slots stand for. */
  function Table(e: Slots): map<nat, Ref>
  {
    map h: nat | h < |e| && e[h].Some? :: e[h].value
  }

  function Live(e: Slots): (n: nat)
    ensures n <= |e|
  {
    if e == [] then 0 else (if e[0].Some? then 1 else 0) + Live(e[1..])
  }

  /** The least number that is not a live handle. */
  predicate LeastFree(t: map<nat, Ref>, h: nat) { h !in t && forall k: nat :: k < h ==> k in t }

  /** Index of the first empty slot, or the length. */
  function Gap(e: Slots): (h: nat)
    ensures h <= |e| && (h < |e| ==> e[h].None?) && forall k :: 0 <= k < h ==> e[k].Some?
  {
    if e == [] || e[0].None? then 0 else Gap(e[1..]) + 1
  }

  function Installed(e: Slots, cap: Ref): Slots
  {
    if Gap(e) < |e| then e[Gap(e) := Some(cap)] else e + [Some(cap)]
  }

  function Closed(e: Slots, h: nat): Slots
  {
    if h in Table(e) then e[h := None] else e
  }

  lemma {:induction false} LiveSplit(a: Slots, b: Slots)
    ensures Live(a + b) == Live(a) + Live(b)
  {
    if a == [] {
      assert a + b == b;
    } else {
      assert (a + b)[1..] == a[1..] + b;
      LiveSplit(a[1..], b);
    }
  }

  lemma LiveOne(x: Option<Ref>)
    ensures Live([x]) == if x.Some? then 1 else 0
  {
    assert [x][1..] == [];
  }

  lemma {:induction false} LiveUpdate(e: Slots, h: nat, x: Option<Ref>)
    requires h < |e|
    ensures Live(e[h := x]) == Live(e) - (if e[h].Some? then 1 else 0) + (if x.Some? then 1 else 0)
  {
    hide Live;
    assert e == e[..h] + [e[h]] + e[h + 1..];
    assert e[h := x] == e[..h] + [x] + e[h + 1..];
    LiveSplit(e[..h] + [e[h]], e[h + 1..]);
    LiveSplit(e[..h] + [x], e[h + 1..]);
    LiveSplit(e[..h], [e[h]]);
    LiveSplit(e[..h], [x]);
    LiveOne(e[h]);
    LiveOne(x);
  }

  lemma {:induction false} AllLive(e: Slots)
    requires forall k :: 0 <= k < |e| ==> e[k].Some?
    ensures Live(e) == |e|
  {
    if e != [] { AllLive(e[1..]); }
  }

  /** The number of live slots is the size of the map. */
  lemma {:induction false} LiveIsSize(e: Slots)
    ensures |Table(e)| == Live(e)
    decreases |e|
  {
    if e != [] {
      var n := |e| - 1;
      assert e == e[..n] + [e[n]];
      LiveSplit(e[..n], [e[n]]);
      LiveOne(e[n]);
      LiveIsSize(e[..n]);
      if e[n].Some? {
        assert Table(e) == Table(e[..n])[n := e[n].value];
      } else {
        assert Table(e) == Table(e[..n]);
      }
    }
  }

  /** Installing binds the least free number and grows the table only when every slot is live. */
  lemma {:induction false} InstallIsInsert(e: Slots, cap: Ref)
    ensures LeastFree(Table(e), Gap(e))
    ensures Table(Installed(e, cap)) == Table(e)[Gap(e) := cap]
    ensures Live(Installed(e, cap)) == Live(e) + 1
    ensures |Installed(e, cap)| == if Live(e) == |e| then |e| + 1 else |e|
  {
    hide Live;
    var h := Gap(e);
    if h < |e| {
      LiveUpdate(e, h, Some(cap));
      assert Live(e[h := Some(cap)]) <= |e|;
    } else {
      AllLive(e);
      LiveSplit(e, [Some(cap)]);
      LiveOne(Some(cap));
    }
  }

  lemma {:induction false} CloseIsRemove(e: Slots, h: nat)
    ensures Table(Closed(e, h)) == Table(e) - {h}
    ensures Live(Closed(e, h)) == Live(e) - (if h in Table(e) then 1 else 0) && |Closed(e, h)| == |e|
  {
    hide Live;
    if h in Table(e) { LiveUpdate(e, h, None); }
  }

  // ---- the table as an object ----

  class CList {
    var entries: Slots

    constructor ()
      ensures entries == [] && Table(entries) == map[]
    {
      entries := [];
    }

    /** `install`: the first empty slot, otherwise a new one. */
    method Install(cap: Ref) returns (h: nat)
      modifies this
      ensures entries == Installed(old(entries), cap)
      ensures LeastFree(Table(old(entries)), h) && Table(entries) == Table(old(entries))[h := cap]
    {
      h := 0;
      while h < |entries| && entries[h].Some?
        invariant h <= |entries| && entries == old(entries)
        invariant forall k :: 0 <= k < h ==> entries[k].Some?
      {
        h := h + 1;
      }
      InstallIsInsert(entries, cap);
      assert h == Gap(entries);
      if h < |entries| { entries := entries[h := Some(cap)]; } else { entries := entries + [Some(cap)]; }
    }

    /** `resolve`: out of range, closed and forged handles name nothing. */
    method Resolve(h: nat) returns (r: Option<Ref>)
      ensures r == if h in Table(entries) then Some(Table(entries)[h]) else None
    {
      r := if h < |entries| then entries[h] else None;
    }

    method Close(h: nat) returns (ok: bool)
      modifies this
      ensures entries == Closed(old(entries), h)
      ensures ok <==> h in Table(old(entries))
      ensures Table(entries) == Table(old(entries)) - {h}
    {
      CloseIsRemove(entries, h);
      ok := h < |entries| && entries[h].Some?;
      if ok { entries := entries[h := None]; }
    }

    /** `live`. */
    method CountLive() returns (n: nat)
      ensures n == |Table(entries)|
    {
      n := 0;
      var i := 0;
      while i < |entries|
        invariant i <= |entries| && n == Live(entries[..i])
      {
        assert entries[..i + 1] == entries[..i] + [entries[i]];
        LiveSplit(entries[..i], [entries[i]]);
        LiveOne(entries[i]);
        if entries[i].Some? { n := n + 1; }
        i := i + 1;
      }
      assert entries[..i] == entries;
      LiveIsSize(entries);
    }
  }

  // ---- a process ----

  /** The table and the session behind it; the process holds the session alone. */
  datatype Proc = Proc(slots: Slots, st: State)

  /** The host installs; everything else is a system call of the guest. */
  datatype Act =
    | Install(cap: Ref)
    | CapRead(h: nat, rel: string, data: Option<string>)
    | CapList(h: nat, rel: string, names: Option<string>)
    | CapExec(h: nat, output: Option<string>, ledger: Option<Consent.Outcome>)
    | CapDeriveSub(h: nat, seg: string, id: Ref, openOk: bool)
    | CapClose(h: nat)

  datatype Outcome = Refused | Handle(h: nat) | Replied(reply: Reply) | Released

  ghost predicate Admissible(p: Proc, a: Act) { a.CapDeriveSub? ==> a.id !in p.st.caps }

  function Names(p: Proc, h: nat): Option<Ref> { if h in Table(p.slots) then Some(Table(p.slots)[h]) else None }

  ghost function Does(p: Proc, d: Disk, a: Act): (Proc, Outcome)
    requires Admissible(p, a)
  {
    match a
    case Install(cap) => (p.(slots := Installed(p.slots, cap)), Handle(Gap(p.slots)))
    case CapClose(h) => (p.(slots := Closed(p.slots, h)), if h in Table(p.slots) then Released else Refused)
    case CapRead(h, rel, data) =>
      if Names(p, h) == None then (p, Refused)
      else var (st, reply) := ReadOp(p.st, d, Names(p, h).value, rel, data); (p.(st := st), Replied(reply))
    case CapList(h, rel, names) =>
      if Names(p, h) == None then (p, Refused)
      else var (st, reply) := ListOp(p.st, d, Names(p, h).value, rel, names); (p.(st := st), Replied(reply))
    case CapExec(h, output, ledger) =>
      if Names(p, h) == None then (p, Refused)
      else var (st, reply) := ExecOp(p.st, d, Names(p, h).value, output, ledger); (p.(st := st), Replied(reply))
    case CapDeriveSub(h, seg, id, openOk) =>
      if Names(p, h) == None then (p, Refused)
      else
        var (st, reply) := DeriveSubOp(p.st, d, id, Names(p, h).value, seg, openOk);
        if reply.CapIs? then (Proc(Installed(p.slots, reply.r), st), Handle(Gap(p.slots)))
        else (Proc(p.slots, st), Refused)
  }

  /** `GuestProcess`. */
  class GuestProcess {
    const clist: CList
    const sess: Session

    ghost function View(): Proc
      reads this, clist, sess
    {
      Proc(clist.entries, sess.View())
    }

    constructor (s: Session)
      ensures sess == s && fresh(clist) && clist.entries == []
    {
      clist := new CList();
      sess := s;
    }

    method InstallCap(cap: Ref) returns (h: nat)
      modifies clist
      ensures (View(), Handle(h)) == Does(old(View()), sess.D(), Install(cap))
    {
      InstallIsInsert(clist.entries, cap);
      LeastUnique(clist.entries);
      h := clist.Install(cap);
    }

    method Read(h: nat, rel: string, data: Option<string>) returns (o: Outcome)
      modifies sess, sess.sink
      ensures (View(), o) == Does(old(View()), sess.D(), CapRead(h, rel, data))
      ensures sess.Followed(old(sess.Now()), sess.Now())
    {
      hide ReadOp, Session.Followed, Session.Now;
      sess.FollowedSame();
      var cap := clist.Resolve(h);
      if cap == None { return Refused; }
      var reply := sess.ReadFile(cap.value, rel, data);
      o := Replied(reply);
    }

    method List(h: nat, rel: string, names: Option<string>) returns (o: Outcome)
      modifies sess, sess.sink
      ensures (View(), o) == Does(old(View()), sess.D(), CapList(h, rel, names))
      ensures sess.Followed(old(sess.Now()), sess.Now())
    {
      hide ListOp, Session.Followed, Session.Now;
      sess.FollowedSame();
      var cap := clist.Resolve(h);
      if cap == None { return Refused; }
      var reply := sess.ListDir(cap.value, rel, names);
      o := Replied(reply);
    }

    method Run(h: nat, output: Option<string>, detail: string) returns (o: Outcome, ghost ans: Option<Consent.Outcome>)
      requires sess.Valid()
      modifies sess, sess.sink, sess.ledger
      ensures sess.Valid() && (View(), o) == Does(old(View()), sess.D(), CapExec(h, output, ans))
      ensures sess.Followed(old(sess.Now()), sess.Now())
      ensures
        if h in Table(old(clist.entries)) then
          Asked(sess.h, sess.key, sess.l5.promptExec && !sess.l5.denyExec, ["exec", Table(old(clist.entries))[h]],
                detail, old(sess.Book()), ans, sess.Book())
        else ans == None && sess.Book() == old(sess.Book())
    {
      hide ExecOp, Consent.Sound, Asked, Session.Followed, Session.Now;
      sess.FollowedSame();
      var cap := clist.Resolve(h);
      if cap == None { return Refused, None; }
      var reply;
      reply, ans := sess.Run(cap.value, output, detail);
      o := Replied(reply);
    }

    method DeriveSub(h: nat, seg: string, id: Ref, openOk: bool) returns (o: Outcome)
      requires id !in sess.caps
      modifies clist, sess, sess.sink
      ensures (View(), o) == Does(old(View()), sess.D(), CapDeriveSub(h, seg, id, openOk))
      ensures sess.Followed(old(sess.Now()), sess.Now())
    {
      hide DeriveSubOp, Session.Followed, Session.Now;
      sess.FollowedSame();
      var cap := clist.Resolve(h);
      if cap == None { return Refused; }
      var reply := sess.DeriveSub(id, cap.value, seg, openOk);
      if !reply.CapIs? { return Refused; }
      var n := InstallCap(reply.r);
      o := Handle(n);
    }

    method Close(h: nat) returns (o: Outcome)
      modifies clist
      ensures (View(), o) == Does(old(View()), sess.D(), CapClose(h))
    {
      var ok := clist.Close(h);
      o := if ok then Released else Refused;
    }
  }

  /** Only one number is the least free one. */
  lemma LeastUnique(e: Slots)
    ensures forall h: nat :: LeastFree(Table(e), h) ==> h == Gap(e)
  {
    assert Gap(e) !in Table(e);
  }

  // ---- whole runs ----

  datatype ProcRun = ProcRun(procs: seq<Proc>, acts: seq<Act>, outcomes: seq<Outcome>)

  /** From an empty table, over whatever session the host supplies. */
  ghost predicate ValidProcRun(run: ProcRun, d: Disk)
  {
    && |run.procs| == |run.acts| + 1 && |run.outcomes| == |run.acts|
    && run.procs[0].slots == []
    && forall i :: 0 <= i < |run.acts| ==>
         Admissible(run.procs[i], run.acts[i])
         && Does(run.procs[i], d, run.acts[i]) == (run.procs[i + 1], run.outcomes[i])
  }

  lemma {:induction false} RunStep(run: ProcRun, d: Disk, i: nat)
    requires ValidProcRun(run, d) && i < |run.acts|
    ensures Admissible(run.procs[i], run.acts[i])
    ensures Does(run.procs[i], d, run.acts[i]) == (run.procs[i + 1], run.outcomes[i])
  {
    hide Does;
  }

  /** What the host had installed before step `n`. */
  function Hosted(acts: seq<Act>): set<Ref>
  {
    if acts == [] then {}
    else Hosted(acts[..|acts| - 1]) + (match acts[|acts| - 1] case Install(cap) => {cap} case _ => {})
  }

  /** Installed by the host, or derived from something that was. */
  ghost predicate FromHost(caps: Caps, hosted: set<Ref>, r: Ref)
  {
    r in hosted || exists a :: a in hosted && Descends(caps, r, a)
  }

  ghost predicate Closure(p: Proc, hosted: set<Ref>)
  {
    forall h :: h in Table(p.slots) ==> FromHost(p.st.caps, hosted, Table(p.slots)[h])
  }

  lemma {:induction false} FromHostKept(a: Caps, b: Caps, s: set<Ref>, t: set<Ref>, r: Ref)
    requires Extends(a, b) && s <= t && FromHost(a, s, r)
    ensures FromHost(b, t, r)
  {
    hide Descends, Extends;
    if r !in s {
      var x :| x in s && Descends(a, r, x);
      InCaps(a, r, x);
      DescentFixed(a, b, r, x);
    }
  }

  lemma InCaps(caps: Caps, x: Ref, a: Ref)
    requires Descends(caps, x, a)
    ensures x in caps
  {
  }

  lemma {:induction false} ChildFromHost(caps: Caps, after: Caps, hosted: set<Ref>, id: Ref, c: Cap, r: Ref)
    requires CanInsert(caps, id, c) && c.parent == Some(r) && after == Insert(caps, id, c) && FromHost(caps, hosted, r)
    ensures FromHost(after, hosted, id)
  {
    hide Descends;
    var a: Ref;
    if r in hosted {
      a := r;
      Itself(caps, r);
    } else {
      a :| a in hosted && Descends(caps, r, a);
    }
    NewcomerDescends(caps, id, c, a);
  }

  lemma Itself(caps: Caps, r: Ref)
    requires r in caps
    ensures Descends(caps, r, r)
  {
  }

  /** What each act does to the session's registry. */
  lemma {:induction false} DoesToCaps(p: Proc, d: Disk, a: Act)
    requires Admissible(p, a)
    ensures Extends(p.st.caps, Does(p, d, a).0.st.caps)
    ensures a.CapDeriveSub? && Does(p, d, a).1.Handle? ==>
      Derived(p, Does(p, d, a).0, a)
    ensures !(a.CapDeriveSub? && Does(p, d, a).1.Handle?) ==> Does(p, d, a).0.st.caps == p.st.caps
  {
    hide Table, Gap, Installed, ReadOp, ListOp, ExecOp, DeriveSubOp, InsertedChild;
    match a
    case Install(_) =>
    case CapClose(_) =>
    case CapRead(h, rel, data) =>
      if Names(p, h).Some? { LookCaps(p.st, d, Names(p, h).value, rel, data); }
    case CapList(h, rel, names) =>
      if Names(p, h).Some? { LookCaps(p.st, d, Names(p, h).value, rel, names); }
    case CapExec(h, output, ledger) =>
      if Names(p, h).Some? { ExecCaps(p.st, d, Names(p, h).value, output, ledger); }
    case CapDeriveSub(h, seg, id, openOk) =>
      if Names(p, h).Some? { DeriveCaps(p.st, d, id, Names(p, h).value, seg, openOk); }
  }

  ghost predicate Derived(p: Proc, q: Proc, a: Act)
    requires a.CapDeriveSub?
  {
    && Names(p, a.h).Some? && q.slots == Installed(p.slots, a.id)
    && InsertedChild(p.st.caps, q.st.caps, a.id, Names(p, a.h).value)
  }

  ghost predicate InsertedChild(before: Caps, after: Caps, id: Ref, parent: Ref)
  {
    exists c: Cap :: CanInsert(before, id, c) && c.parent == Some(parent) && after == Insert(before, id, c)
  }

  lemma {:induction false} LookCaps(st: State, d: Disk, r: Ref, rel: string, data: Option<string>)
    ensures ReadOp(st, d, r, rel, data).0.caps == st.caps && ListOp(st, d, r, rel, data).0.caps == st.caps
  {
    hide ReadInner, IsActive, Paths.SafeJoin, RecordOk;
  }

  lemma {:induction false} BeforeCaps(st: State, d: Disk, verb: string, k: EffectKind, r: Ref,
                                      ledger: Option<Consent.Outcome>)
    ensures Before(st, d, verb, k, r, ledger).0.caps == st.caps
  {
    hide Audit, Decide, RecordOk, IntentOp;
    AuditLeaves(st, d, "policy.deny", r, "deny");
    AuditLeaves(st, d, "policy.consent", r, "approved");
    AuditLeaves(st, d, "policy.consent", r, "denied");
    AuditLeaves(st, d, "policy.consent", r, "pending");
    AuditLeaves(Gate(st, d, verb, r, ledger).0, d, IntentOp(k), r, "attempt");
  }

  lemma {:induction false} ExecCaps(st: State, d: Disk, r: Ref, output: Option<string>, ledger: Option<Consent.Outcome>)
    ensures ExecOp(st, d, r, output, ledger).0.caps == st.caps
  {
    hide Before, CanRun, RecordOk;
    BeforeCaps(st, d, "exec", Ran, r, ledger);
  }

  lemma {:induction false} DeriveCaps(st: State, d: Disk, id: Ref, r: Ref, seg: string, openOk: bool)
    requires id !in st.caps
    ensures
      var (after, reply) := DeriveSubOp(st, d, id, r, seg, openOk);
      && Extends(st.caps, after.caps)
      && (reply.CapIs? ==> reply.r == id && InsertedChild(st.caps, after.caps, id, r))
      && (!reply.CapIs? ==> after.caps == st.caps)
  {
    hide IsActive, Paths.SafeJoin, RecordOk, Audit, Insert, WellFounded, Extends;
    ExtendsItself(st.caps);
    var (after, reply) := DeriveSubOp(st, d, id, r, seg, openOk);
    if reply.CapIs? {
      var p := st.caps[r];
      var c := BlankCap(Dir).(root := Paths.SafeJoin(p.root, seg).value, ops := p.ops, taint := p.taint,
                              anchored := true, parent := Some(r));
      assert CanInsert(st.caps, id, c);
      InsertExtends(st.caps, id, c);
      AuditLeaves(st.(caps := Insert(st.caps, id, c)), d, "derive_sub", id, "allow");
    }
  }

  /** What each act does to the table: bind the least free number, drop one, or nothing. */
  lemma {:induction false} DoesToTable(p: Proc, d: Disk, a: Act)
    requires Admissible(p, a)
    ensures
      var (q, o) := Does(p, d, a);
      match o
      case Handle(h) =>
        && LeastFree(Table(p.slots), h)
        && q.slots == Installed(p.slots, if a.Install? then a.cap else a.id)
        && Table(q.slots) == Table(p.slots)[h := if a.Install? then a.cap else a.id]
      case Released => a.CapClose? && q.slots == Closed(p.slots, a.h) && Table(q.slots) == Table(p.slots) - {a.h}
      case _ => q.slots == p.slots
    ensures Does(p, d, a).1.Handle? ==> a.Install? || a.CapDeriveSub?
  {
    hide LeastFree, Gap, Installed, ReadOp, ListOp, ExecOp, DeriveSubOp, Closed;
    match a
    case Install(cap) => InstallIsInsert(p.slots, cap);
    case CapDeriveSub(h, seg, id, openOk) =>
      InstallIsInsert(p.slots, id);
      if Names(p, h).Some? { DeriveCaps(p.st, d, id, Names(p, h).value, seg, openOk); }
    case CapClose(h) =>
      CloseIsRemove(p.slots, h);
      CloseNothing(p.slots, h);
    case _ =>
  }

  lemma CloseNothing(e: Slots, h: nat)
    ensures h !in Table(e) ==> Closed(e, h) == e
  {
  }

  lemma {:induction false} StepKeepsClosure(p: Proc, d: Disk, a: Act, hosted: set<Ref>, more: set<Ref>)
    requires Admissible(p, a) && Closure(p, hosted) && hosted <= more && (a.Install? ==> a.cap in more)
    ensures Closure(Does(p, d, a).0, more)
  {
    hide Does, FromHost, Extends, LeastFree, InsertedChild;
    var (q, o) := Does(p, d, a);
    DoesToCaps(p, d, a);
    DoesToTable(p, d, a);
    forall h | h in Table(q.slots) ensures FromHost(q.st.caps, more, Table(q.slots)[h]) {
      if h in Table(p.slots) && Table(q.slots)[h] == Table(p.slots)[h] {
        FromHostKept(p.st.caps, q.st.caps, hosted, more, Table(p.slots)[h]);
      } else if a.Install? {
        InstalledFromHost(q.st.caps, more, a.cap);
      } else {
        DerivedFromHost(p, q, a, hosted, more);
      }
    }
  }

  lemma InstalledFromHost(caps: Caps, hosted: set<Ref>, r: Ref)
    requires r in hosted
    ensures FromHost(caps, hosted, r)
  {
  }

  lemma {:induction false} DerivedFromHost(p: Proc, q: Proc, a: Act, hosted: set<Ref>, more: set<Ref>)
    requires a.CapDeriveSub? && Derived(p, q, a) && Closure(p, hosted) && hosted <= more
    ensures FromHost(q.st.caps, more, a.id)
  {
    hide FromHost, Insert;
    var r := Names(p, a.h).value;
    var c: Cap :| CanInsert(p.st.caps, a.id, c) && c.parent == Some(r) && q.st.caps == Insert(p.st.caps, a.id, c);
    ExtendsItself(p.st.caps);
    FromHostKept(p.st.caps, p.st.caps, hosted, more, r);
    ChildFromHost(p.st.caps, q.st.caps, more, a.id, c, r);
  }

  lemma ExtendsItself(a: Caps)
    ensures Extends(a, a)
  {
  }

  /** The largest number of handles that were live at once. */
  function Peak(procs: seq<Proc>): nat
  {
    if procs == [] then 0
    else
      var before, now := Peak(procs[..|procs| - 1]), Live(procs[|procs| - 1].slots);
      if before < now then now else before
  }

  lemma {:induction false} StepLength(p: Proc, d: Disk, a: Act)
    requires Admissible(p, a)
    ensures
      var q := Does(p, d, a).0;
      |q.slots| == if Live(q.slots) > |p.slots| then Live(q.slots) else |p.slots|
  {
    hide Does, Live, LeastFree, Installed, Closed, Table;
    DoesToTable(p, d, a);
    var (q, o) := Does(p, d, a);
    if o.Handle? { InstallIsInsert(p.slots, if a.Install? then a.cap else a.id); }
    if o.Released? { CloseIsRemove(p.slots, a.h); }
  }

  /** The table is as long as the largest number of handles live at once so far, and no longer. */
  lemma {:induction false} TableLengthIsPeak(run: ProcRun, d: Disk, n: nat)
    requires ValidProcRun(run, d) && n <= |run.acts|
    ensures |run.procs[n].slots| == Peak(run.procs[..n + 1])
  {
    hide Does, Admissible;
    var soFar := run.procs[..n + 1];
    assert soFar[..|soFar| - 1] == run.procs[..n];
    if n == 0 {
      assert run.procs[..0] == [];
    } else {
      TableLengthIsPeak(run, d, n - 1);
      RunStep(run, d, n - 1);
      StepLength(run.procs[n - 1], d, run.acts[n - 1]);
    }
  }

  function HandleOf(a: Act): Option<nat>
  {
    match a
    case Install(_) => None
    case CapRead(h, _, _) => Some(h)
    case CapList(h, _, _) => Some(h)
    case CapExec(h, _, _) => Some(h)
    case CapDeriveSub(h, _, _, _) => Some(h)
    case CapClose(h) => Some(h)
  }

  lemma {:induction false} ForgedHandleIsRefused(p: Proc, d: Disk, a: Act)
    requires Admissible(p, a) && HandleOf(a).Some?
    ensures HandleOf(a).value !in Table(p.slots) ==> Does(p, d, a) == (p, Refused)
  {
    hide ReadOp, ListOp, ExecOp, DeriveSubOp, Closed;
    if a.CapClose? { CloseNothing(p.slots, a.h); }
  }

  lemma {:induction false} HandlesFromHost(run: ProcRun, d: Disk, n: nat)
    requires ValidProcRun(run, d) && n <= |run.acts|
    ensures Closure(run.procs[n], Hosted(run.acts[..n]))
  {
    hide Does, FromHost, Admissible;
    if n > 0 {
      HandlesFromHost(run, d, n - 1);
      RunStep(run, d, n - 1);
      assert run.acts[..n][..n - 1] == run.acts[..n - 1];
      StepKeepsClosure(run.procs[n - 1], d, run.acts[n - 1], Hosted(run.acts[..n - 1]), Hosted(run.acts[..n]));
    }
  }

  /** The call of a guest at one step: what it names and what came of it. */
  ghost predicate Reaches(run: ProcRun, n: nat, r: Ref)
    requires n < |run.acts| && |run.procs| == |run.acts| + 1 && |run.outcomes| == |run.acts|
  {
    && HandleOf(run.acts[n]).Some? && HandleOf(run.acts[n]).value in Table(run.procs[n].slots)
    && Table(run.procs[n].slots)[HandleOf(run.acts[n]).value] == r
  }

  /**
   Handle closure, at every step of every run: each live handle holds a reference the host installed or
   a descendant of one; and a system call that did anything at all, to the table or to the session, or
   was not simply refused, went through a live handle and so through such a reference.
   */
  lemma {:induction false} GuestHandleClosure(run: ProcRun, d: Disk, n: nat)
    requires ValidProcRun(run, d) && n <= |run.acts|
    ensures Closure(run.procs[n], Hosted(run.acts[..n]))
    ensures n < |run.acts| && HandleOf(run.acts[n]).Some?
            && (run.procs[n + 1] != run.procs[n] || run.outcomes[n] != Refused) ==>
      exists r :: Reaches(run, n, r) && FromHost(run.procs[n].st.caps, Hosted(run.acts[..n]), r)
  {
    hide Does, FromHost, Admissible;
    HandlesFromHost(run, d, n);
    if n < |run.acts| && HandleOf(run.acts[n]).Some? {
      RunStep(run, d, n);
      ForgedHandleIsRefused(run.procs[n], d, run.acts[n]);
      var h := HandleOf(run.acts[n]).value;
      if h in Table(run.procs[n].slots) { assert Reaches(run, n, Table(run.procs[n].slots)[h]); }
    }
  }
}
