/**
 The system-call filter (`install_seccomp_deny` in `os.rs`): a jump program built from a deny
 list, run by an interpreter for the three classic BPF instructions it uses.
 */
module Seccomp {

  const ARCH_X86_64: nat := 0xC000_003E
  const RET_ALLOW: nat := 0x7fff_0000
  const RET_ERRNO: nat := 0x0005_0000
  const RET_KILL: nat := 0x8000_0000
  const EACCES: nat := 13

  const LD_W_ABS: nat := 0x20
  const JEQ_K: nat := 0x15
  const RET_K: nat := 0x06

  datatype Instr = Instr(code: nat, jt: nat, jf: nat, k: nat)

  /** The two words of `seccomp_data` the filter looks at: the number at 0, the architecture at 4. */
  datatype Call = Call(nr: nat, arch: nat)

  function Load(c: Call, offset: nat): nat
  {
    if offset == 0 then c.nr else if offset == 4 then c.arch else 0
  }

  datatype Verdict = Fault | Return(value: nat)

  /** Runs `prog` from `pc` with accumulator `acc`. Jumps only go forward, so every run ends. */
  function Exec(prog: seq<Instr>, pc: nat, acc: nat, c: Call): Verdict
    decreases if pc <= |prog| then |prog| - pc else 0
  {
    if pc >= |prog| then Fault
    else
      var i := prog[pc];
      if i.code == LD_W_ABS then Exec(prog, pc + 1, Load(c, i.k), c)
      else if i.code == JEQ_K then Exec(prog, pc + 1 + (if acc == i.k then i.jt else i.jf), acc, c)
      else if i.code == RET_K then Return(i.k)
      else Fault
  }

  // ---- the generated program ----

  function Entry(nr: nat): seq<Instr>
  {
    [Instr(JEQ_K, 0, 1, nr), Instr(RET_K, 0, 0, RET_ERRNO + EACCES)]
  }

  function Entries(deny: seq<nat>): seq<Instr>
  {
    if deny == [] then [] else Entry(deny[0]) + Entries(deny[1..])
  }

  const Prologue: seq<Instr> := [
    Instr(LD_W_ABS, 0, 0, 4),
    Instr(JEQ_K, 1, 0, ARCH_X86_64),
    Instr(RET_K, 0, 0, RET_KILL),
    Instr(LD_W_ABS, 0, 0, 0)
  ]

  /** The filter for any deny list: the jump offsets do not depend on its length. */
  function Filter(deny: seq<nat>): seq<Instr>
  {
    Prologue + Entries(deny) + [Instr(RET_K, 0, 0, RET_ALLOW)]
  }

  lemma {:induction false} EntriesLength(deny: seq<nat>)
    ensures |Entries(deny)| == 2 * |deny|
  {
    if deny != [] { EntriesLength(deny[1..]); }
  }

  lemma {:induction false} EntryAt(deny: seq<nat>, i: nat)
    requires i < |deny|
    ensures |Entries(deny)| == 2 * |deny|
    ensures Entries(deny)[2 * i] == Entry(deny[i])[0] && Entries(deny)[2 * i + 1] == Entry(deny[i])[1]
  {
    EntriesLength(deny);
    EntriesLength(deny[1..]);
    if i > 0 {
      EntryAt(deny[1..], i - 1);
      assert Entries(deny)[2 * i] == Entries(deny[1..])[2 * i - 2];
      assert Entries(deny)[2 * i + 1] == Entries(deny[1..])[2 * i - 1];
    }
  }

  /** From the i-th entry on, the program returns the error exactly for the numbers still listed. */
  lemma {:induction false} EntriesRun(deny: seq<nat>, i: nat, c: Call)
    requires i <= |deny|
    ensures Exec(Filter(deny), 4 + 2 * i, c.nr, c)
         == Return(if c.nr in deny[i..] then RET_ERRNO + EACCES else RET_ALLOW)
    decreases |deny| - i
  {
    hide Entries;
    var prog := Filter(deny);
    EntriesLength(deny);
    if i < |deny| {
      EntryAt(deny, i);
      assert prog[4 + 2 * i] == Instr(JEQ_K, 0, 1, deny[i]);
      assert prog[5 + 2 * i] == Instr(RET_K, 0, 0, RET_ERRNO + EACCES);
      EntriesRun(deny, i + 1, c);
      assert deny[i..] == [deny[i]] + deny[i + 1..];
    } else {
      assert prog[4 + 2 * i] == Instr(RET_K, 0, 0, RET_ALLOW);
      assert deny[i..] == [];
    }
  }

  /**
   For every deny list and every call, the filter kills a foreign architecture, returns EACCES
   exactly for the listed numbers, and allows the rest.
   */
  lemma {:induction false} FilterCorrect(deny: seq<nat>, c: Call)
    ensures Exec(Filter(deny), 0, 0, c) == Return(
      if c.arch != ARCH_X86_64 then RET_KILL
      else if c.nr in deny then RET_ERRNO + EACCES
      else RET_ALLOW)
  {
    var prog := Filter(deny);
    assert forall i :: 0 <= i < 4 ==> prog[i] == Prologue[i];
    EntriesRun(deny, 0, c);
    assert deny[0..] == deny;
    assert Exec(prog, 2, c.arch, c) == Return(RET_KILL);
    assert Exec(prog, 3, c.arch, c) == Exec(prog, 4, c.nr, c);
    assert Exec(prog, 1, c.arch, c) == Exec(prog, if c.arch == ARCH_X86_64 then 3 else 2, c.arch, c);
  }

  // ---- the shipped program ----

  const Errno: nat := RET_ERRNO + EACCES

  /** socket, connect, accept, sendto, recvfrom, sendmsg, recvmsg, bind, listen, socketpair, accept4. */
  function Network(): seq<nat> { [41, 42, 43, 44, 45, 46, 47, 49, 50, 53, 288] }

  function NetworkTable(): seq<Instr>
  {
    [
      Instr(JEQ_K, 0, 1, 41), Instr(RET_K, 0, 0, Errno),
      Instr(JEQ_K, 0, 1, 42), Instr(RET_K, 0, 0, Errno),
      Instr(JEQ_K, 0, 1, 43), Instr(RET_K, 0, 0, Errno),
      Instr(JEQ_K, 0, 1, 44), Instr(RET_K, 0, 0, Errno),
      Instr(JEQ_K, 0, 1, 45), Instr(RET_K, 0, 0, Errno),
      Instr(JEQ_K, 0, 1, 46), Instr(RET_K, 0, 0, Errno),
      Instr(JEQ_K, 0, 1, 47), Instr(RET_K, 0, 0, Errno),
      Instr(JEQ_K, 0, 1, 49), Instr(RET_K, 0, 0, Errno),
      Instr(JEQ_K, 0, 1, 50), Instr(RET_K, 0, 0, Errno),
      Instr(JEQ_K, 0, 1, 53), Instr(RET_K, 0, 0, Errno),
      Instr(JEQ_K, 0, 1, 288), Instr(RET_K, 0, 0, Errno)
    ]
  }

  lemma {:induction false} NetworkTableIs()
    ensures NetworkTable() == Entries(Network()) && |Network()| == 11
  {
    hide Entries;
    EntriesLength(Network());
    forall p | 0 <= p < 22 ensures NetworkTable()[p] == Entries(Network())[p] {
      EntryAt(Network(), p / 2);
    }
  }

  /** io_uring_setup, io_uring_enter, io_uring_register. */
  function IoUring(): seq<nat> { [425, 426, 427] }

  function IoUringTable(): seq<Instr>
  {
    [
      Instr(JEQ_K, 0, 1, 425), Instr(RET_K, 0, 0, Errno),
      Instr(JEQ_K, 0, 1, 426), Instr(RET_K, 0, 0, Errno),
      Instr(JEQ_K, 0, 1, 427), Instr(RET_K, 0, 0, Errno)
    ]
  }

  lemma {:induction false} IoUringTableIs()
    ensures IoUringTable() == Entries(IoUring()) && |IoUring()| == 3
  {
    hide Entries;
    EntriesLength(IoUring());
    forall p | 0 <= p < 6 ensures IoUringTable()[p] == Entries(IoUring())[p] {
      EntryAt(IoUring(), p / 2);
    }
  }

  /** ptrace, process_vm_readv, process_vm_writev, kcmp, pidfd_send_signal, pidfd_open, pidfd_getfd. */
  function CrossProcess(): seq<nat> { [101, 310, 311, 312, 424, 434, 438] }

  function CrossProcessTable(): seq<Instr>
  {
    [
      Instr(JEQ_K, 0, 1, 101), Instr(RET_K, 0, 0, Errno),
      Instr(JEQ_K, 0, 1, 310), Instr(RET_K, 0, 0, Errno),
      Instr(JEQ_K, 0, 1, 311), Instr(RET_K, 0, 0, Errno),
      Instr(JEQ_K, 0, 1, 312), Instr(RET_K, 0, 0, Errno),
      Instr(JEQ_K, 0, 1, 424), Instr(RET_K, 0, 0, Errno),
      Instr(JEQ_K, 0, 1, 434), Instr(RET_K, 0, 0, Errno),
      Instr(JEQ_K, 0, 1, 438), Instr(RET_K, 0, 0, Errno)
    ]
  }

  lemma {:induction false} CrossProcessTableIs()
    ensures CrossProcessTable() == Entries(CrossProcess()) && |CrossProcess()| == 7
  {
    hide Entries;
    EntriesLength(CrossProcess());
    forall p | 0 <= p < 14 ensures CrossProcessTable()[p] == Entries(CrossProcess())[p] {
      EntryAt(CrossProcess(), p / 2);
    }
  }

  function Denied(): seq<nat> { Network() + IoUring() + CrossProcess() }

  /** The instruction table as the source writes it out. */
  function Shipped(): seq<Instr>
  {
    Prologue + (NetworkTable() + IoUringTable() + CrossProcessTable()) + [Instr(RET_K, 0, 0, RET_ALLOW)]
  }

  lemma {:induction false} EntriesAppend(a: seq<nat>, b: seq<nat>)
    ensures Entries(a + b) == Entries(a) + Entries(b)
  {
    if a == [] {
      assert a + b == b;
    } else {
      assert (a + b)[1..] == a[1..] + b;
      EntriesAppend(a[1..], b);
    }
  }

  /** The shipped table of 47 instructions is the filter for its 21 numbers, and so is correct. */
  lemma {:induction false} ShippedCorrect(c: Call)
    ensures |Denied()| == 21 && |Shipped()| == 47 && Shipped() == Filter(Denied())
    ensures Exec(Shipped(), 0, 0, c) == Return(
      if c.arch != ARCH_X86_64 then RET_KILL
      else if c.nr in Denied() then RET_ERRNO + EACCES
      else RET_ALLOW)
  {
    hide Entries, Exec, Network, IoUring, CrossProcess, NetworkTable, IoUringTable, CrossProcessTable;
    NetworkTableIs();
    IoUringTableIs();
    CrossProcessTableIs();
    EntriesAppend(Network(), IoUring());
    EntriesAppend(Network() + IoUring(), CrossProcess());
    EntriesLength(Denied());
    FilterCorrect(Denied(), c);
  }
}
