/**
 The kernel of phase 2 as a step machine. A step is one system call, one passed-up
 exception or one interrupt, up to and including the decision of the scheduler; the
 machine instructions LDST and LDCXT mean that the step ends and the process goes on.
 Every reading of the TOD clock is a parameter of the step.
 `ledger` is a history variable: the intervals charged to processes so far.
 */
module Kernel {
  import opened Processes
  import opened ProcTree
  import opened Scheduling
  import opened Termination
  import Devices
  import Asl = SemList

  type Pcbs = t: seq<PcbData> | |t| == MAXPROC witness seq(MAXPROC, i => NoData)

  /** `pid` was charged for the time between two clock readings. */
  datatype Charge = Charge(pid: int, from: int, to: int)

  datatype Mode = Running | Waiting | Halted | Panicked

  datatype KState = KState(f: Forest, q: Sched, pcb: Pcbs, start: int, mode: Mode,
                           boot: int, ledger: seq<Charge>)

  /** The clock readings of one step, in the order in which it takes them. */
  datatype Tod = Tod(t1: int, t2: int, t3: int)

  datatype Op =
    | CreateProcess(st: Regs, child: Regs, prio: int, support: bool)
    | TerminateProcess(st: Regs, pid: int)
    | Passeren(st: Regs, sem: Addr)
    | Verhogen(st: Regs, sem: Addr)
    | DoIO(st: Regs, addr: int)
    | GetCPUTime(st: Regs)
    | WaitForClock(st: Regs)
    | Yield(st: Regs)
    | PassUpOrDie
    | QuantumExpiry(st: Regs)
    | ClockTick
    | DeviceInterrupt(line: int, pending: seq<bool>, status: int)
    | TerminalInterrupt(pending: seq<bool>, tx: nat, rx: nat)

  datatype Step = Step(op: Op, c: Tod)

  // ------------------------------------------------------------ common routines

  /** `updateCPUTime(currentProcess)`. */
  function UpdateCPUTime(s: KState, now: int): KState {
    match s.q.current
    case None => s
    case Some(p) =>
      s.(pcb := s.pcb[p := s.pcb[p].(time := s.pcb[p].time + (now - s.start))], start := now,
         ledger := s.ledger + [Charge(s.f.t[p].pid, s.start, now)])
  }

  /** The time accounting at the head of the interrupt handler, which resets the
      reference point even when nobody was running. */
  function InterruptEntry(s: KState, now: int): KState {
    UpdateCPUTime(s, now).(start := now)
  }

  /** `copyState(&currentProcess->p_s, st)`. */
  function Save(s: KState, st: Regs): KState {
    match s.q.current
    case None => s
    case Some(p) => s.(pcb := s.pcb[p := s.pcb[p].(saved := st)])
  }

  /** The value a process finds in a0 when it runs again. */
  function SetA0(s: KState, p: Option<Proc>, v: int): KState {
    match p
    case None => s
    case Some(x) => s.(pcb := s.pcb[x := s.pcb[x].(saved := s.pcb[x].saved.(a0 := v))])
  }

  function SetA0All(s: KState, ps: seq<Proc>, v: int): KState
    decreases |ps|
  {
    if ps == [] then s else SetA0All(SetA0(s, Some(ps[0]), v), ps[1..], v)
  }

  /** `scheduler()`. */
  function Schedule(s: KState, now: int): KState {
    if s.q.ready != [] then s.(q := Dispatch(s.q), start := now, mode := Running)
    else if s.q.processCount == 0 then s.(mode := Halted)
    else if s.q.processCount > 0 && s.q.softBlockCount > 0 then s.(mode := Waiting)
    else if s.q.processCount > 0 && s.q.softBlockCount == 0 then s.(mode := Panicked)
    else s
  }

  /** After an interrupt: the interrupted process goes on, or the scheduler is called. */
  function Resume(s: KState, now: int): KState {
    if s.q.current.Some? then s else Schedule(s, now)
  }

  // --------------------------------------------------------------------- steps

  function DoCreate(s: KState, st: Regs, child: Regs, prio: int, support: bool): KState {
    match s.q.current
    case None => s
    case Some(c) =>
      if s.q.free == [] then Save(s, st.(a0 := -1))
      else
        var p := s.q.free[0];
        var s1 := s.(f := InsertChild(Spawn(s.f, p), c, p), q := Admit(s.q, prio),
                     pcb := s.pcb[p := PcbData(0, support, child)]);
        Save(s1, st.(a0 := s.f.next))
  }

  ghost function KillIn(s: KState, p: Proc): KState {
    var (f, q) := Kill(s.f, s.q, p);
    s.(f := f, q := q)
  }

  /** Who SYS2 is about: the caller for 0, otherwise the process with that PID. */
  ghost function TerminateTarget(s: KState, pid: int): Option<Proc>
    requires TreeInv(s.f) && RootKnown(s.f)
  {
    if pid == 0 then s.q.current else FindInTree(s.f, s.f.root, pid)
  }

  /** The end of SYS2, after the accounting: `p` dies, perhaps together with the caller. */
  ghost function TerminateFound(s: KState, st: Regs, p: Proc, now: int): KState {
    var s1 := KillIn(s, p);
    if s.q.current == Some(p) || s1.q.current.None?
    then Schedule(s1.(q := s1.q.(current := None)), now)
    else Save(s1, st)
  }

  ghost function DoTerminate(s: KState, st: Regs, pid: int, c: Tod): KState
    requires TreeInv(s.f) && RootKnown(s.f)
  {
    match TerminateTarget(s, pid)
    case None => UpdateCPUTime(s, c.t1)
    case Some(p) => TerminateFound(UpdateCPUTime(s, c.t1), st, p, c.t2)
  }

  function DoPasseren(s: KState, st: Regs, a: Addr, c: Tod): KState {
    var s1 := Save(UpdateCPUTime(s, c.t1), st);
    if Value(s.q, a) - 1 < 0
    then Schedule(Charged(s1, SemWait(s1.q, a), c.t2), c.t3)
    else s1.(q := SemWait(s1.q, a))
  }

  /** The second clock reading, in `blockCurrentProcess`, together with the block. */
  function Charged(s: KState, q: Sched, now: int): KState {
    UpdateCPUTime(s, now).(q := q)
  }

  function DoVerhogen(s: KState, st: Regs, a: Addr, c: Tod): KState {
    var s1 := Save(UpdateCPUTime(s, c.t1), st);
    s1.(q := SemSignal(s1.q, a).0)
  }

  function DoAwait(s: KState, st: Regs, a: Addr, c: Tod): KState {
    var s1 := Save(UpdateCPUTime(s, c.t1), st);
    Schedule(Charged(s1, AwaitDevice(s1.q, a), c.t2), c.t3)
  }

  function DoYield(s: KState, st: Regs, c: Tod): KState {
    var s1 := Save(UpdateCPUTime(s, c.t1), st);
    Schedule(s1.(q := Requeue(s1.q)), c.t2)
  }

  ghost function DoTrap(s: KState, c: Tod): KState {
    match s.q.current
    case None => s
    case Some(p) =>
      if s.pcb[p].support then s
      else
        var s1 := KillIn(UpdateCPUTime(s, c.t1), p);
        Schedule(s1.(q := s1.q.(current := None)), c.t2)
  }

  function DoQuantum(s: KState, st: Regs, c: Tod): KState {
    var s1 := Save(InterruptEntry(s, c.t1), st);
    Schedule(s1.(q := Requeue(s1.q)), c.t2)
  }

  function DoTick(s: KState, c: Tod): KState {
    var s1 := InterruptEntry(s, c.t1);
    var (q, woken) := Tick(s1.q);
    Resume(SetA0All(s1.(q := q), woken, 0), c.t2)
  }

  function Serve(s: KState, a: Addr, status: int): KState {
    var (q, woken) := DeviceDone(s.q, a);
    SetA0(s.(q := q), woken, status)
  }

  function DoDevice(s: KState, line: int, pending: seq<bool>, status: int, c: Tod): KState {
    var s1 := InterruptEntry(s, c.t1);
    var dev := Devices.Lowest(pending);
    Resume(if dev < 0 then s1 else Serve(s1, DeviceSem(Devices.HandlerIndex(line, dev, false)), status), c.t2)
  }

  /** Both halves of the terminal are served whenever their status byte is not zero. */
  function DoTerminal(s: KState, pending: seq<bool>, tx: nat, rx: nat, c: Tod): KState {
    var s1 := InterruptEntry(s, c.t1);
    var dev := Devices.Lowest(pending);
    if dev < 0 then Resume(s1, c.t2)
    else
      var s2 := if tx % 256 != 0 then Serve(s1, DeviceSem(Devices.HandlerIndex(7, dev, true)), tx) else s1;
      var s3 := if rx % 256 != 0 then Serve(s2, DeviceSem(Devices.HandlerIndex(7, dev, false)), rx) else s2;
      Resume(s3, c.t2)
  }

  /** rootProcess is alive or has been terminated; it was allocated at boot. */
  predicate RootKnown(f: Forest) { Live(f, f.root) || f.t[f.root].pid < 0 }

  ghost function Next(s: KState, step: Step): KState
    requires TreeInv(s.f) && RootKnown(s.f)
  {
    var c := step.c;
    match step.op
    case CreateProcess(st, child, prio, support) => DoCreate(s, st, child, prio, support)
    case TerminateProcess(st, pid) => DoTerminate(s, st, pid, c)
    case Passeren(st, a) => DoPasseren(s, st, a, c)
    case Verhogen(st, a) => DoVerhogen(s, st, a, c)
    case DoIO(st, addr) =>
      if Devices.Accepted(addr) then DoAwait(s, st, DeviceSem(Devices.SemIndex(addr)), c) else s
    case GetCPUTime(st) => UpdateCPUTime(s, c.t1)
    case WaitForClock(st) => DoAwait(s, st, CLOCK, c)
    case Yield(st) => DoYield(s, st, c)
    case PassUpOrDie => DoTrap(s, c)
    case QuantumExpiry(st) => DoQuantum(s, st, c)
    case ClockTick => DoTick(s, c)
    case DeviceInterrupt(line, pending, status) => DoDevice(s, line, pending, status, c)
    case TerminalInterrupt(pending, tx, rx) => DoTerminal(s, pending, tx, rx, c)
  }

  predicate IsInterrupt(op: Op) {
    op.QuantumExpiry? || op.ClockTick? || op.DeviceInterrupt? || op.TerminalInterrupt?
  }

  /** What the environment owes the kernel: a monotone clock, system calls only from a
      running process, SYS3/SYS4 on ordinary semaphores only, interrupts of lines that exist. */
  predicate Willing(s: KState, step: Step) {
    && s.start <= step.c.t1 <= step.c.t2 <= step.c.t3
    && (s.mode == Running || (s.mode == Waiting && IsInterrupt(step.op)))
    && match step.op
       case Passeren(_, a) => a != NULL && !IsSoft(a)
       case Verhogen(_, a) => !IsSoft(a)
       case DeviceInterrupt(line, pending, _) => 3 <= line <= 6 && |pending| == 8
       case TerminalInterrupt(pending, _, _) => |pending| == 8
       case _ => true
  }

  /** A semaphore descriptor is left for a caller that has to block. */
  predicate HasDescriptor(s: KState, op: Op) {
    match op
    case Passeren(_, a) => Value(s.q, a) <= 0 ==> Asl.Available(s.q.asl, a)
    case DoIO(_, addr) =>
      Devices.Accepted(addr) ==> Asl.Available(s.q.asl, DeviceSem(Devices.SemIndex(addr)))
    case WaitForClock(_) => Asl.Available(s.q.asl, CLOCK)
    case _ => true
  }

  predicate Enabled(s: KState, step: Step) {
    Willing(s, step) && HasDescriptor(s, step.op)
  }

  // --------------------------------------------------------------- the invariant

  function TimeOf(ledger: seq<Charge>, pid: int): int {
    if ledger == [] then 0
    else var c := ledger[|ledger| - 1];
         TimeOf(ledger[..|ledger| - 1], pid) + if c.pid == pid then c.to - c.from else 0
  }

  function Total(ledger: seq<Charge>): int {
    if ledger == [] then 0
    else var c := ledger[|ledger| - 1]; Total(ledger[..|ledger| - 1]) + (c.to - c.from)
  }

  /** The charged intervals follow one another without overlap since boot, and p_time
      is what the ledger says. */
  ghost predicate TimeInv(s: KState) {
    && s.boot <= s.start
    && (forall i :: 0 <= i < |s.ledger| ==>
          s.boot <= s.ledger[i].from <= s.ledger[i].to <= s.start && s.ledger[i].pid < s.f.next)
    && (forall i, j :: 0 <= i < j < |s.ledger| ==> s.ledger[i].to <= s.ledger[j].from)
    && (forall p: Proc :: Live(s.f, p) ==> s.pcb[p].time == TimeOf(s.ledger, s.f.t[p].pid))
  }

  ghost predicate ModeInv(s: KState) {
    match s.mode
    case Running => s.q.current.Some?
    case Waiting => s.q.current.None? && s.q.ready == [] && s.q.processCount > 0 && s.q.softBlockCount > 0
    case Halted => s.q.current.None? && s.q.ready == [] && s.q.processCount == 0
    case Panicked => s.q.current.None? && s.q.ready == [] && s.q.processCount > 0 && s.q.softBlockCount == 0
  }

  /** Everything but the mode: what holds also just before the scheduler is called. */
  ghost predicate Base(s: KState) {
    TreeInv(s.f) && RootKnown(s.f) && SchedInv(s.q, LiveSet(s.f)) && TimeInv(s)
  }

  ghost predicate Inv(s: KState) {
    Base(s) && ModeInv(s)
  }
}
