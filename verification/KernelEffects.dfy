/**
 What single steps of the kernel do to semaphore values, to the states of processes, to their
 times and to the processor, and what follows for runs: every V and P counts once, a process
 goes on with the state it stopped in, no time of it is lost, PIDs are handed out in order.
 */
module KernelEffects {
  import opened Processes
  import opened ProcQueue
  import opened ProcTree
  import opened Scheduling
  import opened SchedulingKeeps
  import opened Termination
  import opened Kernel
  import opened KernelKeeps
  import opened KernelTheorems
  import opened KernelSemaphores
  import KernelHistory
  import Devices
  import Asl = SemList

  // --------------------------------------------------------------------- semaphore values

  predicate Terminates(op: Op) { op.TerminateProcess? || op.PassUpOrDie? }

  /** How many of those who wait on `a` the step terminates. */
  ghost function Killed(s: KState, step: Step, a: Addr): int
    requires TreeInv(s.f) && RootKnown(s.f)
  {
    if Terminates(step.op) then |Asl.Queue(s.q.asl, a)| - |Asl.Queue(Next(s, step).q.asl, a)| else 0
  }

  lemma ScheduleSem(s: KState, now: int)
    ensures Schedule(s, now).q.sem == s.q.sem && Resume(s, now).q.sem == s.q.sem
  {
  }

  lemma UpdateSem(s: KState, now: int, st: Regs)
    ensures UpdateCPUTime(s, now).q == s.q && Save(s, st).q == s.q && InterruptEntry(s, now).q == s.q
  {
  }

  lemma SetSemValue(q: Sched, b: Addr, v: int, a: Addr)
    ensures Value(SetSem(q, b, v), a) == if a == b then v else Value(q, a)
  {
  }

  lemma SameSem(q: Sched, r: Sched, a: Addr)
    requires r.sem == q.sem
    ensures Value(r, a) == Value(q, a)
  {
  }

  lemma BlockSem(q: Sched, b: Addr)
    ensures BlockCurrent(q, b).sem == q.sem
  {
  }

  lemma WakeSem(q: Sched, b: Addr, soft: bool)
    ensures Wake(q, b, soft).0.sem == q.sem
  {
  }

  lemma {:induction false} WakeAllSem(q: Sched, b: Addr)
    ensures WakeAll(q, b).0.sem == q.sem
    decreases |Asl.Queue(q.asl, b)|
  {
    WakeSem(q, b, true);
    if Wake(q, b, true).1.Some? { WakeAllSem(Wake(q, b, true).0, b); }
  }

  /** The interrupt serves semaphore `a`: it is that of the lowest pending device, of a half with
      a status byte that is not 0. */
  predicate Serves(op: Op, a: Addr) {
    match op
    case DeviceInterrupt(line, pending, _) =>
      var dev := Devices.Lowest(pending); dev >= 0 && a == DeviceSem(Devices.HandlerIndex(line, dev, false))
    case TerminalInterrupt(pending, tx, rx) =>
      var dev := Devices.Lowest(pending);
      dev >= 0 && ((a == DeviceSem(40 + dev) && tx % 256 != 0) || (a == DeviceSem(32 + dev) && rx % 256 != 0))
    case _ => false
  }

  /** What one step does to each semaphore: SYS3, SYS5 and SYS7 take 1 from theirs, SYS4 adds 1; a
      served interrupt adds 1 if the value is negative, the clock tick ends at 0; a termination
      adds 1 to an ordinary semaphore for each waiter it takes. Nothing else happens to any. */
  lemma ValueStep(s: KState, step: Step, a: Addr)
    requires Inv(s) && Enabled(s, step) && TreeInv(s.f) && RootKnown(s.f)
    ensures Value(Next(s, step).q, a) == Value(s.q, a)
              + (match step.op
                 case Passeren(_, b) => if b == a then -1 else 0
                 case Verhogen(_, b) => if b == a then 1 else 0
                 case DoIO(_, addr) => if Devices.Accepted(addr) && a == DeviceSem(Devices.SemIndex(addr)) then -1 else 0
                 case WaitForClock(_) => if a == CLOCK then -1 else 0
                 case ClockTick => if a == CLOCK then -Value(s.q, a) else 0
                 case TerminateProcess(_, _) => if IsSoft(a) then 0 else Killed(s, step, a)
                 case PassUpOrDie => if IsSoft(a) then 0 else Killed(s, step, a)
                 case _ => if Serves(step.op, a) && Value(s.q, a) < 0 then 1 else 0)
  {
    hide Inv, TreeInv, RootKnown, Next, Value, Willing;
    if IsInterrupt(step.op) {
      InterruptValue(s, step, a);
    } else if Terminates(step.op) {
      TerminationValue(s, step, a);
    } else {
      SyscallValue(s, step, a);
    }
  }

  /** What the calls do to the table of semaphores. */
  lemma SyscallSems(s: KState, st: Regs, child: Regs, prio: int, support: bool, b: Addr, c: Tod)
    ensures DoCreate(s, st, child, prio, support).q.sem == s.q.sem
    ensures DoPasseren(s, st, b, c).q.sem == SetSem(s.q, b, Value(s.q, b) - 1).sem
    ensures DoVerhogen(s, st, b, c).q.sem == SetSem(s.q, b, Value(s.q, b) + 1).sem
    ensures DoAwait(s, st, b, c).q.sem == SetSem(s.q, b, Value(s.q, b) - 1).sem
    ensures DoYield(s, st, c).q.sem == s.q.sem && UpdateCPUTime(s, c.t1).q.sem == s.q.sem
    ensures DoQuantum(s, st, c).q.sem == s.q.sem
  {
    hide BlockCurrent, Wake, Insert;
    BlockSem(SetSem(s.q, b, Value(s.q, b) - 1), b);
    WakeSem(SetSem(s.q, b, Value(s.q, b) + 1), b, false);
  }

  lemma SyscallValue(s: KState, step: Step, a: Addr)
    requires TreeInv(s.f) && RootKnown(s.f) && !IsInterrupt(step.op) && !Terminates(step.op)
    ensures Value(Next(s, step).q, a) == Value(s.q, a)
              + (match step.op
                 case Passeren(_, b) => if b == a then -1 else 0
                 case Verhogen(_, b) => if b == a then 1 else 0
                 case DoIO(_, addr) => if Devices.Accepted(addr) && a == DeviceSem(Devices.SemIndex(addr)) then -1 else 0
                 case WaitForClock(_) => if a == CLOCK then -1 else 0
                 case _ => 0)
  {
    hide TreeInv, RootKnown, DoCreate, DoPasseren, DoVerhogen, DoAwait, DoYield, UpdateCPUTime;
    var r := Next(s, step).q;
    match step.op
    case CreateProcess(st, child, prio, support) => SyscallSems(s, st, child, prio, support, 0, step.c);
    case Passeren(st, b) => SyscallSems(s, st, st, 0, false, b, step.c);
    case Verhogen(st, b) => SyscallSems(s, st, st, 0, false, b, step.c);
    case DoIO(st, addr) =>
      if Devices.Accepted(addr) { SyscallSems(s, st, st, 0, false, DeviceSem(Devices.SemIndex(addr)), step.c); }
    case GetCPUTime(st) => SyscallSems(s, st, st, 0, false, 0, step.c);
    case WaitForClock(st) => SyscallSems(s, st, st, 0, false, CLOCK, step.c);
    case Yield(st) => SyscallSems(s, st, st, 0, false, 0, step.c);
  }

  lemma ServeSem(s: KState, b: Addr, status: int, a: Addr)
    ensures Value(Serve(s, b, status).q, a) == Value(s.q, a) + if a == b && Value(s.q, b) < 0 then 1 else 0
  {
    hide Wake;
    WakeSem(SetSem(s.q, b, Value(s.q, b) + 1), b, true);
  }

  lemma TickSem(s: KState, c: Tod, a: Addr)
    ensures Value(DoTick(s, c).q, a) == if a == CLOCK then 0 else Value(s.q, a)
  {
    hide WakeAll, SetA0All, Resume, Value, SetSem;
    var s1 := InterruptEntry(s, c.t1);
    WakeAllSem(s1.q, CLOCK);
    SameSem(s1.q, WakeAll(s1.q, CLOCK).0, a);
    SetSemValue(WakeAll(s1.q, CLOCK).0, CLOCK, 0, a);
    var (q, woken) := Tick(s1.q);
    KernelHistory.SetA0AllFrame(s1.(q := q), woken, 0);
    var s2 := SetA0All(s1.(q := q), woken, 0);
    ScheduleSem(s2, c.t2);
    SameSem(s2.q, Resume(s2, c.t2).q, a);
  }

  lemma InterruptValue(s: KState, step: Step, a: Addr)
    requires TreeInv(s.f) && RootKnown(s.f) && Willing(s, step) && IsInterrupt(step.op)
    ensures Value(Next(s, step).q, a) == Value(s.q, a)
              + if step.op.ClockTick? then (if a == CLOCK then -Value(s.q, a) else 0)
                else if Serves(step.op, a) && Value(s.q, a) < 0 then 1 else 0
  {
    hide TreeInv, RootKnown, DoQuantum, DoTick, DoDevice, DoTerminal;
    var c, s1 := step.c, InterruptEntry(s, step.c.t1);
    match step.op
    case QuantumExpiry(st) =>
      SyscallSems(s, st, st, 0, false, 0, c);
      SameSem(s.q, DoQuantum(s, st, c).q, a);
    case ClockTick => TickSem(s, c, a);
    case DeviceInterrupt(line, pending, status) => DeviceValue(s, step, a);
    case TerminalInterrupt(pending, tx, rx) => TerminalValue(s, step, a);
  }

  lemma DeviceValue(s: KState, step: Step, a: Addr)
    requires step.op.DeviceInterrupt? && 3 <= step.op.line <= 6 && |step.op.pending| == 8
    ensures Value(DoDevice(s, step.op.line, step.op.pending, step.op.status, step.c).q, a)
         == Value(s.q, a) + if Serves(step.op, a) && Value(s.q, a) < 0 then 1 else 0
  {
    hide Resume, Serve, InterruptEntry;
    var c, s1, dev := step.c, InterruptEntry(s, step.c.t1), Devices.Lowest(step.op.pending);
    UpdateSem(s, c.t1, Regs(0, 0));
    var b := DeviceSem(Devices.HandlerIndex(step.op.line, dev, false));
    ServeSem(s1, b, step.op.status, a);
    var s2 := if dev < 0 then s1 else Serve(s1, b, step.op.status);
    ScheduleSem(s2, c.t2);
    SameSem(s2.q, Resume(s2, c.t2).q, a);
  }

  lemma TerminalValue(s: KState, step: Step, a: Addr)
    requires step.op.TerminalInterrupt? && |step.op.pending| == 8
    ensures Value(DoTerminal(s, step.op.pending, step.op.tx, step.op.rx, step.c).q, a)
         == Value(s.q, a) + if Serves(step.op, a) && Value(s.q, a) < 0 then 1 else 0
  {
    hide Resume, Serve, InterruptEntry;
    var c, s1, dev := step.c, InterruptEntry(s, step.c.t1), Devices.Lowest(step.op.pending);
    var tx, rx := step.op.tx, step.op.rx;
    UpdateSem(s, c.t1, Regs(0, 0));
    var b, d := DeviceSem(Devices.HandlerIndex(7, dev, true)), DeviceSem(Devices.HandlerIndex(7, dev, false));
    ServeSem(s1, b, tx, a);
    var s2 := if tx % 256 != 0 then Serve(s1, b, tx) else s1;
    ServeSem(s2, d, rx, a);
    var s3 := if dev < 0 then s1 else if rx % 256 != 0 then Serve(s2, d, rx) else s2;
    ScheduleSem(s3, c.t2);
    SameSem(s3.q, Resume(s3, c.t2).q, a);
  }

  /** A termination, as far as the queues are concerned. */
  lemma TerminationQueues(s: KState, step: Step) returns (v: Option<Proc>)
    requires Inv(s) && Willing(s, step) && TreeInv(s.f) && RootKnown(s.f) && Terminates(step.op)
    ensures v == Victim(s, step.op)
    ensures v.None? ==> Next(s, step).q == s.q
    ensures v.Some? ==> Live(s.f, v.value) && Placed(s.q, LiveSet(s.f))
    ensures v.Some? ==> var r, k := Next(s, step).q, Kill(s.f, s.q, v.value).1; r.sem == k.sem && r.asl == k.asl
  {
    hide SchedInv, TimeInv, TreeInv, Kill, Schedule;
    BaseSplit(s);
    CurrentIsLive(s.f, s.q);
    PlacedPart(s);
    v := Victim(s, step.op);
    if step.op.TerminateProcess? { TargetIsLive(s, step.op.pid); }
    if v.Some? {
      var s2 := KillIn(UpdateCPUTime(s, step.c.t1), v.value);
      ScheduleAsl(s2.(q := s2.q.(current := None)), step.c.t2);
      ScheduleSem(s2.(q := s2.q.(current := None)), step.c.t2);
    }
  }

  lemma TerminationValue(s: KState, step: Step, a: Addr)
    requires Inv(s) && Willing(s, step) && TreeInv(s.f) && RootKnown(s.f) && Terminates(step.op)
    ensures Value(Next(s, step).q, a) == Value(s.q, a) + if IsSoft(a) then 0 else Killed(s, step, a)
  {
    hide Inv, TreeInv, RootKnown, Kill, Next, Willing, Placed;
    var v := TerminationQueues(s, step);
    if v.Some? {
      KillFreesSubtree(s.f, s.q, v.value);
      var r := Kill(s.f, s.q, v.value).1;
      assert Value(r, a) == Value(s.q, a) + (if IsSoft(a) then 0 else |Asl.Queue(s.q.asl, a)| - |Asl.Queue(r.asl, a)|);
      SameSem(r, Next(s, step).q, a);
    }
  }

  /** The V's, less the P's, on `a` in a run, and the waiters of `a` it terminates. */
  ghost function Signals(steps: seq<Step>, a: Addr): int {
    if steps == [] then 0
    else (if steps[0].op.Verhogen? && steps[0].op.sem == a then 1
          else if steps[0].op.Passeren? && steps[0].op.sem == a then -1 else 0) + Signals(steps[1..], a)
  }

  ghost function AllKilled(s: KState, steps: seq<Step>, a: Addr): int
    requires Inv(s) && Legal(s, steps)
    decreases |steps|
  {
    if steps == [] then 0
    else (StepKeeps(s, steps[0]); Killed(s, steps[0], a) + AllKilled(Next(s, steps[0]), steps[1..], a))
  }

  lemma {:induction false} RunAccount(s: KState, steps: seq<Step>, a: Addr)
    requires Inv(s) && Legal(s, steps) && !IsSoft(a)
    ensures Value(Exec(s, steps).q, a) == Value(s.q, a) + Signals(steps, a) + AllKilled(s, steps, a)
    decreases |steps|
  {
    hide Enabled, Next, TreeInv, RootKnown, SchedInv, TimeInv, ModeInv, Value, Killed, Serves;
    if steps != [] {
      StepKeeps(s, steps[0]);
      ValueStep(s, steps[0], a);
      NotServed(s, steps[0], a);
      RunAccount(Next(s, steps[0]), steps[1..], a);
    }
  }

  lemma NotServed(s: KState, step: Step, a: Addr)
    requires Inv(s) && Enabled(s, step) && !IsSoft(a)
    ensures !Serves(step.op, a) && a != CLOCK
    ensures step.op.DoIO? && Devices.Accepted(step.op.addr) ==> a != DeviceSem(Devices.SemIndex(step.op.addr))
    ensures !Terminates(step.op) ==> TreeInv(s.f) && RootKnown(s.f) && Killed(s, step, a) == 0
  {
    hide TreeInv, SchedInv, TimeInv, Next;
  }

  /** No signal is lost and none counts twice: after every run from boot the value of an ordinary
      semaphore is its initial value, plus the V's, less the P's, plus the waiters terminated. */
  lemma SemaphoreAccount(mem: map<Addr, int>, now: int, steps: seq<Step>, a: Addr)
    requires NoNegativeSemaphore(mem) && !IsSoft(a)
    requires Inv(Boot(mem, now)) ==> Legal(Boot(mem, now), steps)
    ensures Inv(Boot(mem, now))
    ensures Value(Exec(Boot(mem, now), steps).q, a)
         == (if a in mem then mem[a] else 0) + Signals(steps, a) + AllKilled(Boot(mem, now), steps, a)
  {
    hide Legal, Exec, Inv, Value, Schedule;
    BootKeeps(mem, now);
    RunAccount(Boot(mem, now), steps, a);
    BootValue(mem, now, a);
  }

  lemma BootValue(mem: map<Addr, int>, now: int, a: Addr)
    requires !IsSoft(a)
    ensures Value(Boot(mem, now).q, a) == if a in mem then mem[a] else 0
  {
    ScheduleSem(InitKernel(mem, now), now);
    DevicesAreZero(mem, SEMDEVLEN, a);
    hide DevicesZeroed, Schedule;
  }

  // ------------------------------------------------------------------------ saved states

  /** The processor state with which the running process enters a step that may stop it. */
  function StateOf(op: Op): Option<Regs> {
    match op
    case Passeren(st, _) => Some(st)
    case DoIO(st, addr) => if Devices.Accepted(addr) then Some(st) else None
    case WaitForClock(st) => Some(st)
    case Yield(st) => Some(st)
    case QuantumExpiry(st) => Some(st)
    case _ => None
  }

  lemma {:induction false} SetA0AllIs(s: KState, ps: seq<Proc>, v: int, x: Proc)
    ensures SetA0All(s, ps, v).pcb[x].saved
         == if x in ps then s.pcb[x].saved.(a0 := v) else s.pcb[x].saved
    decreases |ps|
  {
    if ps != [] {
      assert ps == [ps[0]] + ps[1..];
      SetA0AllIs(SetA0(s, Some(ps[0]), v), ps[1..], v, x);
    }
  }

  lemma ScheduleSaved(s: KState, now: int)
    ensures Schedule(s, now).pcb == s.pcb && Resume(s, now).pcb == s.pcb
  {
  }

  lemma SavedSo(s: KState, now: int, st: Regs, x: Proc)
    ensures UpdateCPUTime(s, now).pcb[x].saved == s.pcb[x].saved && InterruptEntry(s, now).pcb[x].saved == s.pcb[x].saved
    ensures Save(s, st).pcb[x].saved == if s.q.current == Some(x) then st else s.pcb[x].saved
    ensures UpdateCPUTime(s, now).q == s.q && InterruptEntry(s, now).q == s.q && Save(s, st).q == s.q
  {
  }

  /** The calls that may stop their caller, and the end of a quantum. */
  lemma StoppersSave(s: KState, st: Regs, a: Addr, c: Tod, x: Proc)
    ensures DoPasseren(s, st, a, c).pcb[x].saved == if s.q.current == Some(x) then st else s.pcb[x].saved
    ensures DoAwait(s, st, a, c).pcb[x].saved == if s.q.current == Some(x) then st else s.pcb[x].saved
    ensures DoYield(s, st, c).pcb[x].saved == if s.q.current == Some(x) then st else s.pcb[x].saved
    ensures DoQuantum(s, st, c).pcb[x].saved == if s.q.current == Some(x) then st else s.pcb[x].saved
    ensures DoVerhogen(s, st, a, c).pcb[x].saved == if s.q.current == Some(x) then st else s.pcb[x].saved
    ensures DoVerhogen(s, st, a, c).q.current == s.q.current
  {
    hide Schedule, SemWait, AwaitDevice, SemSignal, Requeue, UpdateCPUTime, InterruptEntry, Save;
    SavedSo(s, c.t1, st, x);
    var s1 := Save(UpdateCPUTime(s, c.t1), st);
    SavedSo(UpdateCPUTime(s, c.t1), c.t1, st, x);
    SavedSo(InterruptEntry(s, c.t1), c.t1, st, x);
    SavedSo(s1, c.t2, st, x);
    var i1 := Save(InterruptEntry(s, c.t1), st);
    ScheduleSaved(Charged(s1, SemWait(s1.q, a), c.t2), c.t3);
    ScheduleSaved(Charged(s1, AwaitDevice(s1.q, a), c.t2), c.t3);
    ScheduleSaved(s1.(q := Requeue(s1.q)), c.t2);
    ScheduleSaved(i1.(q := Requeue(i1.q)), c.t2);
    SignalCurrent(s1.q, a);
  }

  lemma SignalCurrent(q: Sched, a: Addr)
    ensures SemSignal(q, a).0.current == q.current
  {
  }

  /** Nothing of the saved state but a0 has changed, and that only for somebody who waited for a
      device or for the clock. */
  ghost predicate Kept(s: KState, t: KState, x: Proc) {
    && t.pcb[x].saved == s.pcb[x].saved.(a0 := t.pcb[x].saved.a0)
    && (t.pcb[x].saved != s.pcb[x].saved ==> WaitsSoft(s.q, x))
  }

  ghost predicate WaitsSoft(q: Sched, x: Proc) { exists a :: IsSoft(a) && x in Asl.Queue(q.asl, a) }

  lemma ServeSaves(s: KState, b: Addr, status: int, x: Proc)
    requires IsSoft(b)
    ensures Kept(s, Serve(s, b, status), x)
    ensures forall a :: x in Asl.Queue(Serve(s, b, status).q.asl, a) ==> x in Asl.Queue(s.q.asl, a)
  {
    var q1 := SetSem(s.q, b, Value(s.q, b) + 1);
    WakeMoves(q1, b, true);
    hide Wake;
    var w := Asl.Queue(s.q.asl, b);
    if w != [] { assert w[0] in w; }
  }

  lemma KeptTwice(s: KState, m: KState, t: KState, x: Proc)
    requires Kept(s, m, x) && Kept(m, t, x)
    requires forall a :: x in Asl.Queue(m.q.asl, a) ==> x in Asl.Queue(s.q.asl, a)
    ensures Kept(s, t, x)
  {
  }

  lemma DeviceSaves(s: KState, step: Step, x: Proc)
    requires step.op.DeviceInterrupt? && 3 <= step.op.line <= 6 && |step.op.pending| == 8
    ensures Kept(s, DoDevice(s, step.op.line, step.op.pending, step.op.status, step.c), x)
  {
    hide Serve, Resume, InterruptEntry;
    var c, s1, dev := step.c, InterruptEntry(s, step.c.t1), Devices.Lowest(step.op.pending);
    SavedSo(s, c.t1, Regs(0, 0), x);
    var b := DeviceSem(Devices.HandlerIndex(step.op.line, dev, false));
    if dev >= 0 { ServeSaves(s1, b, step.op.status, x); }
    ScheduleSaved(if dev < 0 then s1 else Serve(s1, b, step.op.status), c.t2);
  }

  lemma TerminalSaves(s: KState, step: Step, x: Proc)
    requires step.op.TerminalInterrupt? && |step.op.pending| == 8
    ensures Kept(s, DoTerminal(s, step.op.pending, step.op.tx, step.op.rx, step.c), x)
  {
    hide Serve, Resume, InterruptEntry, Kept;
    var c, s1, dev := step.c, InterruptEntry(s, step.c.t1), Devices.Lowest(step.op.pending);
    SavedSo(s, c.t1, Regs(0, 0), x);
    KeptSame(s, s1, x);
    if dev >= 0 {
      var b, d := DeviceSem(Devices.HandlerIndex(7, dev, true)), DeviceSem(Devices.HandlerIndex(7, dev, false));
      ServeSaves(s1, b, step.op.tx, x);
      var s2 := if step.op.tx % 256 != 0 then Serve(s1, b, step.op.tx) else s1;
      KeptSame(s1, s1, x);
      ServeSaves(s2, d, step.op.rx, x);
      KeptSame(s2, s2, x);
      var s3 := if step.op.rx % 256 != 0 then Serve(s2, d, step.op.rx) else s2;
      KeptTwice(s1, s2, s3, x);
      KeptTwice(s, s1, s3, x);
      ScheduleSaved(s3, c.t2);
      KeptAfter(s, s3, Resume(s3, c.t2), x);
    } else {
      ScheduleSaved(s1, c.t2);
      KeptAfter(s, s1, Resume(s1, c.t2), x);
    }
  }

  lemma KeptSame(s: KState, t: KState, x: Proc)
    ensures t.pcb[x].saved == s.pcb[x].saved ==> Kept(s, t, x)
  {
  }

  lemma KeptAfter(s: KState, m: KState, t: KState, x: Proc)
    requires Kept(s, m, x) && t.pcb == m.pcb
    ensures Kept(s, t, x)
  {
  }

  lemma TickSaves(s: KState, c: Tod, x: Proc)
    ensures Kept(s, DoTick(s, c), x)
    ensures DoTick(s, c).pcb[x].saved
         == if x in Asl.Queue(s.q.asl, CLOCK) then s.pcb[x].saved.(a0 := 0) else s.pcb[x].saved
  {
    hide WakeAll, SetA0All, Resume, InterruptEntry, Asl.Queue;
    SavedSo(s, c.t1, Regs(0, 0), x);
    var s1 := InterruptEntry(s, c.t1);
    WakeAllMerges(s1.q, CLOCK);
    var (q, woken) := Tick(s1.q);
    SetA0AllIs(s1.(q := q), woken, 0, x);
    ScheduleSaved(SetA0All(s1.(q := q), woken, 0), c.t2);
    assert IsSoft(CLOCK);
  }

  /** What a call that terminates somebody does to states. */
  lemma TerminationSaves(s: KState, step: Step, x: Proc)
    requires Inv(s) && Willing(s, step) && TreeInv(s.f) && RootKnown(s.f) && Terminates(step.op)
    ensures s.q.current != Some(x) ==> Next(s, step).pcb[x].saved == s.pcb[x].saved
    ensures s.q.current == Some(x) && Live(Next(s, step).f, x) ==> Next(s, step).q.current == Some(x)
  {
    hide SchedInv, TimeInv, TreeInv, Kill, Schedule;
    BaseSplit(s);
    CurrentIsLive(s.f, s.q);
    var s1 := UpdateCPUTime(s, step.c.t1);
    SavedSo(s, step.c.t1, Regs(0, 0), x);
    if step.op.TerminateProcess? { TargetIsLive(s, step.op.pid); }
    var v := Victim(s, step.op);
    if v.Some? {
      var s2 := KillIn(s1, v.value);
      KillCurrent(s.f, s.q, v.value);
      KillKeeps(s.f, s.q, v.value);
      ScheduleSaved(s2.(q := s2.q.(current := None)), step.c.t2);
      ScheduleTree(s2.(q := s2.q.(current := None)), step.c.t2);
      if s.q.current == Some(x) && x in Post(s.f, v.value) { assert x !in LiveSet(s2.f); }
      if step.op.TerminateProcess? { SavedSo(s2, step.c.t2, step.op.st, x); }
    }
  }

  /** A call that terminates nobody. */
  lemma SyscallSaves(s: KState, step: Step, x: Proc)
    requires TreeInv(s.f) && RootKnown(s.f) && !IsInterrupt(step.op) && !Terminates(step.op)
    requires x !in s.q.free
    ensures s.q.current != Some(x) ==> Next(s, step).pcb[x].saved == s.pcb[x].saved
    ensures s.q.current == Some(x) && StateOf(step.op).Some? ==> Next(s, step).pcb[x].saved == StateOf(step.op).value
    ensures s.q.current == Some(x) && StateOf(step.op).None? ==> Next(s, step).q.current == Some(x)
  {
    hide TreeInv, RootKnown, DoPasseren, DoVerhogen, DoAwait, DoYield, UpdateCPUTime;
    var c := step.c;
    match step.op
    case CreateProcess(st, child, prio, support) => CreateSaves(s, st, child, prio, support, x);
    case Passeren(st, a) => StoppersSave(s, st, a, c, x);
    case Verhogen(st, a) => StoppersSave(s, st, a, c, x);
    case DoIO(st, addr) =>
      if Devices.Accepted(addr) { StoppersSave(s, st, DeviceSem(Devices.SemIndex(addr)), c, x); }
    case GetCPUTime(st) => SavedSo(s, c.t1, st, x);
    case WaitForClock(st) => StoppersSave(s, st, CLOCK, c, x);
    case Yield(st) => StoppersSave(s, st, 0, c, x);
  }

  lemma CreateSaves(s: KState, st: Regs, child: Regs, prio: int, support: bool, x: Proc)
    requires x !in s.q.free
    ensures var r := DoCreate(s, st, child, prio, support);
            r.q.current == s.q.current && (s.q.current != Some(x) ==> r.pcb[x].saved == s.pcb[x].saved)
  {
    hide Spawn, InsertChild, MakeReady;
    if s.q.free != [] { assert s.q.free[0] in s.q.free; AdmitCurrent(s.q, prio); }
  }

  lemma AdmitCurrent(q: Sched, k: int)
    requires q.free != []
    ensures Admit(q, k).current == q.current
  {
  }

  /** An interrupt. */
  lemma InterruptSaves(s: KState, step: Step, x: Proc)
    requires TreeInv(s.f) && RootKnown(s.f) && IsInterrupt(step.op) && Willing(s, step)
    ensures s.q.current != Some(x) ==> Kept(s, Next(s, step), x)
    ensures s.q.current == Some(x) && StateOf(step.op).Some? ==> Next(s, step).pcb[x].saved == StateOf(step.op).value
    ensures s.q.current == Some(x) && StateOf(step.op).None? ==> Next(s, step).q.current == Some(x)
    ensures step.op.ClockTick? && x in Asl.Queue(s.q.asl, CLOCK) ==> Next(s, step).pcb[x].saved == s.pcb[x].saved.(a0 := 0)
  {
    hide TreeInv, RootKnown, DoQuantum, DoTick, DoDevice, DoTerminal, Kept;
    match step.op
    case QuantumExpiry(st) =>
      StoppersSave(s, st, 0, step.c, x);
      KeptSame(s, DoQuantum(s, st, step.c), x);
    case ClockTick => TickSaves(s, step.c, x); InterruptCurrent(s, step);
    case DeviceInterrupt(line, pending, status) => DeviceSaves(s, step, x); InterruptCurrent(s, step);
    case TerminalInterrupt(pending, tx, rx) => TerminalSaves(s, step, x); InterruptCurrent(s, step);
  }

  lemma ServeCurrent(s: KState, b: Addr, status: int)
    ensures Serve(s, b, status).q.current == s.q.current
  {
  }

  lemma InterruptCurrent(s: KState, step: Step)
    requires TreeInv(s.f) && RootKnown(s.f) && IsInterrupt(step.op) && Willing(s, step) && StateOf(step.op).None?
    ensures s.q.current.Some? ==> Next(s, step).q.current == s.q.current
  {
    hide TreeInv, RootKnown, Serve, WakeAll, SetA0All;
    var c, s1 := step.c, InterruptEntry(s, step.c.t1);
    match step.op
    case ClockTick =>
      TickCurrent(s1.q);
      var (q, woken) := Tick(s1.q);
      KernelHistory.SetA0AllFrame(s1.(q := q), woken, 0);
    case DeviceInterrupt(line, pending, status) =>
      var dev := Devices.Lowest(pending);
      ServeCurrent(s1, DeviceSem(Devices.HandlerIndex(line, dev, false)), status);
    case TerminalInterrupt(pending, tx, rx) =>
      var dev := Devices.Lowest(pending);
      ServeCurrent(s1, DeviceSem(Devices.HandlerIndex(7, dev, true)), tx);
      var s2 := if tx % 256 != 0 then Serve(s1, DeviceSem(Devices.HandlerIndex(7, dev, true)), tx) else s1;
      ServeCurrent(s2, DeviceSem(Devices.HandlerIndex(7, dev, false)), rx);
    case QuantumExpiry(_) =>
  }

  /** A live process loses nothing of its state in any step. When it stops, by its own call or at
      the end of its quantum, the state with which it stopped is saved; as long as it does not run
      the saved state stays, up to the a0 of somebody who waits for a device or the clock. */
  lemma StateIsKept(s: KState, step: Step, x: Proc)
    requires Inv(s) && Enabled(s, step) && Live(s.f, x)
    ensures TreeInv(s.f) && RootKnown(s.f)
    ensures s.q.current == Some(x) && Live(Next(s, step).f, x) ==>
              if StateOf(step.op).Some? then Next(s, step).pcb[x].saved == StateOf(step.op).value
              else Next(s, step).q.current == Some(x)
    ensures s.q.current != Some(x) ==> Kept(s, Next(s, step), x)
    ensures step.op.ClockTick? && x in Asl.Queue(s.q.asl, CLOCK) ==> Next(s, step).pcb[x].saved == s.pcb[x].saved.(a0 := 0)
  {
    InvTree(s);
    hide Inv, TreeInv, RootKnown, Next, Kept;
    if IsInterrupt(step.op) {
      InterruptSaves(s, step, x);
    } else if Terminates(step.op) {
      TerminationSaves(s, step, x);
      KeptSame(s, Next(s, step), x);
    } else {
      LiveNotFree(s, x);
      SyscallSaves(s, step, x);
      KeptSame(s, Next(s, step), x);
    }
  }

  lemma InvTree(s: KState)
    requires Inv(s)
    ensures TreeInv(s.f) && RootKnown(s.f)
  {
    hide TreeInv, RootKnown, SchedInv, TimeInv;
  }

  lemma LiveNotFree(s: KState, x: Proc)
    requires Inv(s) && Live(s.f, x)
    ensures x !in s.q.free
  {
    hide TreeInv, RootKnown, Counted, AllLawful, Ordered, Logged, TimeInv;
    assert x in LiveSet(s.f);
  }

  /** `x` lives on and does not run before any step of the run. */
  ghost predicate Rests(s: KState, steps: seq<Step>, x: Proc)
    requires Inv(s) && Legal(s, steps)
    decreases |steps|
  {
    steps == [] || (Live(s.f, x) && s.q.current != Some(x)
                    && (StepKeeps(s, steps[0]); Rests(Next(s, steps[0]), steps[1..], x)))
  }

  /** From the step in which it stops to the one in which it is dispatched again, however long that
      takes, a process keeps its state up to a0. */
  lemma {:induction false} StatePersists(s: KState, steps: seq<Step>, x: Proc)
    requires Inv(s) && Legal(s, steps) && Rests(s, steps, x)
    ensures var r := Exec(s, steps).pcb[x].saved; r == s.pcb[x].saved.(a0 := r.a0)
    decreases |steps|
  {
    hide Enabled, Next, TreeInv, RootKnown, SchedInv, TimeInv, ModeInv, WaitsSoft;
    if steps != [] {
      StepKeeps(s, steps[0]);
      StateIsKept(s, steps[0], x);
      StatePersists(Next(s, steps[0]), steps[1..], x);
    }
  }

  // -------------------------------------------------------------------------------- time

  /** The moment at which the step takes the processor from the running process, if it does, and
      the moment from which the next one has it. */
  ghost function Stop(s: KState, step: Step): Option<(int, int)>
    requires TreeInv(s.f) && RootKnown(s.f) && s.q.current.Some?
  {
    var c := step.c;
    match step.op
    case Passeren(_, a) => if Value(s.q, a) <= 0 then Some((c.t2, c.t3)) else None
    case DoIO(_, addr) => if Devices.Accepted(addr) then Some((c.t2, c.t3)) else None
    case WaitForClock(_) => Some((c.t2, c.t3))
    case Yield(_) => Some((c.t1, c.t2))
    case QuantumExpiry(_) => Some((c.t1, c.t2))
    case TerminateProcess(_, _) => if Live(Next(s, step).f, s.q.current.value) then None else Some((c.t1, c.t2))
    case PassUpOrDie => if Live(Next(s, step).f, s.q.current.value) then None else Some((c.t1, c.t2))
    case _ => None
  }

  /** `p`, which was running, has been charged for all its time up to `t` and no longer; whoever
      runs next is charged from `now` on. */
  ghost predicate ChargedTo(s: KState, r: KState, p: Proc, t: int, now: int) {
    var pid := s.f.t[p].pid;
    && TimeOf(r.ledger, pid) == TimeOf(s.ledger, pid) + (t - s.start)
    && (r.q.current.Some? ==> r.start == now)
  }

  /** `p` runs on, and what it has been charged for reaches up to `start`. */
  ghost predicate RunsOn(s: KState, r: KState, p: Proc) {
    var pid := s.f.t[p].pid;
    r.q.current == Some(p) && TimeOf(r.ledger, pid) - r.start == TimeOf(s.ledger, pid) - s.start
  }

  /** The step either leaves `p` running or has charged it up to the moment it stops. */
  ghost predicate Accounted(s: KState, step: Step, p: Proc)
    requires TreeInv(s.f) && RootKnown(s.f) && s.q.current == Some(p)
  {
    match Stop(s, step)
    case None => RunsOn(s, Next(s, step), p)
    case Some((stop, next)) => ChargedTo(s, Next(s, step), p, stop, next)
  }

  lemma ChargeOnce(s: KState, now: int, p: Proc)
    requires s.q.current == Some(p)
    ensures ChargedTo(s, UpdateCPUTime(s, now), p, now, now) && RunsOn(s, UpdateCPUTime(s, now), p)
    ensures InterruptEntry(s, now) == UpdateCPUTime(s, now)
    ensures var r := UpdateCPUTime(s, now); r.f == s.f && r.q == s.q && r.start == now
  {
    var r := UpdateCPUTime(s, now);
    assert r.ledger[..|r.ledger| - 1] == s.ledger;
  }

  lemma ScheduleClock(s: KState, now: int)
    ensures Schedule(s, now).ledger == s.ledger && Schedule(s, now).f == s.f
    ensures s.q.current.None? && Schedule(s, now).q.current.Some? ==> Schedule(s, now).start == now
  {
  }

  lemma StopCharges(s: KState, m: KState, p: Proc, t: int, now: int)
    requires s.q.current == Some(p) && m.ledger == UpdateCPUTime(s, t).ledger && m.q.current.None?
    ensures ChargedTo(s, Schedule(m, now), p, t, now)
  {
    hide UpdateCPUTime, Schedule;
    ChargeOnce(s, t, p);
    ScheduleClock(m, now);
  }

  lemma SameClock(s: KState, m: KState, r: KState, p: Proc)
    requires RunsOn(s, m, p) && r.ledger == m.ledger && r.start == m.start && r.q.current == m.q.current
    ensures RunsOn(s, r, p)
  {
  }

  /** Two charges, as for a call that blocks: those for the time before and after the second
      reading of the clock add up. */
  lemma BlockCharges(s: KState, st: Regs, q: Sched, c: Tod, p: Proc)
    requires s.q.current == Some(p) && q.current.None?
    ensures ChargedTo(s, Schedule(Charged(Save(UpdateCPUTime(s, c.t1), st), q, c.t2), c.t3), p, c.t2, c.t3)
  {
    hide UpdateCPUTime, Schedule;
    ChargeOnce(s, c.t1, p);
    var s1 := Save(UpdateCPUTime(s, c.t1), st);
    ChargeOnce(s1, c.t2, p);
    ScheduleClock(Charged(s1, q, c.t2), c.t3);
  }

  lemma BlockedStops(q: Sched, a: Addr)
    ensures AwaitDevice(q, a).current.None?
    ensures SemWait(q, a).current == if Value(q, a) <= 0 then None else q.current
    ensures Requeue(q).current.None?
  {
  }

  lemma CallCharges(s: KState, st: Regs, a: Addr, c: Tod, p: Proc)
    requires s.q.current == Some(p)
    ensures if Value(s.q, a) <= 0 then ChargedTo(s, DoPasseren(s, st, a, c), p, c.t2, c.t3)
            else RunsOn(s, DoPasseren(s, st, a, c), p)
    ensures ChargedTo(s, DoAwait(s, st, a, c), p, c.t2, c.t3)
    ensures ChargedTo(s, DoYield(s, st, c), p, c.t1, c.t2)
    ensures ChargedTo(s, DoQuantum(s, st, c), p, c.t1, c.t2)
    ensures RunsOn(s, DoVerhogen(s, st, a, c), p)
  {
    hide UpdateCPUTime, Schedule, SemWait, SemSignal, AwaitDevice, Requeue, InterruptEntry, ChargedTo, RunsOn, Charged;
    ChargeOnce(s, c.t1, p);
    BlockedStops(s.q, a);
    if Value(s.q, a) <= 0 { BlockCharges(s, st, SemWait(s.q, a), c, p); }
    BlockCharges(s, st, AwaitDevice(s.q, a), c, p);
    var s1 := Save(UpdateCPUTime(s, c.t1), st);
    StopCharges(s, s1.(q := Requeue(s1.q)), p, c.t1, c.t2);
    SignalCurrent(s1.q, a);
    SameClock(s, UpdateCPUTime(s, c.t1), DoVerhogen(s, st, a, c), p);
    if Value(s.q, a) > 0 { SameClock(s, UpdateCPUTime(s, c.t1), s1.(q := SemWait(s1.q, a)), p); }
  }

  /** A call that terminates somebody, perhaps its caller. */
  lemma TerminationCharges(s: KState, step: Step, p: Proc)
    requires Inv(s) && Willing(s, step) && TreeInv(s.f) && RootKnown(s.f) && Terminates(step.op)
    requires s.q.current == Some(p)
    ensures Accounted(s, step, p)
  {
    hide SchedInv, TimeInv, TreeInv, Kill, Schedule, RunsOn, ChargedTo;
    BaseSplit(s);
    CurrentIsLive(s.f, s.q);
    ChargeOnce(s, step.c.t1, p);
    var s1 := UpdateCPUTime(s, step.c.t1);
    if step.op.TerminateProcess? { TargetIsLive(s, step.op.pid); }
    var v := Victim(s, step.op);
    if v.None? {
      RunsOnItself(s, p);
    } else {
      var s2 := KillIn(s1, v.value);
      var s3 := s2.(q := s2.q.(current := None));
      KillCurrent(s.f, s.q, v.value);
      KillKeeps(s.f, s.q, v.value);
      assert p in LiveSet(s2.f) <==> p !in Post(s.f, v.value);
      StopCharges(s, s3, p, step.c.t1, step.c.t2);
      ScheduleTree(s3, step.c.t2);
      if p !in Post(s.f, v.value) { SameClock(s, s1, Next(s, step), p); }
    }
  }

  lemma RunsOnItself(s: KState, p: Proc)
    requires s.q.current == Some(p)
    ensures RunsOn(s, s, p)
  {
  }

  /** No time of the running process is lost or given to somebody else: as long as it runs the
      time charged and the time since the reference point add up, and a step that takes the
      processor from it has charged it up to that very moment. */
  lemma NoTimeLost(s: KState, step: Step, p: Proc)
    requires Inv(s) && Enabled(s, step) && s.q.current == Some(p)
    ensures TreeInv(s.f) && RootKnown(s.f)
    ensures Accounted(s, step, p)
  {
    InvTree(s);
    hide Inv, TreeInv, RootKnown, Accounted, Next;
    if IsInterrupt(step.op) {
      InterruptCharges(s, step, p);
    } else if Terminates(step.op) {
      TerminationCharges(s, step, p);
    } else {
      SyscallCharges(s, step, p);
    }
  }

  lemma SyscallCharges(s: KState, step: Step, p: Proc)
    requires TreeInv(s.f) && RootKnown(s.f) && !IsInterrupt(step.op) && !Terminates(step.op)
    requires s.q.current == Some(p)
    ensures Accounted(s, step, p)
  {
    hide TreeInv, RootKnown, RunsOn, ChargedTo, DoCreate, DoPasseren, DoAwait, DoYield, DoVerhogen, UpdateCPUTime;
    var c := step.c;
    match step.op
    case CreateProcess(st, child, prio, support) => CreateCharges(s, st, child, prio, support, p);
    case Passeren(st, a) => CallCharges(s, st, a, c, p);
    case Verhogen(st, a) => CallCharges(s, st, a, c, p);
    case DoIO(st, addr) =>
      if Devices.Accepted(addr) { CallCharges(s, st, DeviceSem(Devices.SemIndex(addr)), c, p); }
      RunsOnItself(s, p);
    case GetCPUTime(st) => ChargeOnce(s, c.t1, p);
    case WaitForClock(st) => CallCharges(s, st, CLOCK, c, p);
    case Yield(st) => CallCharges(s, st, 0, c, p);
  }

  lemma CreateCharges(s: KState, st: Regs, child: Regs, prio: int, support: bool, p: Proc)
    requires s.q.current == Some(p)
    ensures RunsOn(s, DoCreate(s, st, child, prio, support), p)
  {
    hide Spawn, InsertChild, MakeReady;
    if s.q.free != [] { AdmitCurrent(s.q, prio); }
  }

  lemma InterruptCharges(s: KState, step: Step, p: Proc)
    requires TreeInv(s.f) && RootKnown(s.f) && IsInterrupt(step.op) && Willing(s, step)
    requires s.q.current == Some(p)
    ensures Accounted(s, step, p)
  {
    hide TreeInv, RootKnown, RunsOn, ChargedTo, DoQuantum, Serve, WakeAll, SetA0All, UpdateCPUTime;
    var c, s1 := step.c, InterruptEntry(s, step.c.t1);
    ChargeOnce(s, c.t1, p);
    match step.op
    case QuantumExpiry(st) => CallCharges(s, st, 0, c, p);
    case ClockTick =>
      TickCurrent(s1.q);
      var (q, woken) := Tick(s1.q);
      KernelHistory.SetA0AllFrame(s1.(q := q), woken, 0);
      SameClock(s, s1, Next(s, step), p);
    case DeviceInterrupt(line, pending, status) =>
      ServeClock(s1, DeviceSem(Devices.HandlerIndex(line, Devices.Lowest(pending), false)), status);
      SameClock(s, s1, Next(s, step), p);
    case TerminalInterrupt(pending, tx, rx) =>
      var dev := Devices.Lowest(pending);
      ServeClock(s1, DeviceSem(Devices.HandlerIndex(7, dev, true)), tx);
      var s2 := if tx % 256 != 0 then Serve(s1, DeviceSem(Devices.HandlerIndex(7, dev, true)), tx) else s1;
      ServeClock(s2, DeviceSem(Devices.HandlerIndex(7, dev, false)), rx);
      SameClock(s, s1, Next(s, step), p);
  }

  lemma ServeClock(s: KState, b: Addr, status: int)
    ensures var r := Serve(s, b, status); r.q.current == s.q.current && r.ledger == s.ledger && r.start == s.start
  {
  }

  // --------------------------------------------------------------------------- rotation

  /** `insertProcQ` next to the head: it goes in front of a head of lower priority and behind any
      other one. */
  lemma InsertAtHead(w: seq<Proc>, prio: Prios, p: Proc)
    ensures w == [] || prio[p] > prio[w[0]] ==> Insert(w, prio, p) == [p] + w
    ensures w != [] && prio[p] <= prio[w[0]] ==> Insert(w, prio, p) == [w[0]] + Insert(w[1..], prio, p)
  {
    if w != [] && prio[p] <= prio[w[0]] {
      var i := Slot(w[1..], prio, prio[p]);
      assert Slot(w, prio, prio[p]) == 1 + i;
      assert w[..1 + i] == [w[0]] + w[1..][..i] && w[1 + i..] == w[1..][i..];
    }
  }

  /** Who runs after `p` has given up the processor with `w` ready, and who is ready then. */
  ghost predicate Rotated(p: Proc, w: seq<Proc>, r: Sched) {
    if w == [] || r.prio[p] > r.prio[w[0]] then r.current == Some(p) && r.ready == w
    else
      && r.current == Some(w[0])
      && forall k :: Level(r.ready, r.prio, k) == Level(w[1..], r.prio, k) + if r.prio[p] == k then [p] else []
  }

  lemma RequeueRotates(s: KState, p: Proc, now: int)
    requires s.q.current == Some(p) && Sorted(s.q.ready, s.q.prio)
    ensures Rotated(p, s.q.ready, Schedule(s.(q := Requeue(s.q)), now).q)
  {
    hide Insert, Level, Sorted;
    var w := s.q.ready;
    InsertAtHead(w, s.q.prio, p);
    if w != [] && s.q.prio[p] <= s.q.prio[w[0]] {
      TailSorted(w, s.q.prio);
      forall k { InsertIsFifo(w[1..], s.q.prio, p, k); }
    }
  }

  lemma TailSorted(w: seq<Proc>, prio: Prios)
    requires Sorted(w, prio) && w != []
    ensures Sorted(w[1..], prio)
  {
  }

  /** Round robin: a process that yields, or whose quantum ends, goes on only if nobody of its
      priority or above is ready. Otherwise the first ready process runs, `p` is ready as the last
      of its priority, and the others keep their order. */
  lemma ProcessorRotates(s: KState, step: Step, p: Proc)
    requires Inv(s) && s.q.current == Some(p) && (step.op.Yield? || step.op.QuantumExpiry?)
    ensures TreeInv(s.f) && RootKnown(s.f) && Rotated(p, s.q.ready, Next(s, step).q)
    ensures Next(s, step).mode == Running && Next(s, step).q.prio == s.q.prio
  {
    InvTree(s);
    ReadySorted(s);
    hide Inv, TreeInv, RootKnown, Rotated, Sorted, Insert;
    var c := step.c;
    var s1 := if step.op.Yield? then Save(UpdateCPUTime(s, c.t1), step.op.st)
              else Save(InterruptEntry(s, c.t1), step.op.st);
    RequeueRotates(s1, p, c.t2);
    InsertMembers(s.q.ready, s.q.prio, p);
  }

  lemma ReadySorted(s: KState)
    requires Inv(s)
    ensures Sorted(s.q.ready, s.q.prio)
  {
    hide TreeInv, RootKnown, Placed, Counted, AllLawful, Logged, TimeInv;
  }

  // -------------------------------------------------------------------------------- PIDs

  /** The step creates a process. */
  predicate Bears(s: KState, op: Op) { op.CreateProcess? && s.q.free != [] }

  lemma NextPid(s: KState, step: Step)
    requires Inv(s) && Enabled(s, step) && TreeInv(s.f) && RootKnown(s.f)
    ensures Next(s, step).f.next == s.f.next + if Bears(s, step.op) then 1 else 0
  {
    hide Base, Next;
    if IsInterrupt(step.op) {
      InterruptForest(s, step);
    } else if Terminates(step.op) {
      TerminationNext(s, step);
    } else {
      SyscallNext(s, step);
    }
  }

  lemma InterruptForest(s: KState, step: Step)
    requires TreeInv(s.f) && RootKnown(s.f) && IsInterrupt(step.op) && Willing(s, step)
    ensures Next(s, step).f == s.f
  {
    hide TreeInv, RootKnown, DeviceDone, WakeAll, SetA0All, Requeue;
    var (q, woken) := Tick(InterruptEntry(s, step.c.t1).q);
    KernelHistory.SetA0AllFrame(InterruptEntry(s, step.c.t1).(q := q), woken, 0);
  }

  lemma SyscallNext(s: KState, step: Step)
    requires TreeInv(s.f) && RootKnown(s.f) && !IsInterrupt(step.op) && !Terminates(step.op)
    requires step.op.CreateProcess? ==> s.q.current.Some?
    ensures Next(s, step).f.next == s.f.next + if Bears(s, step.op) then 1 else 0
  {
    hide TreeInv, RootKnown, SemWait, SemSignal, AwaitDevice, Requeue, Admit;
  }

  lemma TerminationNext(s: KState, step: Step)
    requires Inv(s) && Willing(s, step) && TreeInv(s.f) && RootKnown(s.f) && Terminates(step.op)
    ensures Next(s, step).f.next == s.f.next
  {
    hide SchedInv, TimeInv, TreeInv, Kill, Schedule;
    BaseSplit(s);
    CurrentIsLive(s.f, s.q);
    if step.op.TerminateProcess? { TargetIsLive(s, step.op.pid); }
    var v := Victim(s, step.op);
    if v.Some? {
      KillKeeps(s.f, s.q, v.value);
      var s2 := KillIn(UpdateCPUTime(s, step.c.t1), v.value);
      ScheduleTree(s2.(q := s2.q.(current := None)), step.c.t2);
    }
  }

  /** How many processes a run creates. */
  ghost function Births(s: KState, steps: seq<Step>): nat
    requires Inv(s) && Legal(s, steps)
    decreases |steps|
  {
    if steps == [] then 0
    else (if Bears(s, steps[0].op) then 1 else 0) + (StepKeeps(s, steps[0]); Births(Next(s, steps[0]), steps[1..]))
  }

  lemma {:induction false} NextPids(s: KState, steps: seq<Step>)
    requires Inv(s) && Legal(s, steps)
    ensures Exec(s, steps).f.next == s.f.next + Births(s, steps)
    decreases |steps|
  {
    hide Enabled, Next, TreeInv, RootKnown, SchedInv, TimeInv, ModeInv, Bears;
    if steps != [] {
      InvTree(s);
      StepKeeps(s, steps[0]);
      NextPid(s, steps[0]);
      NextPids(Next(s, steps[0]), steps[1..]);
    }
  }

  /** PIDs are handed out in order and never again: the first process has PID 1, and the one created
      after n others by SYS1 has PID n + 2, which is also what its creator is told. */
  lemma PidsAreConsecutive(mem: map<Addr, int>, now: int, steps: seq<Step>, step: Step, c: Proc)
    requires NoNegativeSemaphore(mem)
    requires Inv(Boot(mem, now)) ==> Legal(Boot(mem, now), steps)
    ensures Inv(Boot(mem, now)) && Boot(mem, now).f.t[ROOT].pid == 1
    ensures var s := Exec(Boot(mem, now), steps);
            && Inv(s)
            && (Enabled(s, step) && Bears(s, step.op) && s.q.current == Some(c) ==>
                  var r, pid := Next(s, step), 2 + Births(Boot(mem, now), steps);
                  r.f.t[s.q.free[0]].pid == pid && r.pcb[c].saved.a0 == pid)
  {
    BootKeeps(mem, now);
    BootPids(mem, now);
    hide Inv, Legal, Exec, Enabled;
    RunKeeps(Boot(mem, now), steps);
    NextPids(Boot(mem, now), steps);
    var s := Exec(Boot(mem, now), steps);
    InvTree(s);
    if Enabled(s, step) && Bears(s, step.op) && s.q.current == Some(c) { NewPid(s, step, c); }
  }

  lemma BootPids(mem: map<Addr, int>, now: int)
    ensures Boot(mem, now).f.t[ROOT].pid == 1 && Boot(mem, now).f.next == 2
  {
    ScheduleTree(InitKernel(mem, now), now);
  }

  lemma NewPid(s: KState, step: Step, c: Proc)
    requires TreeInv(s.f) && RootKnown(s.f) && Inv(s) && Bears(s, step.op) && s.q.current == Some(c)
    ensures Next(s, step).f.t[s.q.free[0]].pid == s.f.next && Next(s, step).pcb[c].saved.a0 == s.f.next
  {
    LiveNotFree(s, c);
    hide Inv, TreeInv, RootKnown, MakeReady;
    assert s.q.free[0] in s.q.free;
  }
}
