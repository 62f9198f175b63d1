/**
 Semaphores over whole runs of the kernel: when descriptors suffice, what values mean,
 and what a clock tick does.
 */
module KernelSemaphores {
  import opened Processes
  import opened ProcQueue
  import opened ProcTree
  import opened Scheduling
  import opened SchedulingKeeps
  import opened Termination
  import opened Kernel
  import opened KernelKeeps
  import opened KernelTheorems
  import opened KernelHistory
  import Devices
  import Asl = SemList

  // --------------------------------------------------- descriptors never run out

  lemma BlockKeepsNonEmpty(q: Sched, a: Addr)
    requires Asl.NoEmptyQueue(q.asl)
    ensures Asl.NoEmptyQueue(BlockCurrent(q, a).asl)
  {
  }

  lemma WakeKeepsNonEmpty(q: Sched, a: Addr, soft: bool)
    requires Asl.NoEmptyQueue(q.asl)
    ensures Asl.NoEmptyQueue(Wake(q, a, soft).0.asl)
  {
  }

  lemma {:induction false} WakeAllKeepsNonEmpty(q: Sched, a: Addr)
    requires Asl.NoEmptyQueue(q.asl)
    ensures Asl.NoEmptyQueue(WakeAll(q, a).0.asl)
    decreases |Asl.Queue(q.asl, a)|
  {
    WakeKeepsNonEmpty(q, a, true);
    if Wake(q, a, true).1.Some? {
      WakeAllKeepsNonEmpty(Wake(q, a, true).0, a);
    }
  }

  lemma ServeKeepsNonEmpty(s: KState, a: Addr, status: int)
    requires Asl.NoEmptyQueue(s.q.asl)
    ensures Asl.NoEmptyQueue(Serve(s, a, status).q.asl)
  {
    WakeKeepsNonEmpty(SetSem(s.q, a, Value(s.q, a) + 1), a, true);
  }

  /** Every semaphore queue holds somebody who is not in the subtree of `p`. */
  ghost predicate Spared(f: Forest, asl: Asl.Asl, p: Proc) {
    forall a :: a in asl.active ==> exists x :: x in asl.active[a] && !Ancestor(f, p, x)
  }

  /** Forced termination takes processes out of the middle of semaphore queues and leaves
      the descriptors behind: none of them empty exactly when each queue was spared. */
  lemma KillSpares(f: Forest, q: Sched, p: Proc)
    requires TreeInv(f) && Live(f, p) && Placed(q, LiveSet(f))
    ensures Asl.NoEmptyQueue(Kill(f, q, p).1.asl) <==> Spared(f, q.asl, p)
  {
    hide TreeInv, Kill, Ancestor;
    var r, D := Kill(f, q, p).1, Members(Post(f, p));
    KillCuts(f, q, p);
    forall a | a in q.asl.active
      ensures r.asl.active[a] != [] <==> exists x :: x in q.asl.active[a] && !Ancestor(f, p, x)
    {
      assert Asl.Queue(r.asl, a) == Minus(Asl.Queue(q.asl, a), D);
      MinusMembers(q.asl.active[a], D);
      if r.asl.active[a] != [] {
        assert r.asl.active[a][0] in r.asl.active[a];
      }
    }
  }

  lemma KillCuts(f: Forest, q: Sched, p: Proc)
    requires TreeInv(f) && Live(f, p) && Placed(q, LiveSet(f))
    ensures var r := Kill(f, q, p).1;
            && r.asl.active.Keys == q.asl.active.Keys
            && (forall a {:trigger Asl.Queue(r.asl, a)} ::
                  Asl.Queue(r.asl, a) == Minus(Asl.Queue(q.asl, a), Members(Post(f, p))))
    ensures forall a, x: Proc :: a in q.asl.active && x in q.asl.active[a] ==>
              (x in Post(f, p) <==> Ancestor(f, p, x))
  {
    hide TreeInv, Kill, Ancestor;
    KillFreesSubtree(f, q, p);
  }

  /** The process a step terminates, together with everything below it. */
  ghost function Victim(s: KState, op: Op): Option<Proc>
    requires TreeInv(s.f) && RootKnown(s.f)
  {
    match op
    case TerminateProcess(_, pid) => TerminateTarget(s, pid)
    case PassUpOrDie => if s.q.current.Some? && !s.pcb[s.q.current.value].support then s.q.current else None
    case _ => None
  }

  ghost predicate Spares(s: KState, op: Op)
    requires TreeInv(s.f) && RootKnown(s.f)
  {
    Victim(s, op).Some? ==> Spared(s.f, s.q.asl, Victim(s, op).value)
  }

  /** A step leaves an empty queue behind exactly when it terminates everybody who waits
      on some semaphore; every other step, passing an exception up included, leaves none. */
  lemma StepKeepsNonEmpty(s: KState, step: Step)
    requires Inv(s) && Willing(s, step) && Asl.NoEmptyQueue(s.q.asl)
    ensures Asl.NoEmptyQueue(Next(s, step).q.asl) <==> Spares(s, step.op)
  {
    hide SchedInv, TimeInv, TreeInv;
    BaseSplit(s);
    if IsInterrupt(step.op) {
      InterruptKeepsNonEmpty(s, step);
    } else if step.op.TerminateProcess? || step.op.PassUpOrDie? {
      TerminationSpares(s, step);
    } else {
      SyscallKeepsNonEmpty(s, step);
    }
  }

  lemma ScheduleAsl(s: KState, now: int)
    ensures Schedule(s, now).q.asl == s.q.asl
  {
  }

  lemma TerminationSpares(s: KState, step: Step)
    requires Inv(s) && s.mode == Running && Asl.NoEmptyQueue(s.q.asl)
    requires step.op.TerminateProcess? || step.op.PassUpOrDie?
    ensures Asl.NoEmptyQueue(Next(s, step).q.asl) <==> Spares(s, step.op)
  {
    hide SchedInv, TimeInv, TreeInv, Kill, Schedule, Spared, Asl.NoEmptyQueue;
    BaseSplit(s);
    CurrentIsLive(s.f, s.q);
    var s1 := UpdateCPUTime(s, step.c.t1);
    if step.op.TerminateProcess? { TargetIsLive(s, step.op.pid); }
    match Victim(s, step.op)
    case None =>
    case Some(p) =>
      PlacedPart(s);
      KillSpares(s.f, s.q, p);
      var s2 := KillIn(s1, p);
      ScheduleAsl(s2.(q := s2.q.(current := None)), step.c.t2);
  }

  lemma PlacedPart(s: KState)
    requires Base(s)
    ensures Placed(s.q, LiveSet(s.f))
  {
  }

  lemma PasserenAsl(s: KState, st: Regs, a: Addr, c: Tod)
    ensures DoPasseren(s, st, a, c).q.asl == SemWait(s.q, a).asl
  {
    hide BlockCurrent;
  }

  lemma AwaitAsl(s: KState, st: Regs, a: Addr, c: Tod)
    ensures DoAwait(s, st, a, c).q.asl == AwaitDevice(s.q, a).asl
  {
    hide BlockCurrent;
  }

  lemma YieldAsl(s: KState, st: Regs, c: Tod)
    ensures DoYield(s, st, c).q.asl == s.q.asl
  {
  }

  lemma CreateAsl(s: KState, st: Regs, child: Regs, prio: int, support: bool)
    ensures DoCreate(s, st, child, prio, support).q.asl == s.q.asl
  {
    hide Insert;
  }

  lemma VerhogenAsl(s: KState, st: Regs, a: Addr, c: Tod)
    ensures DoVerhogen(s, st, a, c).q.asl == SemSignal(s.q, a).0.asl
  {
    hide Wake;
  }

  lemma SyscallKeepsNonEmpty(s: KState, step: Step)
    requires TreeInv(s.f) && RootKnown(s.f) && Asl.NoEmptyQueue(s.q.asl)
    requires !IsInterrupt(step.op) && !step.op.TerminateProcess? && !step.op.PassUpOrDie?
    ensures Asl.NoEmptyQueue(Next(s, step).q.asl)
  {
    hide Wake, BlockCurrent, Asl.NoEmptyQueue, TreeInv, DoCreate, DoPasseren, DoVerhogen, DoAwait, DoYield;
    match step.op
    case CreateProcess(st, child, prio, support) => CreateAsl(s, st, child, prio, support);
    case Passeren(st, a) =>
      PasserenAsl(s, st, a, step.c);
      BlockKeepsNonEmpty(SetSem(s.q, a, Value(s.q, a) - 1), a);
    case Verhogen(st, a) =>
      VerhogenAsl(s, st, a, step.c);
      WakeKeepsNonEmpty(SetSem(s.q, a, Value(s.q, a) + 1), a, false);
    case DoIO(st, addr) =>
      if Devices.Accepted(addr) {
        var a := DeviceSem(Devices.SemIndex(addr));
        AwaitAsl(s, st, a, step.c);
        BlockKeepsNonEmpty(SetSem(s.q, a, Value(s.q, a) - 1), a);
      }
    case GetCPUTime(st) =>
    case WaitForClock(st) =>
      AwaitAsl(s, st, CLOCK, step.c);
      BlockKeepsNonEmpty(SetSem(s.q, CLOCK, Value(s.q, CLOCK) - 1), CLOCK);
    case Yield(st) => YieldAsl(s, st, step.c);
  }

  lemma InterruptKeepsNonEmpty(s: KState, step: Step)
    requires TreeInv(s.f) && RootKnown(s.f) && Asl.NoEmptyQueue(s.q.asl) && IsInterrupt(step.op)
    ensures Asl.NoEmptyQueue(Next(s, step).q.asl)
  {
    hide Serve, WakeAll, Asl.NoEmptyQueue, TreeInv;
    var c := step.c;
    match step.op
    case QuantumExpiry(st) =>
    case ClockTick =>
      var s1 := InterruptEntry(s, c.t1);
      WakeAllKeepsNonEmpty(s1.q, CLOCK);
      var (q, woken) := Tick(s1.q);
      SetA0AllFrame(s1.(q := q), woken, 0);
    case DeviceInterrupt(line, pending, status) =>
      var dev := Devices.Lowest(pending);
      ServeKeepsNonEmpty(InterruptEntry(s, c.t1), DeviceSem(Devices.HandlerIndex(line, dev, false)), status);
    case TerminalInterrupt(pending, tx, rx) =>
      var s1, dev := InterruptEntry(s, c.t1), Devices.Lowest(pending);
      var a, b := DeviceSem(Devices.HandlerIndex(7, dev, true)), DeviceSem(Devices.HandlerIndex(7, dev, false));
      ServeKeepsNonEmpty(s1, a, tx);
      ServeKeepsNonEmpty(if tx % 256 != 0 then Serve(s1, a, tx) else s1, b, rx);
  }

  lemma PlacedQueues(q: Sched, live: set<Proc>)
    requires Placed(q, live)
    ensures Asl.QueuesDisjoint(q.asl)
    ensures q.current.Some? ==> forall b :: b in q.asl.active ==> q.current.value !in q.asl.active[b]
  {
    forall a, b, p: Proc | a in q.asl.active && b in q.asl.active && p in q.asl.active[a] && p in q.asl.active[b]
      ensures a == b
    {
      assert q.semAdd[p] == a && q.semAdd[p] == b;
    }
  }

  /** While no active queue is empty the running process can block on any semaphore. */
  lemma RunningCanBlock(s: KState, a: Addr)
    requires Inv(s) && s.mode == Running && Asl.NoEmptyQueue(s.q.asl)
    ensures Asl.Available(s.q.asl, a)
  {
    PlacedQueues(s.q, LiveSet(s.f));
    Asl.DescriptorsSuffice(s.q.asl, s.q.current.value, a);
  }

  lemma DescriptorThere(s: KState, step: Step)
    requires Inv(s) && Willing(s, step) && Asl.NoEmptyQueue(s.q.asl)
    ensures Enabled(s, step)
  {
    hide Inv;
    if s.mode == Running {
      forall a ensures Asl.Available(s.q.asl, a) { RunningCanBlock(s, a); }
    }
  }

  /** A run in which no step terminates everybody who waits on some semaphore; nothing is
      assumed about descriptors. */
  ghost predicate Sparing(s: KState, steps: seq<Step>)
    requires Inv(s) && Asl.NoEmptyQueue(s.q.asl)
    decreases |steps|
  {
    steps == [] ||
    (Willing(s, steps[0]) && Spares(s, steps[0].op)
     && (DescriptorThere(s, steps[0]); StepKeeps(s, steps[0]); StepKeepsNonEmpty(s, steps[0]);
         Sparing(Next(s, steps[0]), steps[1..])))
  }

  /** In such a run `insertBlocked` never fails: it is legal as it is. */
  lemma {:induction false} SparingIsLegal(s: KState, steps: seq<Step>)
    requires Inv(s) && Asl.NoEmptyQueue(s.q.asl) && Sparing(s, steps)
    ensures Legal(s, steps)
    ensures Asl.NoEmptyQueue(Exec(s, steps).q.asl)
    decreases |steps|
  {
    hide Willing, Enabled, Next, Spares, Asl.NoEmptyQueue, TreeInv, SchedInv, TimeInv, ModeInv;
    if steps != [] {
      DescriptorThere(s, steps[0]);
      StepKeeps(s, steps[0]);
      StepKeepsNonEmpty(s, steps[0]);
      SparingIsLegal(Next(s, steps[0]), steps[1..]);
    }
  }

  /** No state on the way has an empty queue. */
  ghost predicate NeverEmpty(s: KState, steps: seq<Step>)
    requires Inv(s) && Legal(s, steps)
    decreases |steps|
  {
    && Asl.NoEmptyQueue(s.q.asl)
    && (steps != [] ==> (StepKeeps(s, steps[0]); NeverEmpty(Next(s, steps[0]), steps[1..])))
  }

  /** The legal runs without empty queues are exactly the sparing ones. */
  lemma {:induction false} SparingIsExact(s: KState, steps: seq<Step>)
    requires Inv(s) && Legal(s, steps)
    ensures NeverEmpty(s, steps) <==> Asl.NoEmptyQueue(s.q.asl) && Sparing(s, steps)
    decreases |steps|
  {
    hide Willing, HasDescriptor, Next, Spares, Asl.NoEmptyQueue, TreeInv, SchedInv, TimeInv, ModeInv;
    if steps != [] {
      StepKeeps(s, steps[0]);
      SparingIsExact(Next(s, steps[0]), steps[1..]);
      if Asl.NoEmptyQueue(s.q.asl) {
        StepKeepsNonEmpty(s, steps[0]);
      }
    }
  }

  // ------------------------------------------------------------ semaphore values

  /** After every run each ordinary semaphore has max(0, -value) waiters, and each device
      semaphore is at most 0 and owes at least one wake-up to every waiter. */
  lemma SemaphoreLaw(mem: map<Addr, int>, now: int, steps: seq<Step>, a: Addr)
    requires NoNegativeSemaphore(mem)
    requires Inv(Boot(mem, now)) ==> Legal(Boot(mem, now), steps)
    ensures Inv(Boot(mem, now))
    ensures var q := Exec(Boot(mem, now), steps).q;
            var v, n := Value(q, a), |Asl.Queue(q.asl, a)|;
            if IsSoft(a) then v <= 0 && n <= -v
            else n == if v < 0 then -v else 0
  {
    hide Legal, Exec, TreeInv, TimeInv, Placed, Counted, Ordered, Logged;
    EveryRunKeeps(mem, now, steps);
    assert Lawful(Exec(Boot(mem, now), steps).q, a);
  }

  /** V on an ordinary semaphore: the first waiter becomes ready, behind the ready processes
      of its own priority, exactly when somebody waits; nobody else moves. */
  lemma SignalWakesFirst(s: KState, a: Addr)
    requires Inv(s) && !IsSoft(a)
    ensures var w, r := Asl.Queue(s.q.asl, a), SemSignal(s.q, a).0;
            && (w == [] <==> Value(s.q, a) + 1 > 0)
            && r.ready == (if w == [] then s.q.ready else Insert(s.q.ready, s.q.prio, w[0]))
            && (forall b :: Asl.Queue(r.asl, b) == if b == a && w != [] then w[1..] else Asl.Queue(s.q.asl, b))
            && r.softBlockCount == s.q.softBlockCount
  {
    assert Lawful(s.q, a) by { hide Placed, Counted, Ordered, Logged, TreeInv, TimeInv; }
    hide Inv, Wake, Insert;
    WakeMoves(SetSem(s.q, a, Value(s.q, a) + 1), a, false);
  }

  /** An interrupt served for a device with waiters wakes exactly its first waiter. */
  lemma DeviceWakesFirst(s: KState, a: Addr, status: int)
    requires Base(s) && IsSoft(a)
    ensures var w, r := Asl.Queue(s.q.asl, a), Serve(s, a, status);
            && r.q.ready == (if w == [] then s.q.ready else Insert(s.q.ready, s.q.prio, w[0]))
            && (forall b :: Asl.Queue(r.q.asl, b) == if b == a && w != [] then w[1..] else Asl.Queue(s.q.asl, b))
            && r.q.softBlockCount == s.q.softBlockCount - (if w == [] then 0 else 1)
            && r.pcb == if w == [] then s.pcb else s.pcb[w[0] := s.pcb[w[0]].(saved := s.pcb[w[0]].saved.(a0 := status))]
  {
    hide Placed, Counted, Ordered, Logged, TreeInv, TimeInv, Wake, Insert;
    var w := Asl.Queue(s.q.asl, a);
    assert Lawful(s.q, a);
    var q1 := SetSem(s.q, a, Value(s.q, a) + 1);
    WakeMoves(q1, a, true);
    WakeMoves(s.q, a, true);
  }

  /** `removeBlocked` and the move to the ready queue, as a whole. */
  lemma WakeMoves(q: Sched, a: Addr, soft: bool)
    ensures var (r, woken) := Wake(q, a, soft); var w := Asl.Queue(q.asl, a);
            && woken == (if w == [] then None else Some(w[0]))
            && r.ready == (if w == [] then q.ready else Insert(q.ready, q.prio, w[0]))
            && (forall b :: Asl.Queue(r.asl, b) == if b == a && w != [] then w[1..] else Asl.Queue(q.asl, b))
            && r.softBlockCount == q.softBlockCount - (if soft && w != [] then 1 else 0)
            && r.prio == q.prio && r.sem == q.sem && r.current == q.current
  {
    hide Insert;
  }

  // ----------------------------------------------------------------- clock tick

  lemma {:induction false} WakeAllMerges(q: Sched, a: Addr)
    ensures var (r, ps) := WakeAll(q, a);
            && ps == Asl.Queue(q.asl, a)
            && r.ready == InsertAll(q.ready, q.prio, ps)
            && r.softBlockCount == q.softBlockCount - |ps|
            && r.prio == q.prio && r.sem == q.sem && r.current == q.current
            && (forall b :: Asl.Queue(r.asl, b) == if b == a then [] else Asl.Queue(q.asl, b))
    decreases |Asl.Queue(q.asl, a)|
  {
    hide InsertAll, Insert, Wake;
    var w := Asl.Queue(q.asl, a);
    WakeMoves(q, a, true);
    InsertAllStep(q.ready, q.prio, w);
    if w != [] {
      WakeAllMerges(Wake(q, a, true).0, a);
    }
  }

  lemma InsertAllStep(q: seq<Proc>, prio: Prios, ps: seq<Proc>)
    ensures InsertAll(q, prio, ps)
         == if ps == [] then q else InsertAll(Insert(q, prio, ps[0]), prio, ps[1..])
  {
  }

  /** The pseudo-clock tick wakes everybody who waits for it and nobody else: in each
      priority band the woken follow the ready ones, both in their old order. The clock
      semaphore is 0 afterwards and softBlockCount has dropped by the number of the woken. */
  lemma TickIsStableMerge(s: KState)
    requires Inv(s)
    ensures var w, r := Asl.Queue(s.q.asl, CLOCK), Tick(s.q).0;
            && Tick(s.q).1 == w
            && Sorted(r.ready, s.q.prio)
            && (forall k :: Level(r.ready, s.q.prio, k) == Level(s.q.ready, s.q.prio, k) + Level(w, s.q.prio, k))
            && r.softBlockCount == s.q.softBlockCount - |w|
            && Value(r, CLOCK) == 0
            && (forall b :: b != CLOCK ==> Value(r, b) == Value(s.q, b))
            && (forall b :: Asl.Queue(r.asl, b) == if b == CLOCK then [] else Asl.Queue(s.q.asl, b))
  {
    hide Placed, Counted, AllLawful, Logged, TreeInv, TimeInv, WakeAll, InsertAll, Level, Sorted;
    var w := Asl.Queue(s.q.asl, CLOCK);
    WakeAllMerges(s.q, CLOCK);
    InsertAllIsStableMerge(s.q.ready, s.q.prio, w);
  }
}
