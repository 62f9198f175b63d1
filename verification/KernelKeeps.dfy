/** Every step of the kernel keeps its invariant. */
module KernelKeeps {
  import opened Processes
  import opened ProcTree
  import opened Scheduling
  import opened SchedulingKeeps
  import opened Termination
  import opened Kernel
  import Devices
  import Asl = SemList

  /** The part of the invariant that has nothing to do with time. */
  ghost predicate Core(f: Forest, q: Sched) {
    TreeInv(f) && RootKnown(f) && SchedInv(q, LiveSet(f))
  }

  lemma BaseSplit(s: KState)
    ensures Base(s) <==> Core(s.f, s.q) && TimeInv(s)
  {
  }

  // ---------------------------------------------------------------------- time

  lemma TimeSame(s: KState, r: KState)
    requires TimeInv(s)
    requires r.boot == s.boot && r.ledger == s.ledger && s.start <= r.start && s.f.next <= r.f.next
    requires forall p: Proc :: Live(r.f, p) ==>
               Live(s.f, p) && r.f.t[p].pid == s.f.t[p].pid && r.pcb[p].time == s.pcb[p].time
    ensures TimeInv(r)
  {
  }

  lemma UpdateKeepsTime(s: KState, now: int)
    requires TimeInv(s) && PidsDistinct(s.f) && s.start <= now
    requires s.q.current.Some? ==> Live(s.f, s.q.current.value)
    ensures TimeInv(UpdateCPUTime(s, now))
  {
    if s.q.current.Some? {
      var r, p := UpdateCPUTime(s, now), s.q.current.value;
      assert r.ledger[..|r.ledger| - 1] == s.ledger;
      forall x: Proc | Live(r.f, x) ensures r.pcb[x].time == TimeOf(r.ledger, r.f.t[x].pid) {
        assert Live(s.f, x);
      }
    }
  }

  lemma CurrentIsLive(f: Forest, q: Sched)
    requires Core(f, q) && q.current.Some?
    ensures Live(f, q.current.value) && Live(f, f.root)
    ensures q.current.value !in q.free
  {
    RootIsAncestor(f, q.current.value);
  }

  lemma UpdateKeeps(s: KState, now: int)
    requires Base(s) && s.start <= now
    ensures var r := UpdateCPUTime(s, now);
            Base(r) && r.f == s.f && r.q == s.q && r.mode == s.mode && s.start <= r.start <= now
  {
    BaseSplit(s);
    if s.q.current.Some? { CurrentIsLive(s.f, s.q); }
    UpdateKeepsTime(s, now);
    BaseSplit(UpdateCPUTime(s, now));
  }

  lemma EntryKeeps(s: KState, now: int)
    requires Base(s) && s.start <= now
    ensures var r := InterruptEntry(s, now);
            Base(r) && r.f == s.f && r.q == s.q && r.mode == s.mode && r.start == now
  {
    UpdateKeeps(s, now);
    TimeSame(UpdateCPUTime(s, now), InterruptEntry(s, now));
    BaseSplit(InterruptEntry(s, now));
  }

  lemma SaveKeeps(s: KState, st: Regs)
    requires Base(s)
    ensures var r := Save(s, st); Base(r) && r == s.(pcb := r.pcb)
  {
    BaseSplit(s);
    TimeSame(s, Save(s, st));
    BaseSplit(Save(s, st));
  }

  lemma SetA0Keeps(s: KState, p: Option<Proc>, v: int)
    requires Base(s)
    ensures var r := SetA0(s, p, v); Base(r) && r == s.(pcb := r.pcb)
  {
    BaseSplit(s);
    TimeSame(s, SetA0(s, p, v));
    BaseSplit(SetA0(s, p, v));
  }

  lemma {:induction false} SetA0AllKeeps(s: KState, ps: seq<Proc>, v: int)
    requires Base(s)
    ensures var r := SetA0All(s, ps, v); Base(r) && r == s.(pcb := r.pcb)
    decreases |ps|
  {
    if ps != [] {
      SetA0Keeps(s, Some(ps[0]), v);
      SetA0AllKeeps(SetA0(s, Some(ps[0]), v), ps[1..], v);
    }
  }

  /** A change of the queues alone. */
  lemma QueuesKeep(s: KState, q: Sched)
    requires Base(s) && SchedInv(q, LiveSet(s.f))
    ensures Base(s.(q := q))
  {
    BaseSplit(s);
    TimeSame(s, s.(q := q));
    BaseSplit(s.(q := q));
  }

  // -------------------------------------------------------------------- scheduler

  lemma NoLiveReady(q: Sched, live: set<Proc>)
    requires SchedInv(q, live)
    ensures q.processCount >= 0 && q.softBlockCount >= 0
  {
  }

  lemma ScheduleTree(s: KState, now: int)
    ensures Schedule(s, now).f == s.f
  {
  }

  lemma ScheduleKeeps(s: KState, now: int)
    requires Base(s) && s.q.current.None? && s.start <= now
    ensures Inv(Schedule(s, now))
  {
    BaseSplit(s);
    var r := Schedule(s, now);
    NoLiveReady(s.q, LiveSet(s.f));
    if s.q.ready != [] {
      DispatchKeeps(s.q, LiveSet(s.f));
    }
    TimeSame(s, r);
    BaseSplit(r);
  }

  lemma ResumeKeeps(s: KState, now: int)
    requires Base(s) && s.start <= now && (s.q.current.Some? ==> s.mode == Running)
    ensures Inv(Resume(s, now))
  {
    if s.q.current.None? {
      ScheduleKeeps(s, now);
    }
  }

  // ------------------------------------------------------------------ termination

  lemma KillRoot(f: Forest, q: Sched, p: Proc)
    requires Core(f, q) && Live(f, p)
    ensures RootKnown(Kill(f, q, p).0)
    ensures forall x: Proc :: var g := Kill(f, q, p).0;
              Live(g, x) ==> Live(f, x) && g.t[x].pid == f.t[x].pid
  {
    hide SchedInv, Kill, UnqueueAll, PidsDistinct, OneRoot, ParentsKnown, ChildrenKnown;
    KillTheorem(f, q, p);
  }

  lemma KillInKeeps(s: KState, p: Proc)
    requires Base(s) && Live(s.f, p)
    ensures Base(KillIn(s, p))
    ensures KillIn(s, p).q.current.Some? ==> KillIn(s, p).q.current == s.q.current
    ensures KillIn(s, p).q.current != Some(p)
  {
    BaseSplit(s);
    KillKeeps(s.f, s.q, p);
    KillRoot(s.f, s.q, p);
    TimeSame(s, KillIn(s, p));
    BaseSplit(KillIn(s, p));
    KillCurrent(s.f, s.q, p);
  }

  lemma KillCurrent(f: Forest, q: Sched, p: Proc)
    requires Core(f, q) && Live(f, p)
    ensures var r := Kill(f, q, p).1;
            r.current == if q.current.Some? && q.current.value in Post(f, p) then None else q.current
    ensures p in Post(f, p)
  {
    KillFreesSubtree(f, q, p);
    PostMembers(f, p, p);
  }

  // ------------------------------------------------------------------------ steps

  lemma CreateKeeps(s: KState, st: Regs, child: Regs, prio: int, support: bool)
    requires Inv(s) && s.mode == Running
    ensures Inv(DoCreate(s, st, child, prio, support))
  {
    hide Base, Core, Admit, InsertChild, Spawn;
    assert Base(s) && ModeInv(s);
    BaseSplit(s);
    var c := s.q.current.value;
    CurrentIsLive(s.f, s.q);
    if s.q.free == [] {
      SaveKeeps(s, st.(a0 := -1));
    } else {
      var p := s.q.free[0];
      FreeIsDead(s.f, s.q);
      var s1 := s.(f := InsertChild(Spawn(s.f, p), c, p), q := Admit(s.q, prio),
                   pcb := s.pcb[p := PcbData(0, support, child)]);
      CreateCore(s.f, s.q, c, p, prio);
      CreateTime(s, s1, c, p);
      BaseSplit(s1);
      SaveKeeps(s1, st.(a0 := s.f.next));
    }
  }

  lemma CreateCore(f: Forest, q: Sched, c: Proc, p: Proc, prio: int)
    requires Core(f, q) && q.current == Some(c) && q.free != [] && p == q.free[0]
    ensures Core(InsertChild(Spawn(f, p), c, p), Admit(q, prio))
    ensures Admit(q, prio).current == q.current
  {
    hide SchedInv, PidsDistinct, OneRoot, ParentsKnown, ChildrenKnown;
    CurrentIsLive(f, q);
    FreeIsDead(f, q);
    SpawnKeepsTree(f, c, p);
    AdmitKeeps(q, LiveSet(f), prio);
  }

  lemma FreeIsDead(f: Forest, q: Sched)
    requires Core(f, q) && q.free != []
    ensures !Live(f, q.free[0])
  {
    assert q.free[0] in q.free;
  }

  lemma {:induction false} NoTimeYet(ledger: seq<Charge>, pid: int)
    requires forall i :: 0 <= i < |ledger| ==> ledger[i].pid < pid
    ensures TimeOf(ledger, pid) == 0
  {
    if ledger != [] {
      NoTimeYet(ledger[..|ledger| - 1], pid);
    }
  }

  lemma CreateTime(s: KState, s1: KState, c: Proc, p: Proc)
    requires TimeInv(s) && p != c && !Live(s.f, p)
    requires s1.f == InsertChild(Spawn(s.f, p), c, p) && s1.pcb == s.pcb[p := s1.pcb[p]] && s1.pcb[p].time == 0
    requires s1.boot == s.boot && s1.ledger == s.ledger && s1.start == s.start
    ensures TimeInv(s1)
  {
    NoTimeYet(s.ledger, s.f.next);
    forall x: Proc | Live(s1.f, x) ensures s1.pcb[x].time == TimeOf(s1.ledger, s1.f.t[x].pid) {
      if x != p { assert Live(s.f, x) && s1.f.t[x].pid == s.f.t[x].pid; }
    }
  }

  lemma TargetIsLive(s: KState, pid: int)
    requires Base(s)
    ensures TerminateTarget(s, pid).Some? ==> Live(s.f, TerminateTarget(s, pid).value)
  {
    BaseSplit(s);
    if pid == 0 {
      if s.q.current.Some? { CurrentIsLive(s.f, s.q); }
    } else if TerminateTarget(s, pid).Some? {
      FindIsComplete(s.f, pid, TerminateTarget(s, pid).value);
    }
  }

  lemma TerminateFoundKeeps(s: KState, st: Regs, p: Proc, now: int)
    requires Inv(s) && s.mode == Running && Live(s.f, p) && s.start <= now
    ensures Inv(TerminateFound(s, st, p, now))
  {
    hide Base;
    assert Base(s) && ModeInv(s);
    KillInKeeps(s, p);
    var s1 := KillIn(s, p);
    if s.q.current == Some(p) || s1.q.current.None? {
      assert s1.q.current == None;
      assert s1.(q := s1.q.(current := None)) == s1;
      ScheduleKeeps(s1, now);
    } else {
      SaveKeeps(s1, st);
    }
  }

  lemma TerminateKeeps(s: KState, st: Regs, pid: int, c: Tod)
    requires Inv(s) && s.mode == Running && s.start <= c.t1 <= c.t2
    ensures Inv(DoTerminate(s, st, pid, c))
  {
    UpdateKeeps(s, c.t1);
    TargetIsLive(s, pid);
    if TerminateTarget(s, pid).Some? {
      TerminateFoundKeeps(UpdateCPUTime(s, c.t1), st, TerminateTarget(s, pid).value, c.t2);
    }
  }

  lemma TrapKeeps(s: KState, c: Tod)
    requires Inv(s) && s.mode == Running && s.start <= c.t1 <= c.t2
    ensures Inv(DoTrap(s, c))
  {
    hide Base;
    assert Base(s) && ModeInv(s);
    var p := s.q.current.value;
    if !s.pcb[p].support {
      BaseSplit(s);
      CurrentIsLive(s.f, s.q);
      UpdateKeeps(s, c.t1);
      var s1 := UpdateCPUTime(s, c.t1);
      KillInKeeps(s1, p);
      var s2 := KillIn(s1, p);
      assert s2.q.current == None;
      assert s2.(q := s2.q.(current := None)) == s2;
      ScheduleKeeps(s2, c.t2);
    }
  }

  /** Both clock readings before a block. */
  lemma ChargedKeeps(s: KState, q: Sched, now: int)
    requires Base(s) && s.start <= now && SchedInv(q, LiveSet(s.f))
    ensures Base(Charged(s, q, now)) && Charged(s, q, now).q == q && Charged(s, q, now).start <= now
  {
    UpdateKeeps(s, now);
    QueuesKeep(UpdateCPUTime(s, now), q);
  }

  lemma PrefixKeeps(s: KState, st: Regs, now: int)
    requires Inv(s) && s.start <= now
    ensures var r := Save(UpdateCPUTime(s, now), st);
            Base(r) && r.f == s.f && r.q == s.q && r.mode == s.mode && s.start <= r.start <= now
  {
    UpdateKeeps(s, now);
    SaveKeeps(UpdateCPUTime(s, now), st);
  }

  lemma BlockedNobodyRuns(q: Sched, a: Addr)
    ensures BlockCurrent(q, a).current == None
  {
  }

  lemma PasserenStepKeeps(s: KState, st: Regs, a: Addr, c: Tod)
    requires Inv(s) && s.mode == Running && s.start <= c.t1 <= c.t2 <= c.t3
    requires a != NULL && !IsSoft(a) && (Value(s.q, a) <= 0 ==> Asl.Available(s.q.asl, a))
    ensures Inv(DoPasseren(s, st, a, c))
  {
    hide Base, Core, BlockCurrent, SchedInv;
    assert Base(s) && ModeInv(s);
    BaseSplit(s);
    PrefixKeeps(s, st, c.t1);
    var s1 := Save(UpdateCPUTime(s, c.t1), st);
    CoreSched(s.f, s.q);
    PasserenKeeps(s.q, LiveSet(s.f), a);
    if Value(s.q, a) - 1 < 0 {
      ChargedKeeps(s1, SemWait(s1.q, a), c.t2);
      BlockedNobodyRuns(SetSem(s.q, a, Value(s.q, a) - 1), a);
      ScheduleKeeps(Charged(s1, SemWait(s1.q, a), c.t2), c.t3);
    } else {
      QueuesKeep(s1, SemWait(s1.q, a));
    }
  }

  lemma CoreSched(f: Forest, q: Sched)
    requires Core(f, q)
    ensures SchedInv(q, LiveSet(f))
  {
  }

  lemma VerhogenStepKeeps(s: KState, st: Regs, a: Addr, c: Tod)
    requires Inv(s) && s.mode == Running && s.start <= c.t1 && !IsSoft(a)
    ensures Inv(DoVerhogen(s, st, a, c))
  {
    hide Base, Core, SchedInv, Asl.RemoveBlocked;
    assert Base(s) && ModeInv(s);
    BaseSplit(s);
    PrefixKeeps(s, st, c.t1);
    CoreSched(s.f, s.q);
    VerhogenKeeps(s.q, LiveSet(s.f), a);
    QueuesKeep(Save(UpdateCPUTime(s, c.t1), st), SemSignal(s.q, a).0);
  }

  lemma AwaitKeeps(s: KState, st: Regs, a: Addr, c: Tod)
    requires Inv(s) && s.mode == Running && s.start <= c.t1 <= c.t2 <= c.t3
    requires IsSoft(a) && Asl.Available(s.q.asl, a)
    ensures Inv(DoAwait(s, st, a, c))
  {
    hide Base, Core, BlockCurrent, SchedInv;
    assert Base(s) && ModeInv(s);
    BaseSplit(s);
    PrefixKeeps(s, st, c.t1);
    var s1 := Save(UpdateCPUTime(s, c.t1), st);
    CoreSched(s.f, s.q);
    AwaitDeviceKeeps(s.q, LiveSet(s.f), a);
    ChargedKeeps(s1, AwaitDevice(s1.q, a), c.t2);
    BlockedNobodyRuns(SetSem(s.q, a, Value(s.q, a) - 1), a);
    ScheduleKeeps(Charged(s1, AwaitDevice(s1.q, a), c.t2), c.t3);
  }

  lemma RequeueStepKeeps(s: KState, now: int)
    requires Base(s) && s.start <= now
    ensures Inv(Schedule(s.(q := Requeue(s.q)), now))
  {
    hide Base, Core, SchedInv;
    BaseSplit(s);
    CoreSched(s.f, s.q);
    RequeueKeeps(s.q, LiveSet(s.f));
    QueuesKeep(s, Requeue(s.q));
    ScheduleKeeps(s.(q := Requeue(s.q)), now);
  }

  lemma TickStepKeeps(s: KState, c: Tod)
    requires Inv(s) && s.start <= c.t1 <= c.t2
    ensures Inv(DoTick(s, c))
  {
    hide Base, Core, SchedInv;
    assert Base(s) && ModeInv(s);
    EntryKeeps(s, c.t1);
    var s1 := InterruptEntry(s, c.t1);
    BaseSplit(s1);
    CoreSched(s1.f, s1.q);
    TickKeeps(s1.q, LiveSet(s1.f));
    var (q, woken) := Tick(s1.q);
    QueuesKeep(s1, q);
    SetA0AllKeeps(s1.(q := q), woken, 0);
    TickCurrent(s1.q);
    ResumeKeeps(SetA0All(s1.(q := q), woken, 0), c.t2);
  }

  lemma {:induction false} WakeAllCurrent(q: Sched, a: Addr)
    ensures WakeAll(q, a).0.current == q.current
    decreases |Asl.Queue(q.asl, a)|
  {
    if Wake(q, a, true).1.Some? {
      WakeAllCurrent(Wake(q, a, true).0, a);
    }
  }

  lemma TickCurrent(q: Sched)
    ensures Tick(q).0.current == q.current
  {
    WakeAllCurrent(q, CLOCK);
  }

  lemma ServeKeeps(s: KState, a: Addr, status: int)
    requires Base(s) && IsSoft(a)
    ensures var r := Serve(s, a, status); Base(r) && r == s.(q := r.q, pcb := r.pcb) && r.q.current == s.q.current
  {
    hide Base, Core, SchedInv;
    BaseSplit(s);
    CoreSched(s.f, s.q);
    DeviceDoneKeeps(s.q, LiveSet(s.f), a);
    var (q, woken) := DeviceDone(s.q, a);
    QueuesKeep(s, q);
    SetA0Keeps(s.(q := q), woken, status);
  }

  lemma DeviceStepKeeps(s: KState, line: int, pending: seq<bool>, status: int, c: Tod)
    requires Inv(s) && s.start <= c.t1 <= c.t2 && 3 <= line <= 6 && |pending| == 8
    ensures Inv(DoDevice(s, line, pending, status, c))
  {
    hide Base, Serve;
    assert Base(s) && ModeInv(s);
    EntryKeeps(s, c.t1);
    var s1 := InterruptEntry(s, c.t1);
    var dev := Devices.Lowest(pending);
    if dev < 0 {
      ResumeKeeps(s1, c.t2);
    } else {
      var a := DeviceSem(Devices.HandlerIndex(line, dev, false));
      ServeKeeps(s1, a, status);
      ResumeKeeps(Serve(s1, a, status), c.t2);
    }
  }

  lemma TerminalStepKeeps(s: KState, pending: seq<bool>, tx: nat, rx: nat, c: Tod)
    requires Inv(s) && s.start <= c.t1 <= c.t2 && |pending| == 8
    ensures Inv(DoTerminal(s, pending, tx, rx, c))
  {
    hide Base, Serve;
    assert Base(s) && ModeInv(s);
    EntryKeeps(s, c.t1);
    var s1 := InterruptEntry(s, c.t1);
    var dev := Devices.Lowest(pending);
    if dev < 0 {
      ResumeKeeps(s1, c.t2);
    } else {
      var a, b := DeviceSem(Devices.HandlerIndex(7, dev, true)), DeviceSem(Devices.HandlerIndex(7, dev, false));
      ServeKeeps(s1, a, tx);
      var s2 := if tx % 256 != 0 then Serve(s1, a, tx) else s1;
      ServeKeeps(s2, b, rx);
      ResumeKeeps(if rx % 256 != 0 then Serve(s2, b, rx) else s2, c.t2);
    }
  }

  /** One step of the kernel. */
  lemma StepKeeps(s: KState, step: Step)
    requires Inv(s) && Enabled(s, step)
    ensures Inv(Next(s, step))
  {
    hide Base, TimeInv, SchedInv;
    assert Base(s);
    hide DoCreate, DoTerminate, DoPasseren, DoVerhogen, DoAwait, DoYield, DoTrap, DoQuantum, DoTick, DoDevice, DoTerminal;
    var c := step.c;
    match step.op
    case CreateProcess(st, child, prio, support) => CreateKeeps(s, st, child, prio, support);
    case TerminateProcess(st, pid) => TerminateKeeps(s, st, pid, c);
    case Passeren(st, a) => PasserenStepKeeps(s, st, a, c);
    case Verhogen(st, a) => VerhogenStepKeeps(s, st, a, c);
    case DoIO(st, addr) =>
      if Devices.Accepted(addr) { AwaitKeeps(s, st, DeviceSem(Devices.SemIndex(addr)), c); }
    case GetCPUTime(st) => UpdateKeeps(s, c.t1);
    case WaitForClock(st) => AwaitKeeps(s, st, CLOCK, c);
    case Yield(st) => YieldKeeps(s, st, c);
    case PassUpOrDie => TrapKeeps(s, c);
    case QuantumExpiry(st) => QuantumKeeps(s, st, c);
    case ClockTick => TickStepKeeps(s, c);
    case DeviceInterrupt(line, pending, status) => DeviceStepKeeps(s, line, pending, status, c);
    case TerminalInterrupt(pending, tx, rx) => TerminalStepKeeps(s, pending, tx, rx, c);
  }

  lemma YieldKeeps(s: KState, st: Regs, c: Tod)
    requires Inv(s) && s.start <= c.t1 <= c.t2
    ensures Inv(DoYield(s, st, c))
  {
    hide Base;
    PrefixKeeps(s, st, c.t1);
    RequeueStepKeeps(Save(UpdateCPUTime(s, c.t1), st), c.t2);
  }

  lemma QuantumKeeps(s: KState, st: Regs, c: Tod)
    requires Inv(s) && s.start <= c.t1 <= c.t2
    ensures Inv(DoQuantum(s, st, c))
  {
    hide Base;
    assert Base(s);
    EntryKeeps(s, c.t1);
    SaveKeeps(InterruptEntry(s, c.t1), st);
    RequeueStepKeeps(Save(InterruptEntry(s, c.t1), st), c.t2);
  }
}
