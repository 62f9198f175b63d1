/**
 The kernel routines as they are written, over the linked lists of module KernelLists:
 variables updated in place, loops and recursion. Each method is proved to do what the
 corresponding step of module Kernel says.
 */
module Nucleus {
  import opened Processes
  import opened ProcTree
  import opened Scheduling
  import opened Kernel
  import opened KernelKeeps
  import opened KernelLists
  import Termination
  import PcbLists
  import KernelTheorems
  import Devices
  import Asl = SemList

  function WithData(s: KState, p: Proc, d: PcbData): KState {
    s.(pcb := s.pcb[p := d])
  }

  lemma ScheduleCases(s: KState, now: int)
    ensures Schedule(s, now) ==
            if s.q.ready != [] then s.(q := Dispatch(s.q), start := now, mode := Running)
            else if s.q.processCount == 0 then s.(mode := Halted)
            else if s.q.processCount > 0 && s.q.softBlockCount > 0 then s.(mode := Waiting)
            else if s.q.processCount > 0 && s.q.softBlockCount == 0 then s.(mode := Panicked)
            else s
  {
  }

  lemma UpdateCases(s: KState, now: int)
    ensures UpdateCPUTime(s, now) ==
            if s.q.current == None then s
            else
              var p := s.q.current.value;
              WithData(s, p, s.pcb[p].(time := s.pcb[p].time + (now - s.start))).(
                start := now, ledger := s.ledger + [Charge(s.f.t[p].pid, s.start, now)])
  {
  }

  lemma SaveCases(s: KState, st: Regs)
    ensures Save(s, st) ==
            if s.q.current == None then s
            else WithData(s, s.q.current.value, s.pcb[s.q.current.value].(saved := st))
  {
  }

  lemma WithDataIs(s: KState, p: Proc, d: PcbData)
    ensures WithData(s, p, d) == s.(pcb := s.pcb[p := d])
  {
  }

  lemma BlockCases(s: KState, a: Addr, now: int)
    ensures Charged(s, BlockCurrent(s.q, a), now) == UpdateCPUTime(s, now).(q := BlockCurrent(s.q, a))
    ensures UpdateCPUTime(s, now).q == s.q
  {
  }

  lemma CreateCases(s: KState, st: Regs, child: Regs, prio: int, support: bool)
    requires s.q.current.Some?
    ensures DoCreate(s, st, child, prio, support) ==
            if s.q.free == [] then Save(s, st.(a0 := -1))
            else
              var p := s.q.free[0];
              Save(WithData(s.(f := InsertChild(Spawn(s.f, p), s.q.current.value, p), q := Admit(s.q, prio)), p,
                            PcbData(0, support, child)), st.(a0 := s.f.next))
    ensures s.q.free != [] ==> InsertChild(Spawn(s.f, s.q.free[0]), s.q.current.value, s.q.free[0]).t[s.q.free[0]].pid == s.f.next
  {
  }

  lemma TerminateCases(s: KState, st: Regs, pid: int, c: Tod)
    requires TreeInv(s.f) && RootKnown(s.f)
    ensures UpdateCPUTime(s, c.t1).f == s.f && UpdateCPUTime(s, c.t1).q == s.q
    ensures pid == 0 ==> TerminateTarget(s, pid) == s.q.current
    ensures pid != 0 ==> TerminateTarget(s, pid) == FoundBelow(s.f, s.f.root, pid)
    ensures DoTerminate(s, st, pid, c) ==
            match TerminateTarget(s, pid)
            case None => UpdateCPUTime(s, c.t1)
            case Some(p) => TerminateFound(UpdateCPUTime(s, c.t1), st, p, c.t2)
  {
  }

  lemma FoundCases(s: KState, st: Regs, p: Proc, now: int)
    ensures var (f, q) := Termination.Kill(s.f, s.q, p); var s1 := s.(f := f, q := q);
            && KillIn(s, p) == s1
            && TerminateFound(s, st, p, now) ==
               if s.q.current == Some(p) || q.current.None?
               then Schedule(s1.(q := q.(current := None)), now)
               else Save(s1, st)
  {
  }

  /** What `doIO` does besides the kernel state: it hands back -1, or writes the command. */
  datatype IoOutcome = Refused(st: Regs) | Commanded(addr: int, value: int)

  lemma PasserenCases(s: KState, st: Regs, a: Addr, c: Tod)
    ensures var s1 := Save(UpdateCPUTime(s, c.t1), st); var s2 := s1.(q := SetSem(s1.q, a, Value(s1.q, a) - 1));
            DoPasseren(s, st, a, c) ==
            if Value(s1.q, a) - 1 < 0 then Schedule(Charged(s2, BlockCurrent(s2.q, a), c.t2), c.t3) else s2
  {
    AccountingOnly(s, st, c.t1);
    var s1 := Save(UpdateCPUTime(s, c.t1), st);
    var s2 := s1.(q := SetSem(s1.q, a, Value(s1.q, a) - 1));
    if Value(s1.q, a) - 1 < 0 { ChargedAgain(s1, s2, BlockCurrent(s2.q, a), c.t2); }
  }

  lemma AwaitCases(s: KState, st: Regs, a: Addr, c: Tod)
    ensures var s1 := Save(UpdateCPUTime(s, c.t1), st); var s2 := s1.(q := SetSem(s1.q, a, Value(s1.q, a) - 1));
            DoAwait(s, st, a, c) == Schedule(Charged(s2, BlockCurrent(s2.q, a), c.t2), c.t3)
  {
    var s1 := Save(UpdateCPUTime(s, c.t1), st);
    var s2 := s1.(q := SetSem(s1.q, a, Value(s1.q, a) - 1));
    ChargedAgain(s1, s2, BlockCurrent(s2.q, a), c.t2);
  }

  lemma AccountingOnly(s: KState, st: Regs, now: int)
    ensures var r := Save(UpdateCPUTime(s, now), st); r.q == s.q && r.f == s.f
  {
  }

  /** The accounting before a block does not look at the semaphores. */
  lemma ChargedAgain(s1: KState, s2: KState, q: Sched, now: int)
    requires s2 == s1.(q := s2.q) && s2.q.current == s1.q.current
    ensures Charged(s1, q, now) == Charged(s2, q, now)
  {
  }

  lemma VerhogenCases(s: KState, st: Regs, a: Addr, c: Tod)
    ensures var s1 := Save(UpdateCPUTime(s, c.t1), st); var q2 := SetSem(s1.q, a, Value(s1.q, a) + 1);
            DoVerhogen(s, st, a, c) == s1.(q := if Value(s1.q, a) + 1 <= 0 then Wake(q2, a, false).0 else q2)
  {
  }

  lemma YieldCases(s: KState, st: Regs, c: Tod)
    ensures var s1 := Save(UpdateCPUTime(s, c.t1), st); DoYield(s, st, c) == Schedule(s1.(q := Requeue(s1.q)), c.t2)
    ensures var s1 := Save(InterruptEntry(s, c.t1), st); DoQuantum(s, st, c) == Schedule(s1.(q := Requeue(s1.q)), c.t2)
    ensures InterruptEntry(s, c.t1) == UpdateCPUTime(s, c.t1).(start := c.t1)
    ensures s.q.current == None ==> Requeue(s.q) == s.q
    ensures UpdateCPUTime(s, c.t1).q == s.q && Save(s, st).q == s.q
  {
  }

  lemma TrapCases(s: KState, p: Proc, c: Tod)
    requires s.q.current == Some(p)
    ensures var s1 := UpdateCPUTime(s, c.t1); var (f, q) := Termination.Kill(s1.f, s1.q, p);
            DoTrap(s, c) == if s.pcb[p].support then s else Schedule(s1.(f := f, q := q.(current := None)), c.t2)
    ensures UpdateCPUTime(s, c.t1).f == s.f && UpdateCPUTime(s, c.t1).q == s.q
  {
  }

  lemma ResumeCases(s: KState, now: int)
    ensures Resume(s, now) == if s.q.current == None then Schedule(s, now) else s
    ensures InterruptEntry(s, now) == UpdateCPUTime(s, now).(start := now)
  {
  }

  lemma ServeCases(s: KState, a: Addr, status: int)
    ensures var (q, woken) := Wake(SetSem(s.q, a, Value(s.q, a) + 1), a, true);
            Serve(s, a, status) ==
            if Value(s.q, a) >= 0 then s
            else if woken == None then s.(q := q)
            else SetA0(s.(q := q), woken, status)
  {
  }

  lemma A0Cases(s: KState, p: Proc, v: int)
    ensures SetA0(s, Some(p), v) == WithData(s, p, s.pcb[p].(saved := s.pcb[p].saved.(a0 := v)))
  {
  }

  lemma TickCases(s: KState, c: Tod)
    ensures var s1 := InterruptEntry(s, c.t1); var (q, woken) := WakeAll(s1.q, CLOCK);
            DoTick(s, c) == Resume(SetA0All(s1.(q := SetSem(q, CLOCK, 0)), woken, 0), c.t2)
  {
  }

  lemma DeviceCases(s: KState, line: int, pending: seq<bool>, status: int, c: Tod)
    ensures var s1 := InterruptEntry(s, c.t1); var dev := Devices.Lowest(pending);
            DoDevice(s, line, pending, status, c) ==
            Resume(if dev < 0 then s1 else Serve(s1, DeviceSem(Devices.HandlerIndex(line, dev, false)), status), c.t2)
  {
  }

  lemma TerminalCases(s: KState, pending: seq<bool>, tx: nat, rx: nat, c: Tod)
    ensures var s1 := InterruptEntry(s, c.t1); var dev := Devices.Lowest(pending);
            var s2 := if tx % 256 != 0 then Serve(s1, DeviceSem(Devices.HandlerIndex(7, dev, true)), tx) else s1;
            var s3 := if rx % 256 != 0 then Serve(s2, DeviceSem(Devices.HandlerIndex(7, dev, false)), rx) else s2;
            DoTerminal(s, pending, tx, rx, c) == Resume(if dev < 0 then s1 else s3, c.t2)
  {
  }

  /** Everybody who sleeps on the clock is awake and has 0 in a0. */
  function AllAwake(s: KState): KState {
    var (q, ps) := WakeAll(s.q, CLOCK);
    SetA0All(s.(q := q), ps, 0)
  }

  function Sleepers(s: KState): nat { |Asl.Queue(s.q.asl, CLOCK)| }

  lemma AwakeUnfolds(s: KState)
    ensures var (q, w) := Wake(s.q, CLOCK, true); var s1 := s.(q := q);
            && (w.None? ==> AllAwake(s) == s1)
            && (w.Some? ==> AllAwake(s) == AllAwake(SetA0(s1, w, 0)) && Sleepers(SetA0(s1, w, 0)) < Sleepers(s))
  {
    var (q, w) := Wake(s.q, CLOCK, true);
    if w.Some? {
      var (q2, ps2) := WakeAll(q, CLOCK);
      assert SetA0(s.(q := q2), w, 0) == SetA0(s.(q := q), w, 0).(q := q2);
      assert ([w.value] + ps2)[1..] == ps2;
    }
  }

  lemma {:induction false} SetA0AllSem(s: KState, ps: seq<Proc>)
    ensures var r := SetA0All(s, ps, 0);
            r.(q := SetSem(r.q, CLOCK, 0)) == SetA0All(s.(q := SetSem(s.q, CLOCK, 0)), ps, 0)
    decreases |ps|
  {
    if ps != [] {
      SetA0AllSem(SetA0(s, Some(ps[0]), 0), ps[1..]);
    }
  }

  lemma SleepersAre(s: KState)
    ensures var (q, ps) := WakeAll(s.q, CLOCK); var r := AllAwake(s);
            r.(q := SetSem(r.q, CLOCK, 0)) == SetA0All(s.(q := SetSem(q, CLOCK, 0)), ps, 0)
  {
    var (q, ps) := WakeAll(s.q, CLOCK);
    SetA0AllSem(s.(q := q), ps);
  }

  class Nucleus {
    // the PCB table, all lists, the semaphores and the counters
    const lists: Lists
    var start: int
    var mode: Mode
    // histories
    ghost var boot: int
    ghost var ledger: seq<Charge>

    ghost predicate Valid()
      reads lists`currentProcess, lists.pcbs, lists.pcbs.mem, lists.pcbs.mem.nodes, lists.pcbs.table, lists.asl.semd_table
    {
      lists.Valid() && lists.pcbs.Layout()
    }

    /** The abstract kernel state. */
    ghost function View(): KState
      requires Valid()
      reads this, lists, lists.pcbs, lists.pcbs.mem, lists.pcbs.mem.nodes, lists.pcbs.table, lists.asl.semd_table
    {
      KState(lists.Forest_(), lists.Sched_(), lists.pcbs.Data(), start, mode, boot, ledger)
    }

    /** `initKernel` up to the call of the scheduler, over the static storage; `mem` is what
        the ordinary semaphore variables hold. */
    constructor InitKernel(storage: Lists, mem: map<Addr, int>, now: int)
      requires storage.Raw()
      modifies storage, storage.pcbs, storage.pcbs.mem, storage.pcbs.mem.nodes, storage.pcbs.table
      ensures lists == storage && Valid() && View() == KernelTheorems.InitKernel(mem, now)
    {
      hide *;
      lists := storage;
      start, mode := now, Waiting;
      boot, ledger := now, [];
      new;
      lists.InitKernel(mem, now);
      Starts(mem, now);
    }

    lemma Starts(mem: map<Addr, int>, now: int)
      requires lists.Valid() && lists.pcbs.Layout() && start == now && mode == Waiting && boot == now && ledger == []
      requires var s := KernelTheorems.InitKernel(mem, now);
               lists.Forest_() == s.f && lists.Sched_() == s.q && lists.pcbs.Data() == s.pcb
      ensures Valid() && View() == KernelTheorems.InitKernel(mem, now)
    {
    }

    lemma Open()
      requires Valid()
      ensures lists.Valid() && lists.pcbs.Layout()
      ensures View() == KState(lists.Forest_(), lists.Sched_(), lists.pcbs.Data(), start, mode, boot, ledger)
    {
    }

    lemma Close()
      requires lists.Valid() && lists.pcbs.Layout()
      ensures Valid()
      ensures View() == KState(lists.Forest_(), lists.Sched_(), lists.pcbs.Data(), start, mode, boot, ledger)
    {
    }

    // ------------------------------------------------------------------ scheduler

    method Scheduler(now: int)
      requires Valid()
      modifies this, lists, lists.pcbs.mem, lists.pcbs.mem.nodes
      ensures Valid() && View() == Schedule(old(View()), now)
    {
      hide *;
      Open();
      ScheduleCases(View(), now);
      lists.Counters();
      var empty := lists.NobodyReady();
      if !empty {
        lists.DispatchFirst();
        start := now;
        mode := Running;
      } else if lists.processCount == 0 {
        mode := Halted;
      } else if lists.processCount > 0 && lists.softBlockCount > 0 {
        mode := Waiting;
      } else if lists.processCount > 0 && lists.softBlockCount == 0 {
        mode := Panicked;
      }
      Close();
    }

    // ------------------------------------------------------------ functions.c

    lemma DataAt(p: PcbLists.Pcb)
      requires lists.pcbs.Layout() && p in lists.pcbs.table
      ensures lists.pcbs.Data()[p.slot] == PcbData(p.p_time, p.p_supportStruct, p.p_s)
      ensures forall x: Proc :: lists.pcbs.table[x] == p <==> x == p.slot
    {
      lists.pcbs.PcbsDiffer(p);
    }

    method SetData(p: PcbLists.Pcb, d: PcbData)
      requires Valid() && p in lists.pcbs.table
      modifies p`p_time, p`p_supportStruct, p`p_s
      ensures Valid() && View() == WithData(old(View()), p.slot, d)
    {
      hide *;
      Open();
      ghost var s, data := View(), lists.pcbs.Data();
      DataAt(p);
      p.p_time, p.p_supportStruct, p.p_s := d.time, d.support, d.saved;
      DataSet(p, data, d);
      Close();
      WithDataIs(s, p.slot, d);
    }

    lemma DataSet(p: PcbLists.Pcb, data: seq<PcbData>, d: PcbData)
      requires lists.pcbs.Layout() && p in lists.pcbs.table && |data| == MAXPROC
      requires p.p_time == d.time && p.p_supportStruct == d.support && p.p_s == d.saved
      requires forall x: Proc :: x != p.slot ==> data[x] == lists.pcbs.DataOf(lists.pcbs.table[x])
      ensures lists.pcbs.Data() == data[p.slot := d]
    {
      lists.pcbs.PcbsDiffer(p);
      lists.pcbs.DataIs(data[p.slot := d]);
    }

    /** `updateCPUTime(currentProcess)`. */
    method UpdateTime(now: int)
      requires Valid()
      modifies this, lists.pcbs.table`p_time, lists.pcbs.table`p_supportStruct, lists.pcbs.table`p_s
      ensures Valid() && View() == UpdateCPUTime(old(View()), now)
    {
      hide *;
      Open();
      ghost var s := View();
      UpdateCases(s, now);
      lists.Running();
      if lists.currentProcess != null {
        var p := lists.currentProcess;
        DataAt(p);
        lists.PidOf(p);
        SetData(p, PcbData(p.p_time + (now - start), p.p_supportStruct, p.p_s));
        Open();
        ledger := ledger + [Charge(p.p_pid, start, now)];
        start := now;
        Close();
      }
    }

    method SaveState(st: Regs)
      requires Valid()
      modifies lists.pcbs.table`p_time, lists.pcbs.table`p_supportStruct, lists.pcbs.table`p_s
      ensures Valid() && View() == Save(old(View()), st)
    {
      hide *;
      Open();
      SaveCases(View(), st);
      lists.Running();
      if lists.currentProcess != null {
        var p := lists.currentProcess;
        DataAt(p);
        SetData(p, PcbData(p.p_time, p.p_supportStruct, st));
      }
    }

    /** `blockCurrentProcess` up to the call of the scheduler. */
    method BlockCurrentProcess(a: Addr, now: int)
      requires Valid() && lists.currentProcess != null
      modifies this, lists, lists.pcbs.mem, lists.pcbs.mem.nodes, lists.pcbs.table, lists.asl.semd_table
      ensures Valid() && View() == Charged(old(View()), BlockCurrent(old(View()).q, a), now)
    {
      hide *;
      Open();
      BlockCases(View(), a, now);
      lists.Running();
      UpdateTime(now);
      Open();
      lists.Block(a);
      Close();
    }

    // ------------------------------------------------------------ exception.c

    /** `createProcess`. */
    method CreateProcess(st: Regs, child: Regs, prio: int, support: bool)
      requires Valid() && lists.currentProcess != null
      modifies this, lists, lists.pcbs, lists.pcbs.mem, lists.pcbs.mem.nodes, lists.pcbs.table, lists.asl.semd_table
      ensures Valid() && View() == DoCreate(old(View()), st, child, prio, support)
    {
      hide *;
      Open();
      ghost var s := View();
      lists.Running();
      CreateCases(s, st, child, prio, support);
      var p := lists.Create(prio);
      lists.Names(p);
      Close();
      if p == null {
        SaveState(st.(a0 := -1));
        return;
      }
      ghost var s1 := View();
      DataGone(s, s1, p.slot, PcbData(0, support, child));
      SetData(p, PcbData(0, support, child));
      Open();
      lists.PidOf(p);
      SaveState(st.(a0 := p.p_pid));
    }

    lemma DataGone(s: KState, s1: KState, p: Proc, d: PcbData)
      requires s1 == s.(f := s1.f, q := s1.q, pcb := s.pcb[p := NoData])
      ensures WithData(s1, p, d) == WithData(s.(f := s1.f, q := s1.q), p, d)
      ensures WithData(s1, p, d).f == s1.f
    {
      assert s.pcb[p := NoData][p := d] == s.pcb[p := d];
    }

    /** `terminateProcess`, in a state the kernel can be in. */
    method TerminateProcess(st: Regs, pid: int, c: Tod)
      requires Valid() && Base(View()) && lists.currentProcess != null
      modifies this, lists, lists.pcbs.mem, lists.pcbs.mem.nodes, lists.pcbs.table, lists.asl.semd_table
      ensures Valid() && View() == DoTerminate(old(View()), st, pid, c)
    {
      hide *;
      Open();
      ghost var s := View();
      BaseParts(s);
      TargetIsLive(s, pid);
      TerminateCases(s, st, pid, c);
      lists.Running();
      UpdateTime(c.t1);
      Open();
      var target := lists.currentProcess;
      if pid != 0 {
        lists.RootThere();
        target := lists.Find(lists.pcbs.table[lists.rootProcess], pid);
      }
      lists.Names(target);
      if target != null {
        Terminate(target, st, c.t2);
      }
    }

    /** Its second half, when the target is known. */
    method Terminate(target: PcbLists.Pcb, st: Regs, now: int)
      requires Valid() && target in lists.pcbs.table && lists.currentProcess != null
      requires TreeInv(View().f) && Live(View().f, target.slot) && Placed(View().q, LiveSet(View().f))
      modifies this, lists, lists.pcbs.mem, lists.pcbs.mem.nodes, lists.pcbs.table, lists.asl.semd_table
      ensures Valid() && View() == TerminateFound(old(View()), st, target.slot, now)
    {
      hide *;
      Open();
      ghost var s := View();
      lists.Running();
      FoundCases(s, st, target.slot, now);
      DoomedAtFirst(s.f, s.q, target.slot);
      lists.Names(target);
      var isCurrent := target == lists.currentProcess;
      lists.SameSlot(target);
      lists.RecursiveTerminate(target, s.f, LiveSet(s.f));
      lists.Running();
      if isCurrent || lists.currentProcess == null {
        lists.NobodyRuns();
        Close();
        Scheduler(now);
      } else {
        Close();
        SaveState(st);
      }
    }

    /** `*semAdd += d`; the new value. */
    method AddToSemaphore(a: Addr, d: int) returns (v: int)
      requires Valid()
      modifies lists`sem
      ensures Valid() && v == Value(old(View()).q, a) + d
      ensures View() == old(View()).(q := SetSem(old(View()).q, a, v))
    {
      hide *;
      Open();
      v := lists.GetSemaphore(a);
      v := v + d;
      lists.SetSemaphore(a, v);
      Close();
    }

    method PasserenSys(st: Regs, a: Addr, c: Tod)
      requires Valid() && lists.currentProcess != null
      modifies this, lists, lists.pcbs.mem, lists.pcbs.mem.nodes, lists.pcbs.table, lists.asl.semd_table
      ensures Valid() && View() == DoPasseren(old(View()), st, a, c)
    {
      hide *;
      PasserenCases(View(), st, a, c);
      UpdateTime(c.t1);
      SaveState(st);
      var v := AddToSemaphore(a, -1);
      if v < 0 {
        BlockCurrentProcess(a, c.t2);
        Scheduler(c.t3);
      }
    }

    /** `removeBlocked(a)`; a process it yields moves to the ready queue. */
    method WakeWaiter(a: Addr, soft: bool) returns (woken: PcbLists.Pcb?)
      requires Valid()
      modifies lists, lists.pcbs.mem, lists.pcbs.mem.nodes, lists.pcbs.table, lists.asl.semd_table
      ensures Valid() && (woken != null ==> woken in lists.pcbs.table)
      ensures (View().q, Name(woken)) == Wake(old(View()).q, a, soft) && View() == old(View()).(q := View().q)
    {
      hide *;
      Open();
      woken := lists.WakeFirst(a, soft);
      Close();
    }

    method VerhogenSys(st: Regs, a: Addr, c: Tod)
      requires Valid() && lists.currentProcess != null
      modifies this, lists, lists.pcbs.mem, lists.pcbs.mem.nodes, lists.pcbs.table, lists.asl.semd_table
      ensures Valid() && View() == DoVerhogen(old(View()), st, a, c)
    {
      hide *;
      VerhogenCases(View(), st, a, c);
      UpdateTime(c.t1);
      SaveState(st);
      var v := AddToSemaphore(a, 1);
      if v <= 0 {
        var released := WakeWaiter(a, false);
      }
    }

    /** The common part of `doIO` and `waitForClock`. */
    method Await(st: Regs, a: Addr, c: Tod)
      requires Valid() && lists.currentProcess != null
      modifies this, lists, lists.pcbs.mem, lists.pcbs.mem.nodes, lists.pcbs.table, lists.asl.semd_table
      ensures Valid() && View() == DoAwait(old(View()), st, a, c)
    {
      hide *;
      AwaitCases(View(), st, a, c);
      UpdateTime(c.t1);
      SaveState(st);
      var v := AddToSemaphore(a, -1);
      BlockCurrentProcess(a, c.t2);
      Scheduler(c.t3);
    }

    /** `doIO`: a bad address is answered with -1 at once, any other gets the command. */
    method DoIOSys(st: Regs, addr: int, value: int, c: Tod) returns (outcome: IoOutcome)
      requires Valid() && lists.currentProcess != null
      modifies this, lists, lists.pcbs.mem, lists.pcbs.mem.nodes, lists.pcbs.table, lists.asl.semd_table
      ensures Valid()
      ensures outcome == if Devices.Accepted(addr) then Commanded(addr, value) else Refused(st.(a0 := -1))
      ensures View() == if Devices.Accepted(addr) then DoAwait(old(View()), st, DeviceSem(Devices.SemIndex(addr)), c)
                        else old(View())
    {
      if addr < Devices.START_DEVREG || addr > Devices.LAST_ACCEPTED {
        return Refused(st.(a0 := -1));
      }
      hide Valid, View, DoAwait;
      outcome := Commanded(addr, value);
      Await(st, DeviceSem(Devices.SemIndex(addr)), c);
    }

    method WaitClock(st: Regs, c: Tod)
      requires Valid() && lists.currentProcess != null
      modifies this, lists, lists.pcbs.mem, lists.pcbs.mem.nodes, lists.pcbs.table, lists.asl.semd_table
      ensures Valid() && View() == DoAwait(old(View()), st, CLOCK, c)
    {
      Await(st, CLOCK, c);
    }

    /** SYS6; the value handed to the caller. */
    method GetCPUTimeSys(c: Tod) returns (t: int)
      requires Valid() && lists.currentProcess != null
      modifies this, lists.pcbs.table`p_time, lists.pcbs.table`p_supportStruct, lists.pcbs.table`p_s
      ensures Valid() && View() == UpdateCPUTime(old(View()), c.t1)
      ensures t == View().pcb[lists.currentProcess.slot].time
    {
      hide *;
      UpdateTime(c.t1);
      Open();
      lists.Running();
      DataAt(lists.currentProcess);
      t := lists.currentProcess.p_time;
    }

    method RequeueRunning()
      requires Valid() && lists.currentProcess != null
      modifies lists, lists.pcbs.mem, lists.pcbs.mem.nodes
      ensures Valid() && View() == old(View()).(q := Requeue(old(View()).q))
    {
      hide *;
      Open();
      lists.RequeueCurrent();
      Close();
    }

    method YieldSys(st: Regs, c: Tod)
      requires Valid() && lists.currentProcess != null
      modifies this, lists, lists.pcbs.mem, lists.pcbs.mem.nodes, lists.pcbs.table, lists.asl.semd_table
      ensures Valid() && View() == DoYield(old(View()), st, c)
    {
      hide *;
      YieldCases(View(), st, c);
      UpdateTime(c.t1);
      SaveState(st);
      RequeueRunning();
      Scheduler(c.t2);
    }

    /** `passUpOrDie`, in a state the kernel can be in; passing up changes nothing here. */
    method PassUpOrDieSys(c: Tod)
      requires Valid() && Base(View()) && lists.currentProcess != null
      modifies this, lists, lists.pcbs.mem, lists.pcbs.mem.nodes, lists.pcbs.table, lists.asl.semd_table
      ensures Valid() && View() == DoTrap(old(View()), c)
    {
      hide *;
      Open();
      ghost var s := View();
      lists.Running();
      var p: PcbLists.Pcb := lists.currentProcess;
      DataAt(p);
      TrapCases(s, p.slot, c);
      if !p.p_supportStruct {
        BaseSplit(s);
        CurrentIsLive(s.f, s.q);
        BaseParts(s);
        UpdateTime(c.t1);
        Die(p, c.t2);
      }
    }

    method Die(p: PcbLists.Pcb, now: int)
      requires Valid() && p in lists.pcbs.table
      requires TreeInv(View().f) && Live(View().f, p.slot) && Placed(View().q, LiveSet(View().f))
      modifies this, lists, lists.pcbs.mem, lists.pcbs.mem.nodes, lists.pcbs.table, lists.asl.semd_table
      ensures var s := old(View()); var (f, q) := Termination.Kill(s.f, s.q, p.slot);
              Valid() && View() == Schedule(s.(f := f, q := q.(current := None)), now)
    {
      hide *;
      Open();
      ghost var f := lists.Forest_();
      DoomedAtFirst(f, lists.Sched_(), p.slot);
      lists.RecursiveTerminate(p, f, LiveSet(f));
      lists.NobodyRuns();
      Close();
      Scheduler(now);
    }

    // ------------------------------------------------------------ interrupt.c

    method EnterInterrupt(now: int)
      requires Valid()
      modifies this, lists.pcbs.table`p_time, lists.pcbs.table`p_supportStruct, lists.pcbs.table`p_s
      ensures Valid() && View() == InterruptEntry(old(View()), now)
    {
      hide *;
      ResumeCases(View(), now);
      UpdateTime(now);
      Open();
      start := now;
      Close();
    }

    method ResumeOrSchedule(now: int)
      requires Valid()
      modifies this, lists, lists.pcbs.mem, lists.pcbs.mem.nodes
      ensures Valid() && View() == Resume(old(View()), now)
    {
      hide *;
      ResumeCases(View(), now);
      Open();
      lists.Running();
      if lists.currentProcess == null {
        Scheduler(now);
      }
    }

    method QuantumInterrupt(st: Regs, c: Tod)
      requires Valid()
      modifies this, lists, lists.pcbs.mem, lists.pcbs.mem.nodes, lists.pcbs.table, lists.asl.semd_table
      ensures Valid() && View() == DoQuantum(old(View()), st, c)
    {
      hide *;
      YieldCases(View(), st, c);
      EnterInterrupt(c.t1);
      Open();
      YieldCases(View(), st, c);
      SaveCases(View(), st);
      lists.Running();
      if lists.currentProcess != null {
        SaveState(st);
        RequeueRunning();
      }
      Scheduler(c.t2);
    }

    method ReturnValue(p: PcbLists.Pcb, v: int)
      requires Valid() && p in lists.pcbs.table
      modifies lists.pcbs.table`p_time, lists.pcbs.table`p_supportStruct, lists.pcbs.table`p_s
      ensures Valid() && View() == SetA0(old(View()), Some(p.slot), v)
    {
      hide *;
      Open();
      A0Cases(View(), p.slot, v);
      DataAt(p);
      SetData(p, PcbData(p.p_time, p.p_supportStruct, p.p_s.(a0 := v)));
    }

    method ClockInterrupt(c: Tod)
      requires Valid()
      modifies this, lists, lists.pcbs.mem, lists.pcbs.mem.nodes, lists.pcbs.table, lists.asl.semd_table
      ensures Valid() && View() == DoTick(old(View()), c)
    {
      hide *;
      ghost var s := View();
      TickCases(s, c);
      EnterInterrupt(c.t1);
      SleepersAre(View());
      WakeSleepers();
      Open();
      lists.SetSemaphore(CLOCK, 0);
      Close();
      ResumeOrSchedule(c.t2);
    }

    /** The wake-up loop of the clock tick. */
    method WakeSleepers()
      requires Valid()
      modifies lists, lists.pcbs.mem, lists.pcbs.mem.nodes, lists.pcbs.table, lists.asl.semd_table
      ensures Valid() && View() == AllAwake(old(View()))
    {
      hide *;
      ghost var s := View();
      while true
        invariant Valid() && AllAwake(View()) == AllAwake(s)
        decreases Sleepers(View())
      {
        AwakeUnfolds(View());
        var p := WakeWaiter(CLOCK, true);
        lists.Names(p);
        if p == null {
          break;
        }
        ReturnValue(p, 0);
      }
    }

    method ServeDevice(a: Addr, status: int)
      requires Valid()
      modifies lists, lists.pcbs.mem, lists.pcbs.mem.nodes, lists.pcbs.table, lists.asl.semd_table
      ensures Valid() && View() == Serve(old(View()), a, status)
    {
      hide *;
      Open();
      ServeCases(View(), a, status);
      var v := lists.GetSemaphore(a);
      if v < 0 {
        v := AddToSemaphore(a, 1);
        var unblocked := WakeWaiter(a, true);
        lists.Names(unblocked);
        if unblocked != null {
          ReturnValue(unblocked, status);
        }
      }
    }

    method DeviceInterruptSys(line: int, bitmap: seq<bool>, status: int, c: Tod)
      requires Valid() && |bitmap| == 8
      modifies this, lists, lists.pcbs.mem, lists.pcbs.mem.nodes, lists.pcbs.table, lists.asl.semd_table
      ensures Valid() && View() == DoDevice(old(View()), line, bitmap, status, c)
    {
      hide *;
      DeviceCases(View(), line, bitmap, status, c);
      EnterInterrupt(c.t1);
      var dev := Devices.GetHighestPriorityDevice(bitmap);
      if dev >= 0 {
        ServeDevice(DeviceSem(Devices.HandlerIndex(line, dev, false)), status);
      }
      ResumeOrSchedule(c.t2);
    }

    method TerminalInterruptSys(bitmap: seq<bool>, tx: nat, rx: nat, c: Tod)
      requires Valid() && |bitmap| == 8
      modifies this, lists, lists.pcbs.mem, lists.pcbs.mem.nodes, lists.pcbs.table, lists.asl.semd_table
      ensures Valid() && View() == DoTerminal(old(View()), bitmap, tx, rx, c)
    {
      hide *;
      TerminalCases(View(), bitmap, tx, rx, c);
      EnterInterrupt(c.t1);
      var dev := Devices.GetHighestPriorityDevice(bitmap);
      if dev >= 0 {
        if tx % 256 != 0 {
          ServeDevice(DeviceSem(Devices.HandlerIndex(7, dev, true)), tx);
        }
        if rx % 256 != 0 {
          ServeDevice(DeviceSem(Devices.HandlerIndex(7, dev, false)), rx);
        }
      }
      ResumeOrSchedule(c.t2);
    }

    // ------------------------------------------------------------------------ runs

    /** One system call or trap; `command` is what SYS5 writes into the device register. */
    method Syscall(step: Step, command: int)
      requires Valid() && Base(View()) && lists.currentProcess != null && !IsInterrupt(step.op)
      modifies this, lists, lists.pcbs, lists.pcbs.mem, lists.pcbs.mem.nodes, lists.pcbs.table, lists.asl.semd_table
      ensures Valid() && View() == Next(old(View()), step)
    {
      hide *;
      BaseParts(View());
      NextCases(View(), step);
      InterruptKinds(step.op);
      var c := step.c;
      match step.op
      case CreateProcess(st, child, prio, support) => CreateProcess(st, child, prio, support);
      case TerminateProcess(st, pid) => TerminateProcess(st, pid, c);
      case Passeren(st, a) => PasserenSys(st, a, c);
      case Verhogen(st, a) => VerhogenSys(st, a, c);
      case DoIO(st, addr) => var outcome := DoIOSys(st, addr, command, c);
      case GetCPUTime(st) => var t := GetCPUTimeSys(c);
      case WaitForClock(st) => WaitClock(st, c);
      case Yield(st) => YieldSys(st, c);
      case PassUpOrDie => PassUpOrDieSys(c);
    }

    method Interrupt(step: Step)
      requires Valid() && Base(View()) && IsInterrupt(step.op)
      requires step.op.DeviceInterrupt? || step.op.TerminalInterrupt? ==> |step.op.pending| == 8
      modifies this, lists, lists.pcbs.mem, lists.pcbs.mem.nodes, lists.pcbs.table, lists.asl.semd_table
      ensures Valid() && View() == Next(old(View()), step)
    {
      hide *;
      BaseParts(View());
      NextCases(View(), step);
      InterruptKinds(step.op);
      var c := step.c;
      match step.op
      case QuantumExpiry(st) => QuantumInterrupt(st, c);
      case ClockTick => ClockInterrupt(c);
      case DeviceInterrupt(line, pending, status) => DeviceInterruptSys(line, pending, status, c);
      case TerminalInterrupt(pending, tx, rx) => TerminalInterruptSys(pending, tx, rx, c);
    }

    /** Whatever the environment may ask for next. */
    method Handle(step: Step, command: int)
      requires Valid() && Inv(View()) && Enabled(View(), step)
      modifies this, lists, lists.pcbs, lists.pcbs.mem, lists.pcbs.mem.nodes, lists.pcbs.table, lists.asl.semd_table
      ensures Valid() && View() == Next(old(View()), step) && Inv(View())
    {
      StepAllows(View(), step);
      Open();
      lists.Running();
      hide Valid, View, Inv, Enabled, Next, Base, TreeInv, RootKnown;
      if IsInterrupt(step.op) {
        Interrupt(step);
      } else {
        Syscall(step, command);
      }
    }

    /** A whole run of the kernel on its linked lists is a run of the step machine. */
    method Run(steps: seq<Step>, commands: seq<int>)
      requires Valid() && Inv(View()) && KernelTheorems.Legal(View(), steps) && |commands| == |steps|
      modifies this, lists, lists.pcbs, lists.pcbs.mem, lists.pcbs.mem.nodes, lists.pcbs.table, lists.asl.semd_table
      ensures Valid() && Inv(View()) && View() == KernelTheorems.Exec(old(View()), steps)
    {
      hide *;
      ghost var s := View();
      for i := 0 to |steps|
        invariant Valid() && Inv(View()) && KernelTheorems.Legal(View(), steps[i..])
        invariant KernelTheorems.Exec(View(), steps[i..]) == KernelTheorems.Exec(s, steps)
      {
        RunUnfolds(View(), steps[i..]);
        assert steps[i..][1..] == steps[i + 1..];
        Handle(steps[i], commands[i]);
      }
      RunUnfolds(View(), steps[|steps|..]);
    }

    /** `main`: from raw storage through `initKernel` and the scheduler to the end of a run. */
    static method Operate(storage: Lists, mem: map<Addr, int>, now: int, steps: seq<Step>, commands: seq<int>)
      returns (kernel: Nucleus)
      requires storage.Raw() && KernelTheorems.NoNegativeSemaphore(mem) && |commands| == |steps|
      requires var s := KernelTheorems.Boot(mem, now); Inv(s) ==> KernelTheorems.Legal(s, steps)
      modifies storage, storage.pcbs, storage.pcbs.mem, storage.pcbs.mem.nodes, storage.pcbs.table, storage.asl.semd_table
      ensures var s := KernelTheorems.Boot(mem, now);
              Inv(s) && kernel.Valid() && Inv(kernel.View()) && kernel.View() == KernelTheorems.Exec(s, steps)
    {
      hide *;
      KernelTheorems.BootKeeps(mem, now);
      BootIs(mem, now);
      kernel := new Nucleus.InitKernel(storage, mem, now);
      kernel.Scheduler(now);
      kernel.Run(steps, commands);
    }
  }

  lemma BootIs(mem: map<Addr, int>, now: int)
    ensures KernelTheorems.Boot(mem, now) == Schedule(KernelTheorems.InitKernel(mem, now), now)
  {
  }

  lemma NextCases(s: KState, step: Step)
    requires TreeInv(s.f) && RootKnown(s.f)
    ensures Next(s, step) ==
            match step.op
            case CreateProcess(st, child, prio, support) => DoCreate(s, st, child, prio, support)
            case TerminateProcess(st, pid) => DoTerminate(s, st, pid, step.c)
            case Passeren(st, a) => DoPasseren(s, st, a, step.c)
            case Verhogen(st, a) => DoVerhogen(s, st, a, step.c)
            case DoIO(st, addr) =>
              if Devices.Accepted(addr) then DoAwait(s, st, DeviceSem(Devices.SemIndex(addr)), step.c) else s
            case GetCPUTime(st) => UpdateCPUTime(s, step.c.t1)
            case WaitForClock(st) => DoAwait(s, st, CLOCK, step.c)
            case Yield(st) => DoYield(s, st, step.c)
            case PassUpOrDie => DoTrap(s, step.c)
            case QuantumExpiry(st) => DoQuantum(s, st, step.c)
            case ClockTick => DoTick(s, step.c)
            case DeviceInterrupt(line, pending, status) => DoDevice(s, line, pending, status, step.c)
            case TerminalInterrupt(pending, tx, rx) => DoTerminal(s, pending, tx, rx, step.c)
  {
  }

  lemma RunUnfolds(s: KState, steps: seq<Step>)
    requires Inv(s) && KernelTheorems.Legal(s, steps)
    ensures steps == [] ==> KernelTheorems.Exec(s, steps) == s
    ensures steps != [] ==>
      && Enabled(s, steps[0]) && TreeInv(s.f) && RootKnown(s.f) && Inv(Next(s, steps[0]))
      && KernelTheorems.Legal(Next(s, steps[0]), steps[1..])
      && KernelTheorems.Exec(s, steps) == KernelTheorems.Exec(Next(s, steps[0]), steps[1..])
  {
    hide Next, Enabled, TreeInv, RootKnown, SchedInv, TimeInv, ModeInv;
    if steps != [] {
      BaseParts(s);
      StepAllows(s, steps[0]);
    }
  }

  lemma InterruptKinds(op: Op)
    ensures IsInterrupt(op) <==> op.QuantumExpiry? || op.ClockTick? || op.DeviceInterrupt? || op.TerminalInterrupt?
  {
  }

  lemma StepAllows(s: KState, step: Step)
    requires Inv(s) && Enabled(s, step)
    ensures Base(s) && TreeInv(s.f) && RootKnown(s.f) && Inv(Next(s, step))
    ensures IsInterrupt(step.op) || s.q.current.Some?
    ensures step.op.DeviceInterrupt? || step.op.TerminalInterrupt? ==> |step.op.pending| == 8
  {
    hide Next, TreeInv, RootKnown, SchedInv, TimeInv;
    StepKeeps(s, step);
  }

  lemma BaseParts(s: KState)
    requires Base(s)
    ensures TreeInv(s.f) && RootKnown(s.f) && Placed(s.q, LiveSet(s.f))
    ensures Searchable(s.f, s.q.free, s.f.root)
  {
  }
}
