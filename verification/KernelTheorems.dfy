/** What holds in every run of the kernel, from `initKernel` on. */
module KernelTheorems {
  import opened Processes
  import opened ProcQueue
  import opened ProcTree
  import opened Scheduling
  import opened SchedulingKeeps
  import opened Termination
  import opened Kernel
  import opened KernelKeeps
  import Asl = SemList

  // ------------------------------------------------------------------------ boot

  /** The PCB that the first `allocPcb` takes from the free list. */
  const ROOT: Proc := FreeSlots(MAXPROC)[0]

  /** The memory after the loop over deviceSemaphores[]; `mem` is the initial contents of the
      ordinary semaphore variables. */
  function DevicesZeroed(mem: map<Addr, int>, n: nat): map<Addr, int> {
    if n == 0 then mem else DevicesZeroed(mem, n - 1)[DeviceSem(n - 1) := 0]
  }

  /** After `initPcbs` and `initASL`: every PCB is free, no process exists. */
  function NoForest(): Forest {
    Forest(seq(MAXPROC, i => Node(None, [], 0)), ROOT, 1)
  }

  function NoProcess(mem: map<Addr, int>): Sched {
    Sched(FreeSlots(MAXPROC), [], Asl.Asl(map[], MAXPROC), DevicesZeroed(mem, SEMDEVLEN),
          seq(MAXPROC, i => NULL), seq(MAXPROC, i => 0), None, 0, 0, [])
  }

  function NoPcbs(): Pcbs { seq(MAXPROC, i => NoData) }

  /** The state `initKernel` hands to the scheduler: the first process has been allocated
      and made ready. */
  function InitKernel(mem: map<Addr, int>, now: int): KState {
    KState(Spawn(NoForest(), ROOT), Admit(NoProcess(mem), 0), NoPcbs(), now, Waiting, now, [])
  }

  function Boot(mem: map<Addr, int>, now: int): KState {
    Schedule(InitKernel(mem, now), now)
  }

  ghost predicate NoNegativeSemaphore(mem: map<Addr, int>) {
    forall a :: a in mem ==> mem[a] >= 0
  }

  lemma {:induction false} DevicesAreZero(mem: map<Addr, int>, n: nat, a: Addr)
    ensures var r := DevicesZeroed(mem, n);
            (if a in r then r[a] else 0) == if DEVSEMS <= a < DEVSEMS + n then 0 else if a in mem then mem[a] else 0
  {
    if n > 0 {
      DevicesAreZero(mem, n - 1, a);
    }
  }

  lemma BootTree(mem: map<Addr, int>, now: int)
    ensures var f := InitKernel(mem, now).f; TreeInv(f) && RootKnown(f) && LiveSet(f) == {ROOT}
  {
  }

  lemma FreeSlotsMembers(p: Proc)
    ensures p in FreeSlots(MAXPROC) && NoDup(FreeSlots(MAXPROC))
  {
    assert FreeSlots(MAXPROC)[MAXPROC - 1 - p] == p;
  }

  lemma NobodyYet(mem: map<Addr, int>)
    requires NoNegativeSemaphore(mem)
    ensures SchedInv(NoProcess(mem), {})
  {
    var q := NoProcess(mem);
    forall p: Proc ensures p in q.free { FreeSlotsMembers(p); }
    FreeSlotsMembers(0);
    assert SoftBlocked(q, {}) == {};
    forall a ensures Lawful(q, a) { DevicesAreZero(mem, SEMDEVLEN, a); }
    assert Entries([], q.prio) == [];
  }

  lemma BootKeeps(mem: map<Addr, int>, now: int)
    requires NoNegativeSemaphore(mem)
    ensures Inv(Boot(mem, now))
  {
    hide SchedInv, TreeInv;
    BootTree(mem, now);
    NobodyYet(mem);
    AdmitKeeps(NoProcess(mem), {}, 0);
    assert {} + {NoProcess(mem).free[0]} == {ROOT};
    ScheduleKeeps(InitKernel(mem, now), now);
  }

  // ------------------------------------------------------------------------ runs

  /** The steps can be taken one after the other from `s`. */
  ghost predicate Legal(s: KState, steps: seq<Step>)
    requires Inv(s)
    decreases |steps|
  {
    steps == [] ||
    (Enabled(s, steps[0]) && (StepKeeps(s, steps[0]); Legal(Next(s, steps[0]), steps[1..])))
  }

  ghost function Exec(s: KState, steps: seq<Step>): KState
    requires Inv(s) && Legal(s, steps)
    decreases |steps|
  {
    if steps == [] then s else (StepKeeps(s, steps[0]); Exec(Next(s, steps[0]), steps[1..]))
  }

  /** The kernel invariant holds after every run. */
  lemma {:induction false} RunKeeps(s: KState, steps: seq<Step>)
    requires Inv(s) && Legal(s, steps)
    ensures Inv(Exec(s, steps))
    decreases |steps|
  {
    hide Enabled, Next, TreeInv, SchedInv, TimeInv, ModeInv;
    if steps != [] {
      StepKeeps(s, steps[0]);
      RunKeeps(Next(s, steps[0]), steps[1..]);
    }
  }

  lemma EveryRunKeeps(mem: map<Addr, int>, now: int, steps: seq<Step>)
    requires NoNegativeSemaphore(mem)
    requires Inv(Boot(mem, now)) ==> Legal(Boot(mem, now), steps)
    ensures Inv(Boot(mem, now)) && Inv(Exec(Boot(mem, now), steps))
  {
    BootKeeps(mem, now);
    RunKeeps(Boot(mem, now), steps);
  }

  // ------------------------------------------------------- where every PCB is

  /** In how many places `p` stands. */
  ghost function Places(q: Sched, p: Proc): nat {
    multiset(q.free)[p] + multiset(q.ready)[p] + (if q.current == Some(p) then 1 else 0) + |Waits(q, p)|
  }

  /** The semaphores in whose queue `p` stands. */
  ghost function Waits(q: Sched, p: Proc): set<Addr> {
    set a | a in q.asl.active && p in q.asl.active[a]
  }

  lemma {:induction false} CountOnce(q: seq<Proc>, p: Proc)
    requires NoDup(q)
    ensures multiset(q)[p] == if p in q then 1 else 0
  {
    if q != [] {
      var rest := q[1..];
      assert q == [q[0]] + rest;
      CountOnce(rest, p);
    }
  }

  lemma WhereBlocked(q: Sched, live: set<Proc>, p: Proc)
    requires Placed(q, live)
    ensures Waits(q, p) == if p in live && q.semAdd[p] != NULL then {q.semAdd[p]} else {}
  {
    if p in live && q.semAdd[p] != NULL {
      assert forall a :: a in Waits(q, p) <==> a == q.semAdd[p];
    } else {
      NotBlocked(q, live, p);
      forall a ensures a !in Waits(q, p) { }
      NoMembers(Waits(q, p));
    }
  }

  /** Every PCB is in exactly one of: free list, ready queue, one semaphore queue, running. */
  lemma ExactlyOnePlace(s: KState, p: Proc)
    requires Inv(s)
    ensures Places(s.q, p) == 1
    ensures forall a :: a in s.q.asl.active ==> multiset(s.q.asl.active[a])[p] <= 1
  {
    hide TreeInv, TimeInv, Counted, AllLawful, Ordered, Logged;
    PlacedOnce(s.q, LiveSet(s.f), p);
  }

  lemma PlacedOnce(q: Sched, live: set<Proc>, p: Proc)
    requires Placed(q, live)
    ensures Places(q, p) == 1
    ensures forall a :: a in q.asl.active ==> multiset(q.asl.active[a])[p] <= 1
  {
    CountOnce(q.free, p);
    CountOnce(q.ready, p);
    WhereBlocked(q, live, p);
    forall a | a in q.asl.active ensures multiset(q.asl.active[a])[p] <= 1 {
      CountOnce(q.asl.active[a], p);
    }
  }

  lemma NotBlocked(q: Sched, live: set<Proc>, p: Proc)
    requires Placed(q, live) && (p !in live || q.semAdd[p] == NULL)
    ensures forall a :: a in q.asl.active ==> p !in q.asl.active[a]
  {
  }

  predicate Below(p: Proc, n: nat) { p < n }

  ghost function ProcsBelow(n: nat): set<Proc> { set p: Proc | Below(p, n) }

  lemma {:induction false} AllProcs(n: nat)
    requires n <= MAXPROC
    ensures |ProcsBelow(n)| == n
  {
    if n > 0 {
      AllProcs(n - 1);
      var last: Proc := n - 1;
      assert ProcsBelow(n) == ProcsBelow(n - 1) + {last};
    } else {
      assert ProcsBelow(n) == {};
    }
  }

  lemma {:induction false} MembersCount(q: seq<Proc>)
    requires NoDup(q)
    ensures |Members(q)| == |q|
  {
    if q == [] {
      assert Members(q) == {};
    } else {
      MembersCount(q[1..]);
      MembersSplit(q);
    }
  }

  ghost predicate BlockedOnOrdinary(q: Sched, p: Proc) {
    exists a :: !IsSoft(a) && a in q.asl.active && p in q.asl.active[a]
  }

  ghost predicate BlockedOnDevice(q: Sched, p: Proc) {
    exists a :: IsSoft(a) && a in q.asl.active && p in q.asl.active[a]
  }

  /** The processes in the queue of some device or of the clock. */
  ghost function DeviceWaiters(q: Sched): set<Proc> {
    set p: Proc | BlockedOnDevice(q, p)
  }

  /** The two counters say what their names promise. */
  lemma CountersExact(s: KState)
    requires Inv(s)
    ensures s.q.processCount == MAXPROC - |s.q.free|
    ensures s.q.softBlockCount == |DeviceWaiters(s.q)|
  {
    hide TreeInv, TimeInv, AllLawful, Ordered, Logged;
    var live, free := LiveSet(s.f), Members(s.q.free);
    AllProcs(MAXPROC);
    MembersCount(s.q.free);
    assert live !! free;
    assert live + free == ProcsBelow(MAXPROC);
    assert |live + free| == |live| + |free|;
    SoftBlockedAre(s.q, live);
    assert SoftBlocked(s.q, live) == DeviceWaiters(s.q);
  }

  lemma SoftBlockedAre(q: Sched, live: set<Proc>)
    requires Placed(q, live)
    ensures forall p: Proc :: p in SoftBlocked(q, live) <==> BlockedOnDevice(q, p)
  {
    assert !IsSoft(NULL);
    forall p: Proc | p in SoftBlocked(q, live) ensures BlockedOnDevice(q, p) {
      assert IsSoft(q.semAdd[p]) && q.semAdd[p] in q.asl.active && p in q.asl.active[q.semAdd[p]];
    }
  }

  // ---------------------------------------------------------- deadlock verdict

  /** With nobody running and nobody ready, every live process is blocked. */
  lemma EverybodyBlocked(s: KState, p: Proc)
    requires Base(s) && s.q.current.None? && s.q.ready == [] && Live(s.f, p)
    ensures BlockedOnOrdinary(s.q, p) <==> p !in SoftBlocked(s.q, LiveSet(s.f))
    ensures BlockedOnDevice(s.q, p) <==> p in SoftBlocked(s.q, LiveSet(s.f))
  {
    SoftBlockedAre(s.q, LiveSet(s.f));
    var a := s.q.semAdd[p];
    assert p in LiveSet(s.f) && a != NULL;
    assert a in s.q.asl.active && p in s.q.asl.active[a];
    forall b | b in s.q.asl.active && p in s.q.asl.active[b] ensures b == a { }
  }

  /** The scheduler halts exactly when every PCB is free, panics exactly when there are
      live processes and all of them are blocked on ordinary semaphores, and waits exactly
      when nobody is ready and somebody is blocked on a device or on the clock. */
  lemma VerdictExact(s: KState, now: int)
    requires Base(s) && s.q.current.None? && s.start <= now
    ensures var m := Schedule(s, now).mode;
            && (m == Halted <==> LiveSet(s.f) == {})
            && (m == Panicked <==> LiveSet(s.f) != {} && forall p: Proc :: Live(s.f, p) ==> BlockedOnOrdinary(s.q, p))
            && (m == Waiting <==> s.q.ready == [] && exists p: Proc :: BlockedOnDevice(s.q, p))
            && (m == Running <==> s.q.ready != [])
  {
    hide TreeInv, TimeInv;
    var live, soft := LiveSet(s.f), SoftBlocked(s.q, LiveSet(s.f));
    SoftBlockedAre(s.q, live);
    if s.q.ready != [] {
      var p := s.q.ready[0];
      assert p in s.q.ready;
      assert p in live;
      ReadyNotBlocked(s, p);
    } else {
      forall p: Proc | Live(s.f, p)
        ensures BlockedOnOrdinary(s.q, p) <==> p !in soft
        ensures BlockedOnDevice(s.q, p) <==> p in soft
      {
        EverybodyBlocked(s, p);
      }
      if soft != {} {
        var p := Pick(soft);
        assert BlockedOnDevice(s.q, p);
        assert Live(s.f, p) && !BlockedOnOrdinary(s.q, p);
        assert p in live;
      } else {
        assert forall p: Proc :: BlockedOnDevice(s.q, p) ==> p in soft;
        if live != {} { var p := Pick(live); assert Live(s.f, p); }
      }
    }
  }

  lemma ReadyNotBlocked(s: KState, p: Proc)
    requires Base(s) && p in s.q.ready
    ensures !BlockedOnOrdinary(s.q, p)
  {
    NotBlocked(s.q, LiveSet(s.f), p);
  }

  /** In a state the scheduler calls a deadlock no device interrupt and no clock tick
      could make anybody ready. */
  lemma DeadlockIsReal(s: KState, i: int)
    requires Inv(s) && s.mode == Panicked && 0 <= i < SEMDEVLEN
    ensures DeviceDone(s.q, DeviceSem(i)).0.ready == []
    ensures Tick(s.q).0.ready == []
  {
    var live := LiveSet(s.f);
    NobodyOnDevice(s.q, live, DeviceSem(i));
    DeviceDoneKeeps(s.q, live, DeviceSem(i));
    NobodyOnDevice(s.q, live, CLOCK);
  }

  lemma NobodyOnDevice(q: Sched, live: set<Proc>, a: Addr)
    requires Placed(q, live) && |SoftBlocked(q, live)| == 0 && IsSoft(a)
    ensures Asl.Queue(q.asl, a) == []
    ensures Wake(q, a, true).1.None? && Wake(q, a, true).0.ready == q.ready
  {
    if Asl.Queue(q.asl, a) != [] {
      HeadIsSoft(q, live, a);
    }
  }

  lemma HeadIsSoft(q: Sched, live: set<Proc>, a: Addr)
    requires Placed(q, live) && IsSoft(a) && Asl.Queue(q.asl, a) != []
    ensures Asl.Queue(q.asl, a)[0] in SoftBlocked(q, live)
  {
    assert Asl.Queue(q.asl, a)[0] in Asl.Queue(q.asl, a);
  }
}
