/** Statements about whole runs that need the recorded history: who waits how long for
    the processor, and who is charged for which time. */
module KernelHistory {
  import opened Processes
  import opened ProcQueue
  import opened ProcTree
  import opened Scheduling
  import opened Termination
  import opened Kernel
  import opened KernelKeeps
  import opened KernelTheorems
  import Devices
  import Asl = SemList

  // ------------------------------------------------------ the history only grows

  lemma {:induction false} UnqueueAllLog(q: Sched, ps: seq<Proc>)
    ensures q.log <= UnqueueAll(q, ps).log
    decreases |ps|
  {
    if ps != [] {
      UnqueueAllLog(Unqueue(q, ps[0]), ps[1..]);
    }
  }

  lemma {:induction false} WakeAllLog(q: Sched, a: Addr)
    ensures q.log <= WakeAll(q, a).0.log
    decreases |Asl.Queue(q.asl, a)|
  {
    if Wake(q, a, true).1.Some? {
      WakeAllLog(Wake(q, a, true).0, a);
    }
  }

  lemma {:induction false} SetA0AllFrame(s: KState, ps: seq<Proc>, v: int)
    ensures var r := SetA0All(s, ps, v); r == s.(pcb := r.pcb)
    decreases |ps|
  {
    if ps != [] {
      SetA0AllFrame(SetA0(s, Some(ps[0]), v), ps[1..], v);
    }
  }

  lemma KillLog(s: KState, p: Proc)
    requires Base(s) && Live(s.f, p)
    ensures s.q.log <= KillIn(s, p).q.log
  {
    hide SchedInv, TimeInv;
    KillTheorem(s.f, s.q, p);
    UnqueueAllLog(s.q, Post(s.f, p));
  }

  lemma ScheduleLog(s: KState, now: int)
    ensures s.q.log <= Schedule(s, now).q.log
    ensures Schedule(s, now).ledger == s.ledger
    ensures s.start <= now ==> s.start <= Schedule(s, now).start
  {
  }

  // --------------------------------------------------------------- what a step adds

  /** The step from `s` to `r` adds to the histories, and what it adds to the ledger are
      charges of the process that was running, for time within the step. */
  ghost predicate Adds(s: KState, r: KState) {
    && s.q.log <= r.q.log && s.ledger <= r.ledger && s.start <= r.start
    && forall i {:trigger r.ledger[i]} :: |s.ledger| <= i < |r.ledger| ==>
         && s.q.current.Some? && r.ledger[i].pid == s.f.t[s.q.current.value].pid
         && s.start <= r.ledger[i].from <= r.ledger[i].to <= r.start
  }

  lemma UpdateAdds(s: KState, now: int)
    requires s.start <= now
    ensures Adds(s, UpdateCPUTime(s, now))
    ensures Adds(s, InterruptEntry(s, now))
  {
  }

  lemma TwiceAdds(s: KState, st: Regs, t1: int, t2: int)
    requires s.start <= t1 <= t2
    ensures var r := UpdateCPUTime(Save(UpdateCPUTime(s, t1), st), t2);
            Adds(s, r) && r.start <= t2
  {
  }

  lemma AddsMore(s: KState, m: KState, r: KState)
    requires Adds(s, m) && m.q.log <= r.q.log && r.ledger == m.ledger && m.start <= r.start
    ensures Adds(s, r)
  {
  }

  lemma WakeLog(q: Sched, a: Addr, soft: bool)
    ensures q.log <= Wake(q, a, soft).0.log
  {
  }

  lemma ServeAdds(s: KState, m: KState, a: Addr, v: int)
    requires Adds(s, m)
    ensures Adds(s, Serve(m, a, v)) && Serve(m, a, v).start == m.start
  {
    WakeLog(SetSem(m.q, a, Value(m.q, a) + 1), a, true);
    AddsMore(s, m, Serve(m, a, v));
  }

  lemma ScheduleAdds(s: KState, m: KState, now: int)
    requires Adds(s, m) && m.start <= now
    ensures Adds(s, Schedule(m, now)) && Adds(s, Resume(m, now))
  {
    ScheduleLog(m, now);
    AddsMore(s, m, Schedule(m, now));
  }

  lemma BlockAdds(s: KState, st: Regs, q: Sched, c: Tod)
    requires s.start <= c.t1 <= c.t2 <= c.t3 && q.log == s.q.log
    ensures Adds(s, Schedule(Charged(Save(UpdateCPUTime(s, c.t1), st), q, c.t2), c.t3))
  {
    TwiceAdds(s, st, c.t1, c.t2);
    var m := UpdateCPUTime(Save(UpdateCPUTime(s, c.t1), st), c.t2);
    AddsMore(s, m, m.(q := q));
    ScheduleAdds(s, m.(q := q), c.t3);
  }

  lemma TerminateAdds(s: KState, st: Regs, pid: int, c: Tod)
    requires Inv(s) && s.mode == Running && s.start <= c.t1 <= c.t2
    ensures Adds(s, DoTerminate(s, st, pid, c))
  {
    hide SchedInv, TimeInv, TreeInv, Kill;
    UpdateKeeps(s, c.t1);
    UpdateAdds(s, c.t1);
    TargetIsLive(s, pid);
    if TerminateTarget(s, pid).Some? {
      var s1, p := UpdateCPUTime(s, c.t1), TerminateTarget(s, pid).value;
      KillLog(s1, p);
      var s2 := KillIn(s1, p);
      AddsMore(s, s1, s2);
      AddsMore(s, s1, s2.(q := s2.q.(current := None)));
      ScheduleAdds(s, s2.(q := s2.q.(current := None)), c.t2);
      AddsMore(s, s2, Save(s2, st));
    }
  }

  lemma TrapAdds(s: KState, c: Tod)
    requires Inv(s) && s.mode == Running && s.start <= c.t1 <= c.t2
    ensures Adds(s, DoTrap(s, c))
  {
    hide SchedInv, TimeInv, TreeInv, Kill;
    UpdateKeeps(s, c.t1);
    UpdateAdds(s, c.t1);
    BaseSplit(s);
    CurrentIsLive(s.f, s.q);
    var s1, p := UpdateCPUTime(s, c.t1), s.q.current.value;
    KillLog(s1, p);
    var s2 := KillIn(s1, p);
    AddsMore(s, s1, s2.(q := s2.q.(current := None)));
    ScheduleAdds(s, s2.(q := s2.q.(current := None)), c.t2);
  }

  lemma RequeueAdds(s: KState, m: KState, now: int)
    requires Adds(s, m) && m.start <= now
    ensures Adds(s, Schedule(m.(q := Requeue(m.q)), now))
  {
    AddsMore(s, m, m.(q := Requeue(m.q)));
    ScheduleAdds(s, m.(q := Requeue(m.q)), now);
  }

  lemma InterruptAdds(s: KState, step: Step)
    requires s.start <= step.c.t1 <= step.c.t2 && TreeInv(s.f) && RootKnown(s.f) && IsInterrupt(step.op)
    ensures Adds(s, Next(s, step))
  {
    hide Serve, Wake, WakeAll, Adds, Schedule, UpdateCPUTime, SetA0All, Requeue;
    var c := step.c;
    UpdateAdds(s, c.t1);
    var s1 := InterruptEntry(s, c.t1);
    match step.op
    case QuantumExpiry(st) =>
      SaveAdds(s, s1, st);
      RequeueAdds(s, Save(s1, st), c.t2);
    case ClockTick =>
      TickAdds(s, s1);
      var (q, woken) := Tick(s1.q);
      ScheduleAdds(s, SetA0All(s1.(q := q), woken, 0), c.t2);
    case DeviceInterrupt(line, pending, status) =>
      var dev := Devices.Lowest(pending);
      var a := DeviceSem(Devices.HandlerIndex(line, dev, false));
      ServeAdds(s, s1, a, status);
      ScheduleAdds(s, s1, c.t2);
      ScheduleAdds(s, Serve(s1, a, status), c.t2);
    case TerminalInterrupt(pending, tx, rx) =>
      ScheduleAdds(s, s1, c.t2);
      var dev := Devices.Lowest(pending);
      var a, b := DeviceSem(Devices.HandlerIndex(7, dev, true)), DeviceSem(Devices.HandlerIndex(7, dev, false));
      ServeAdds(s, s1, a, tx);
      var s2 := if tx % 256 != 0 then Serve(s1, a, tx) else s1;
      ServeAdds(s, s2, b, rx);
      ScheduleAdds(s, if rx % 256 != 0 then Serve(s2, b, rx) else s2, c.t2);
  }

  lemma SaveAdds(s: KState, m: KState, st: Regs)
    requires Adds(s, m)
    ensures Adds(s, Save(m, st)) && Save(m, st).start == m.start
  {
    AddsMore(s, m, Save(m, st));
  }

  lemma TickAdds(s: KState, m: KState)
    requires Adds(s, m)
    ensures var (q, woken) := Tick(m.q);
            Adds(s, SetA0All(m.(q := q), woken, 0)) && SetA0All(m.(q := q), woken, 0).start == m.start
  {
    WakeAllLog(m.q, CLOCK);
    var (q, woken) := Tick(m.q);
    SetA0AllFrame(m.(q := q), woken, 0);
    AddsMore(s, m, SetA0All(m.(q := q), woken, 0));
  }

  /** Nobody is charged but the process that was running, and only for time since the
      last clock reading: the intervals of one step follow the earlier ones. */
  lemma StepAdds(s: KState, step: Step)
    requires Inv(s) && Enabled(s, step)
    ensures Adds(s, Next(s, step))
  {
    var c := step.c;
    if IsInterrupt(step.op) {
      InterruptAdds(s, step);
    } else {
      SyscallAdds(s, step);
    }
  }

  lemma SyscallAdds(s: KState, step: Step)
    requires Inv(s) && Enabled(s, step) && !IsInterrupt(step.op)
    ensures Adds(s, Next(s, step))
  {
    hide SchedInv, TimeInv, TreeInv, DoTerminate, DoTrap, Wake;
    var c := step.c;
    UpdateAdds(s, c.t1);
    var s1 := UpdateCPUTime(s, c.t1);
    match step.op
    case CreateProcess(st, child, prio, support) =>
    case TerminateProcess(st, pid) => TerminateAdds(s, st, pid, c);
    case Passeren(st, a) =>
      AddsMore(s, s1, Save(s1, st).(q := SemWait(s.q, a)));
      BlockAdds(s, st, SemWait(s.q, a), c);
    case Verhogen(st, a) =>
      WakeLog(SetSem(s.q, a, Value(s.q, a) + 1), a, false);
      AddsMore(s, s1, DoVerhogen(s, st, a, c));
    case DoIO(st, addr) =>
      if Devices.Accepted(addr) {
        BlockAdds(s, st, AwaitDevice(s.q, DeviceSem(Devices.SemIndex(addr))), c);
      }
    case GetCPUTime(st) =>
    case WaitForClock(st) => BlockAdds(s, st, AwaitDevice(s.q, CLOCK), c);
    case Yield(st) =>
      AddsMore(s, s1, Save(s1, st));
      RequeueAdds(s, Save(s1, st), c.t2);
    case PassUpOrDie => TrapAdds(s, c);
  }

  // ------------------------------------------------------------------------- runs

  lemma {:induction false} RunAdds(s: KState, steps: seq<Step>)
    requires Inv(s) && Legal(s, steps)
    ensures s.q.log <= Exec(s, steps).q.log
    decreases |steps|
  {
    hide Enabled, Next, TreeInv, SchedInv, TimeInv, ModeInv;
    if steps != [] {
      StepKeeps(s, steps[0]);
      StepAdds(s, steps[0]);
      RunAdds(Next(s, steps[0]), steps[1..]);
    }
  }

  lemma {:induction false} ReplayConcat(q: seq<Entry>, a: seq<QEvent>, b: seq<QEvent>)
    ensures Replay(q, a + b) == Replay(Replay(q, a), b)
    decreases |b|
  {
    if b == [] {
      assert a + b == a;
    } else {
      ReplayConcat(q, a, b[..|b| - 1]);
      assert (a + b)[..|a + b| - 1] == a + b[..|b| - 1];
    }
  }

  /** What happened to the ready queue during a run. */
  ghost function During(s: KState, steps: seq<Step>): seq<QEvent>
    requires Inv(s) && Legal(s, steps)
  {
    RunAdds(s, steps);
    Exec(s, steps).q.log[|s.q.log|..]
  }

  lemma ReadyReplays(s: KState, steps: seq<Step>)
    requires Inv(s) && Legal(s, steps)
    ensures var r := Exec(s, steps).q;
            Entries(r.ready, r.prio) == Replay(Entries(s.q.ready, s.q.prio), During(s, steps))
    ensures NoneTwice(Entries(s.q.ready, s.q.prio), During(s, steps))
  {
    hide *;
    DuringIs(s, steps);
    InvLogged(s);
    InvLogged(Exec(s, steps));
    LogReplays(s.q, Exec(s, steps).q, During(s, steps));
  }

  lemma DuringIs(s: KState, steps: seq<Step>)
    requires Inv(s) && Legal(s, steps)
    ensures Inv(Exec(s, steps)) && Exec(s, steps).q.log == s.q.log + During(s, steps)
  {
    hide Inv, Legal, Exec;
    RunAdds(s, steps);
    RunKeeps(s, steps);
  }

  lemma LogReplays(q: Sched, r: Sched, d: seq<QEvent>)
    requires Entries(q.ready, q.prio) == Replay([], q.log)
    requires Entries(r.ready, r.prio) == Replay([], r.log) && NoneTwice([], r.log) && r.log == q.log + d
    ensures Entries(r.ready, r.prio) == Replay(Entries(q.ready, q.prio), d)
    ensures NoneTwice(Entries(q.ready, q.prio), d)
  {
    hide *;
    ReplayConcat([], q.log, d);
    NoneTwiceSince(q.log, d);
  }

  lemma InvLogged(s: KState)
    requires Inv(s)
    ensures Entries(s.q.ready, s.q.prio) == Replay([], s.q.log) && NoneTwice([], s.q.log)
  {
    hide TreeInv, TimeInv, Placed, Counted, AllLawful, Ordered, NoneTwice, Replay, Entries;
  }

  lemma ReadySorted(s: KState)
    requires Inv(s)
    ensures EntriesSorted(Entries(s.q.ready, s.q.prio)) && NoDup(s.q.ready)
  {
    hide TreeInv, TimeInv, Counted, AllLawful, Logged;
  }

  lemma NoneTwiceSince(a: seq<QEvent>, b: seq<QEvent>)
    requires NoneTwice([], a + b)
    ensures NoneTwice(Replay([], a), b)
  {
    hide Replay, Absent;
    forall n | 0 <= n < |b| && b[n].Enq? ensures Absent(Replay(Replay([], a), b[..n]), b[n].e.p) {
      assert (a + b)[..|a| + n] == a + b[..n] && (a + b)[|a| + n] == b[n];
      ReplayConcat([], a, b[..n]);
    }
  }

  /** `x` stands at place `m` of the ready queue. */
  lemma ReadyAhead(q: Sched, m: nat)
    requires NoDup(q.ready) && m < |q.ready|
    ensures Ahead(Entries(q.ready, q.prio), q.ready[m]) == m
  {
    AheadIs(Entries(q.ready, q.prio), q.ready[m], m);
  }

  /**
   Bounded waiting in the kernel: take any reachable state and any process with m others
   ahead of it in the ready queue. In every run from there, as long as it has been neither
   dispatched nor terminated, at most m + h dispatches have taken place, where h counts
   the insertions of strictly higher priority since; and it is still ready. That it is not
   inserted a second time meanwhile is a consequence of the invariant.
   */
  lemma DispatchedInTime(s: KState, steps: seq<Step>, m: nat)
    requires Inv(s) && Legal(s, steps) && m < |s.q.ready|
    requires var x := s.q.ready[m];
             KeepsWaiting(Entries(s.q.ready, s.q.prio), x, s.q.prio[x], During(s, steps))
    ensures var x := s.q.ready[m];
            && Dispatches(During(s, steps)) <= m + HigherInsertions(During(s, steps), s.q.prio[x])
            && x in Exec(s, steps).q.ready
  {
    hide Enabled, Next, TreeInv, TimeInv;
    var x := s.q.ready[m];
    var es, log := Entries(s.q.ready, s.q.prio), During(s, steps);
    ReadySorted(s);
    ReadyAhead(s.q, m);
    ReadyReplays(s, steps);
    BoundedWaiting(es, x, s.q.prio[x], log);
    var r := Exec(s, steps).q;
    var n := Ahead(Entries(r.ready, r.prio), x);
    assert r.ready[n] == x;
  }

  // ----------------------------------------------------------------- processor time

  lemma {:induction false} TotalBounded(ledger: seq<Charge>, from: int, to: int)
    requires from <= to
    requires forall i :: 0 <= i < |ledger| ==> from <= ledger[i].from <= ledger[i].to <= to
    requires forall i, j :: 0 <= i < j < |ledger| ==> ledger[i].to <= ledger[j].from
    ensures Total(ledger) <= to - from
  {
    if ledger != [] {
      var front, last := ledger[..|ledger| - 1], ledger[|ledger| - 1];
      TotalBounded(front, from, last.from);
    }
  }

  /** The processor time charged to all processes together, the dead ones included, is
      at most the time since boot, and no two charged intervals overlap. */
  lemma TimeNotChargedTwice(s: KState)
    requires Inv(s)
    ensures Total(s.ledger) <= s.start - s.boot
    ensures forall i, j :: 0 <= i < j < |s.ledger| ==> s.ledger[i].to <= s.ledger[j].from
    ensures forall p: Proc :: Live(s.f, p) ==> s.pcb[p].time == TimeOf(s.ledger, s.f.t[p].pid)
  {
    TotalBounded(s.ledger, s.boot, s.start);
  }

  /** What SYS6 hands to its caller is the sum of the intervals charged to it so far, up
      to and including the present one. */
  lemma CPUTimeIsCharged(s: KState, now: int)
    requires Inv(s) && s.mode == Running && s.start <= now
    ensures var p := s.q.current.value; var r := UpdateCPUTime(s, now);
            && r.pcb[p].time == TimeOf(s.ledger, s.f.t[p].pid) + (now - s.start)
            && r.pcb[p].time == TimeOf(r.ledger, s.f.t[p].pid)
            && 0 <= r.pcb[p].time <= now - s.boot
  {
    hide SchedInv, TreeInv;
    var p, r := s.q.current.value, UpdateCPUTime(s, now);
    BaseSplit(s);
    CurrentIsLive(s.f, s.q);
    assert r.ledger[..|r.ledger| - 1] == s.ledger;
    TimeOfBounded(s.ledger, s.f.t[p].pid, s.boot, s.start);
  }

  lemma {:induction false} TimeOfBounded(ledger: seq<Charge>, pid: int, from: int, to: int)
    requires from <= to
    requires forall i :: 0 <= i < |ledger| ==> from <= ledger[i].from <= ledger[i].to <= to
    requires forall i, j :: 0 <= i < j < |ledger| ==> ledger[i].to <= ledger[j].from
    ensures 0 <= TimeOf(ledger, pid) <= to - from
  {
    if ledger != [] {
      var front, last := ledger[..|ledger| - 1], ledger[|ledger| - 1];
      TimeOfBounded(front, pid, from, last.from);
    }
  }

  // ------------------------------------------------------------------ process tree

  /** Terminating rootProcess frees every PCB, so that the scheduler halts. */
  lemma KillRootHalts(s: KState, now: int)
    requires Inv(s) && s.mode == Running && s.start <= now
    ensures LiveSet(KillIn(s, s.f.root).f) == {}
    ensures Schedule(KillIn(s, s.f.root), now).mode == Halted
  {
    hide Placed, Ordered, AllLawful, Logged, TimeInv, Kill;
    var root := s.f.root;
    BaseSplit(s);
    CurrentIsLive(s.f, s.q);
    KillKeeps(s.f, s.q, root);
    forall x | x in LiveSet(s.f) ensures x in Post(s.f, root) {
      RootIsAncestor(s.f, x);
      PostMembers(s.f, root, x);
    }
    var s1 := KillIn(s, root);
    KillInKeeps(s, root);
    assert LiveSet(s1.f) == {};
    NobodyIsPlaced(s1.q);
  }

  lemma NobodyIsPlaced(q: Sched)
    requires Placed(q, {})
    ensures q.ready == [] && q.current.None?
  {
    if q.ready != [] {
      ReadyIsLive(q, {});
    }
  }

  lemma ReadyIsLive(q: Sched, live: set<Proc>)
    requires Placed(q, live) && q.ready != []
    ensures q.ready[0] in live
  {
    assert q.ready[0] in q.ready;
  }

  /** The live processes are exactly those in the tree below rootProcess, and a PID
      finds its process exactly as long as that process is alive. */
  lemma TreeComplete(s: KState, p: Proc, pid: int)
    requires Inv(s)
    ensures Live(s.f, p) <==> Live(s.f, s.f.root) && p in Post(s.f, s.f.root)
    ensures FindInTree(s.f, s.f.root, pid) == Some(p) <==> Live(s.f, p) && s.f.t[p].pid == pid
  {
    hide SchedInv, TimeInv;
    FindIsComplete(s.f, pid, p);
    if Live(s.f, p) { RootIsAncestor(s.f, p); }
    if Live(s.f, s.f.root) { PostMembers(s.f, s.f.root, p); }
  }
}
