/** What the callers of the kernel can rely on: results of single calls across the whole
    state, and pairs of calls that undo each other. */
module KernelCalls {
  import opened Processes
  import opened ProcQueue
  import opened ProcTree
  import opened Scheduling
  import opened SchedulingKeeps
  import opened Termination
  import opened Kernel
  import opened KernelKeeps
  import Asl = SemList

  /** The process `findInTree` finds from rootProcess. */
  ghost function Named(f: Forest, pid: int): Option<Proc> {
    if TreeInv(f) && RootKnown(f) then FindInTree(f, f.root, pid) else None
  }

  /** `c` has created `p` by SYS1: it is told the PID, the next in order and above that of every
      live process; `p` is found under it, is ready, and stands last among the children of `c`. */
  ghost predicate Created(s: KState, r: KState, c: Proc, p: Proc, child: Regs, prio: int, support: bool) {
    var pid := r.pcb[c].saved.a0;
    && !Live(s.f, p) && 0 < pid == s.f.next && r.f.next == pid + 1 && Named(r.f, pid) == Some(p)
    && (forall x: Proc :: Live(s.f, x) ==> s.f.t[x].pid < pid)
    && LiveSet(r.f) == LiveSet(s.f) + {p}
    && r.f.t[c].children == s.f.t[c].children + [p] && r.f.t[p].parent == Some(c)
    && p in r.q.ready && r.q.prio[p] == prio && r.pcb[p] == PcbData(0, support, child) && r.q.current == Some(c)
  }

  /** The outcome of SYS1: a new process, or -1 and nothing else when no PCB is free. */
  lemma CreateReturnsChild(s: KState, c: Proc, st: Regs, child: Regs, prio: int, support: bool)
    requires Inv(s) && s.mode == Running && s.q.current == Some(c)
    ensures var r := DoCreate(s, st, child, prio, support);
            if s.q.free == [] then r == s.(pcb := s.pcb[c := s.pcb[c].(saved := st.(a0 := -1))])
            else Created(s, r, c, s.q.free[0], child, prio, support)
  {
    if s.q.free != [] {
      CreateKeeps(s, st, child, prio, support);
      hide Inv, Base, SchedInv, TimeInv, TreeInv;
      CreatedSo(s, c, st, child, prio, support);
    }
  }

  lemma CreatedSo(s: KState, c: Proc, st: Regs, child: Regs, prio: int, support: bool)
    requires Inv(s) && s.q.current == Some(c) && s.q.free != []
    requires Inv(DoCreate(s, st, child, prio, support))
    ensures Created(s, DoCreate(s, st, child, prio, support), c, s.q.free[0], child, prio, support)
  {
    hide ModeInv;
    assert Base(s) && Base(DoCreate(s, st, child, prio, support));
    var p, r := s.q.free[0], DoCreate(s, st, child, prio, support);
    BaseSplit(s);
    BaseSplit(r);
    FreeIsDead(s.f, s.q);
    CurrentIsLive(s.f, s.q);
    CreatedFields(s, c, st, child, prio, support);
    CreatedTree(s.f, r.f, c, p);
  }

  lemma CreatedFields(s: KState, c: Proc, st: Regs, child: Regs, prio: int, support: bool)
    requires s.q.current == Some(c) && s.q.free != [] && c != s.q.free[0]
    ensures var p := s.q.free[0]; var r := DoCreate(s, st, child, prio, support);
            && r.f == InsertChild(Spawn(s.f, p), c, p) && r.pcb[c].saved.a0 == s.f.next
            && p in r.q.ready && r.q.prio[p] == prio && r.pcb[p] == PcbData(0, support, child) && r.q.current == Some(c)
  {
    hide Insert;
    InsertMembers(s.q.ready, s.q.prio[s.q.free[0] := prio], s.q.free[0]);
  }

  lemma CreatedTree(f: Forest, g: Forest, c: Proc, p: Proc)
    requires TreeInv(f) && Live(f, c) && !Live(f, p) && g == InsertChild(Spawn(f, p), c, p)
    requires TreeInv(g) && RootKnown(g)
    ensures Named(g, f.next) == Some(p) && 0 < f.next && LiveSet(g) == LiveSet(f) + {p}
    ensures forall x: Proc :: Live(f, x) ==> f.t[x].pid < f.next
    ensures g.t[c].children == f.t[c].children + [p] && g.t[p].parent == Some(c)
  {
    hide PidsDistinct, OneRoot, ParentsKnown, ChildrenKnown;
    SpawnKeepsTree(f, c, p);
    NextIsNew(f);
    FindIsComplete(g, f.next, p);
  }

  lemma NextIsNew(f: Forest)
    requires PidsDistinct(f)
    ensures 0 < f.next && forall x: Proc :: Live(f, x) ==> f.t[x].pid < f.next
  {
  }

  /** SYS2 has taken `p` out: exactly its subtree is gone, nobody is found under its PID any
      more, and the caller goes on unless it was in that subtree itself. */
  ghost predicate Terminated(s: KState, r: KState, c: Proc, p: Proc, below: seq<Proc>, st: Regs) {
    && LiveSet(r.f) == LiveSet(s.f) - Members(below) && p in below
    && Named(r.f, s.f.t[p].pid) == None
    && (c !in below ==> r.q.current == Some(c) && r.mode == Running && r.pcb[c].saved == st)
  }

  lemma TerminatedIsGone(s: KState, c: Proc, st: Regs, p: Proc, now: int)
    requires Inv(s) && s.mode == Running && s.q.current == Some(c) && Live(s.f, p) && s.start <= now
    ensures TreeInv(s.f) && Terminated(s, TerminateFound(s, st, p, now), c, p, Post(s.f, p), st)
  {
    TerminateFoundKeeps(s, st, p, now);
    TerminatedSo(s, c, st, p, now);
  }

  lemma TerminatedSo(s: KState, c: Proc, st: Regs, p: Proc, now: int)
    requires Inv(s) && s.mode == Running && s.q.current == Some(c) && Live(s.f, p) && s.start <= now
    requires Inv(TerminateFound(s, st, p, now))
    ensures TreeInv(s.f) && Terminated(s, TerminateFound(s, st, p, now), c, p, Post(s.f, p), st)
  {
    var r := TerminateFound(s, st, p, now);
    assert Base(s) && Base(r);
    hide SchedInv, TimeInv, PidsDistinct, OneRoot, ParentsKnown, ChildrenKnown, Kill, ModeInv;
    BaseSplit(s);
    KillKeeps(s.f, s.q, p);
    KillCurrent(s.f, s.q, p);
    KillRoot(s.f, s.q, p);
    assert r.f == Kill(s.f, s.q, p).0;
    assert p !in LiveSet(r.f);
    PidIsGone(s.f, r.f, p);
  }

  /** A trap leaves a process that has a support structure, and everything else, as it was; any other
      process ends with all below it, and with nobody else. */
  lemma TrapEndsOrPasses(s: KState, p: Proc, c: Tod)
    requires Inv(s) && s.q.current == Some(p)
    ensures TreeInv(s.f) && Live(s.f, p)
    ensures s.pcb[p].support ==> DoTrap(s, c) == s
    ensures !s.pcb[p].support ==> !Live(DoTrap(s, c).f, p)
    ensures forall x: Proc :: Live(DoTrap(s, c).f, x) <==>
              Live(s.f, x) && (s.pcb[p].support || !Ancestor(s.f, p, x))
  {
    assert Base(s);
    hide SchedInv, TimeInv, TreeInv, Kill, ModeInv, Ancestor, Schedule;
    BaseSplit(s);
    CurrentIsLive(s.f, s.q);
    CoreSched(s.f, s.q);
    assert TreeInv(s.f);
    KillLeaves(s.f, s.q, p);
    var s1 := KillIn(UpdateCPUTime(s, c.t1), p);
    ScheduleTree(s1.(q := s1.q.(current := None)), c.t2);
  }

  /** Who is left after a termination. */
  lemma KillLeaves(f: Forest, q: Sched, p: Proc)
    requires TreeInv(f) && SchedInv(q, LiveSet(f)) && Live(f, p)
    ensures forall x: Proc :: Live(Kill(f, q, p).0, x) <==> Live(f, x) && !Ancestor(f, p, x)
    ensures !Live(Kill(f, q, p).0, p)
  {
    hide SchedInv, TreeInv, Kill;
    KillKeeps(f, q, p);
    var g := Kill(f, q, p).0;
    forall x: Proc ensures Live(g, x) <==> Live(f, x) && !Ancestor(f, p, x) {
      PostMembers(f, p, x);
      assert x in LiveSet(g) <==> x in LiveSet(f) && x !in Post(f, p);
    }
    assert Ancestor(f, p, p);
  }

  /** Whom SYS2 is about: the caller for 0, otherwise the one process with that PID; with a
      PID nobody has the call only charges the caller. */
  lemma TerminateTargets(s: KState, st: Regs, pid: int, c: Tod)
    requires Inv(s) && s.mode == Running
    ensures TreeInv(s.f) && RootKnown(s.f)
    ensures pid == 0 ==> TerminateTarget(s, pid) == s.q.current
    ensures pid != 0 ==> forall p: Proc :: TerminateTarget(s, pid) == Some(p) <==> Live(s.f, p) && s.f.t[p].pid == pid
    ensures DoTerminate(s, st, pid, c)
         == match TerminateTarget(s, pid)
            case None => UpdateCPUTime(s, c.t1)
            case Some(p) => TerminateFound(UpdateCPUTime(s, c.t1), st, p, c.t2)
  {
    assert Base(s);
    hide SchedInv, TimeInv, PidsDistinct, OneRoot, ParentsKnown, ChildrenKnown, Kill, ModeInv;
    if pid != 0 {
      forall p: Proc ensures TerminateTarget(s, pid) == Some(p) <==> Live(s.f, p) && s.f.t[p].pid == pid {
        FindIsComplete(s.f, pid, p);
      }
    }
  }

  /** After the death of `p` nobody carries its PID. */
  lemma PidIsGone(f: Forest, g: Forest, p: Proc)
    requires TreeInv(f) && Live(f, p) && TreeInv(g) && RootKnown(g)
    requires !Live(g, p)
    requires forall x: Proc :: Live(g, x) ==> Live(f, x) && g.t[x].pid == f.t[x].pid
    ensures FindInTree(g, g.root, f.t[p].pid) == None
  {
    forall x: Proc ensures FindInTree(g, g.root, f.t[p].pid) != Some(x) {
      FindIsComplete(g, f.t[p].pid, x);
      PidIsNotHis(f, g, p, x);
    }
  }

  lemma PidIsNotHis(f: Forest, g: Forest, p: Proc, x: Proc)
    requires PidsDistinct(f) && Live(f, p) && !Live(g, p)
    requires Live(g, x) ==> Live(f, x) && g.t[x].pid == f.t[x].pid
    ensures !(Live(g, x) && g.t[x].pid == f.t[p].pid)
  {
  }

  /** V undoes P: a process that blocks on a semaphore with value 0 and is woken by the next V
      on it is ready again, as if it had yielded, and the semaphore, its descriptor and the
      counters are as they were. */
  lemma SignalUndoesWait(q: Sched, live: set<Proc>, a: Addr)
    requires SchedInv(q, live) && q.current.Some? && a != NULL && !IsSoft(a)
    requires Value(q, a) == 0 && a !in q.asl.active && 0 < q.asl.free
    ensures var r := SemSignal(SemWait(q, a), a).0; var y := Requeue(q);
            && r.ready == y.ready && r.asl == y.asl && r.semAdd == y.semAdd && r.free == y.free && r.current == None
            && (forall b :: Value(r, b) == Value(q, b))
            && r.processCount == q.processCount && r.softBlockCount == q.softBlockCount
  {
    hide Counted, AllLawful, Ordered, Logged, Insert;
    var p := q.current.value;
    assert q.semAdd[p] == NULL;
    EmptyQueueInsert(q.prio, p);
    var w := SemWait(q, a);
    assert w.asl == Asl.Asl(q.asl.active[a := [p]], q.asl.free - 1);
    assert w.asl.active - {a} == q.asl.active;
  }

  lemma EmptyQueueInsert(prio: Prios, p: Proc)
    ensures Insert([], prio, p) == [p]
  {
  }
}
