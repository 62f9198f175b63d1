/**
 How the pool of semaphore descriptors runs out in the kernel. The first process creates a
 child, lets it block on a semaphore nobody has used before, and terminates it: each such
 round leaves one empty descriptor behind. After MAXPROC rounds the pool is spent though
 nobody waits anywhere, and the next process that has to block gets lost.
 */
module Exhaustion {
  import opened Processes
  import opened ProcQueue
  import opened ProcTree
  import opened Scheduling
  import opened SchedulingKeeps
  import opened Termination
  import opened Kernel
  import opened KernelKeeps
  import opened KernelTheorems
  import opened KernelSemaphores
  import opened KernelCalls
  import Asl = SemList

  /** An ordinary semaphore variable beyond deviceSemaphores[]. */
  function Key(n: nat): Addr { DEVSEMS + SEMDEVLEN + n }

  const St := Regs(0, 0)
  const Now := Tod(0, 0, 0)

  const Creates := Step(CreateProcess(St, St, 0, false), Now)
  const Yields := Step(Yield(St), Now)
  function Waits(n: nat): Step { Step(Passeren(St, Key(n)), Now) }
  function Ends(n: nat): Step { Step(TerminateProcess(St, n + 2), Now) }

  function Round(n: nat): seq<Step> { [Creates, Yields, Waits(n), Ends(n)] }

  function Rounds(n: nat): seq<Step> {
    if n == 0 then [] else Rounds(n - 1) + Round(n - 1)
  }

  // ------------------------------------------------------------------ running a list of steps

  lemma {:induction false} RunThen(s: KState, a: seq<Step>, b: seq<Step>)
    requires Inv(s) && Legal(s, a) && (Inv(Exec(s, a)) ==> Legal(Exec(s, a), b))
    ensures Inv(Exec(s, a)) && Legal(s, a + b) && Exec(s, a + b) == Exec(Exec(s, a), b)
    decreases |a|
  {
    hide Enabled, Next, TreeInv, SchedInv, TimeInv, ModeInv;
    RunKeeps(s, a);
    if a == [] {
      assert a + b == b;
    } else {
      StepKeeps(s, a[0]);
      RunThen(Next(s, a[0]), a[1..], b);
      assert (a + b)[1..] == a[1..] + b;
    }
  }

  lemma RunNone(s: KState)
    requires Inv(s)
    ensures Legal(s, []) && Exec(s, []) == s
  {
  }

  lemma RunOne(s: KState, step: Step)
    requires Inv(s) && Enabled(s, step)
    ensures Legal(s, [step]) && Inv(Next(s, step)) && Exec(s, [step]) == Next(s, step)
  {
    hide Enabled, Next, TreeInv, SchedInv, TimeInv, ModeInv;
    StepKeeps(s, step);
    var r := Next(s, step);
    assert Legal(r, []) && Exec(r, []) == r;
    assert [step][1..] == [];
  }

  // ------------------------------------------------------------------------------ one round

  /** The key is one of the first `n`. */
  predicate Used(a: Addr, n: nat) { Key(0) <= a < Key(n) }

  /** The semaphores: `n` empty descriptors, every ordinary value 0. */
  ghost predicate Drained(q: Sched, n: nat) {
    && (forall a :: a in q.asl.active <==> Used(a, n))
    && (forall a :: Asl.Queue(q.asl, a) == [])
    && (forall a :: !IsSoft(a) ==> Value(q, a) == 0)
  }

  /** Only the first process lives, and it runs. */
  ghost predicate Alone(s: KState, n: nat) {
    && Inv(s) && s.mode == Running && s.q.current == Some(ROOT) && LiveSet(s.f) == {ROOT}
    && s.f.root == ROOT && s.q.prio[ROOT] == 0 && s.f.next == n + 2 && s.start <= 0
  }

  ghost predicate Spent(s: KState, n: nat) {
    Alone(s, n) && Drained(s.q, n)
  }

  /** The first process has a child `c`. */
  ghost predicate Pair(s: KState, n: nat, c: Proc) {
    && Inv(s) && s.mode == Running && c != ROOT && LiveSet(s.f) == {ROOT, c} && s.f.t[c].pid == n + 2
    && s.f.root == ROOT && s.q.prio[ROOT] == 0 && s.q.prio[c] == 0 && s.f.next == n + 3 && s.start <= 0
  }

  lemma SomebodyFree(s: KState, n: nat)
    requires Alone(s, n) && 2 <= MAXPROC
    ensures s.q.free != [] && s.q.free[0] != ROOT && s.q.ready == []
  {
    hide TreeInv, TimeInv, Counted, AllLawful, Ordered, Logged;
    var p: Proc := 0;
    assert p !in LiveSet(s.f) && p in s.q.free;
    assert s.q.free[0] in s.q.free && ROOT in LiveSet(s.f);
    ReadyIsElse(s.q, LiveSet(s.f));
  }

  lemma ReadyIsElse(q: Sched, live: set<Proc>)
    requires Placed(q, live)
    ensures q.ready != [] ==> q.ready[0] in live && q.current != Some(q.ready[0])
  {
    assert q.ready != [] ==> q.ready[0] in q.ready;
  }

  lemma CreateStep(s: KState, n: nat)
    requires Spent(s, n) && 2 <= MAXPROC
    ensures Enabled(s, Creates) && s.q.free != []
    ensures var r, c := Next(s, Creates), s.q.free[0];
            Pair(r, n, c) && Drained(r.q, n) && r.q.current == Some(ROOT) && r.q.ready == [c]
  {
    hide TreeInv, SchedInv, TimeInv, Drained, Insert;
    SomebodyFree(s, n);
    StepKeeps(s, Creates);
    CreateReturnsChild(s, ROOT, St, St, 0, false);
    CreateFields(s, s.q.free[0]);
    DrainedSame(s.q, Next(s, Creates).q, n);
  }

  lemma CreateFields(s: KState, c: Proc)
    requires s.q.current == Some(ROOT) && s.q.free != [] && c == s.q.free[0] && c != ROOT && s.q.ready == []
    ensures var r := DoCreate(s, St, St, 0, false);
            && r.q.ready == [c] && r.q.asl == s.q.asl && r.q.sem == s.q.sem && r.q.prio == s.q.prio[c := 0]
            && r.f.next == s.f.next + 1 && r.f.root == s.f.root && r.f.t[c].pid == s.f.next && r.start == s.start
            && r.mode == s.mode && r.q.current == s.q.current
  {
    EmptyQueueInsert(s.q.prio[c := 0], c);
  }

  lemma DrainedSame(q: Sched, r: Sched, n: nat)
    requires Drained(q, n) && r.asl == q.asl && r.sem == q.sem
    ensures Drained(r, n)
  {
    assert forall a :: Value(r, a) == Value(q, a);
  }

  lemma YieldStep(s: KState, n: nat, c: Proc)
    requires Pair(s, n, c) && Drained(s.q, n) && s.q.current == Some(ROOT) && s.q.ready == [c]
    ensures Enabled(s, Yields)
    ensures var r := Next(s, Yields);
            Pair(r, n, c) && Drained(r.q, n) && r.q.current == Some(c) && r.q.ready == [ROOT]
  {
    hide TreeInv, SchedInv, TimeInv, Drained, LiveSet;
    StepKeeps(s, Yields);
    YieldFields(s, c);
    DrainedSame(s.q, Next(s, Yields).q, n);
  }

  lemma YieldFields(s: KState, c: Proc)
    requires s.q.current == Some(ROOT) && s.q.ready == [c] && s.q.prio[ROOT] == s.q.prio[c]
    ensures var r := DoYield(s, St, Now);
            && r.q.ready == [ROOT] && r.q.current == Some(c) && r.mode == Running && r.start == 0
            && r.q.asl == s.q.asl && r.q.sem == s.q.sem && r.q.prio == s.q.prio && r.f == s.f
  {
    assert Insert([c], s.q.prio, ROOT) == [c, ROOT];
  }

  lemma {:induction false} UsedCount(keys: set<Addr>, n: nat)
    requires forall a :: a in keys <==> Used(a, n)
    ensures |keys| == n
  {
    if n == 0 {
      forall a ensures a !in keys { assert !Used(a, 0); }
      NoMembers(keys);
    } else {
      UsedCount(keys - {Key(n - 1)}, n - 1);
    }
  }

  lemma PoolLeft(s: KState, n: nat)
    requires Inv(s) && Drained(s.q, n)
    ensures s.q.asl.free == MAXPROC - n && Key(n) !in s.q.asl.active && Value(s.q, Key(n)) == 0
  {
    hide TreeInv, TimeInv, Placed, AllLawful, Ordered, Logged;
    UsedCount(s.q.asl.active.Keys, n);
  }

  lemma WaitStep(s: KState, n: nat, c: Proc)
    requires Pair(s, n, c) && Drained(s.q, n) && s.q.current == Some(c) && s.q.ready == [ROOT] && n < MAXPROC
    ensures Enabled(s, Waits(n))
    ensures var r := Next(s, Waits(n));
            && Pair(r, n, c) && r.q.current == Some(ROOT) && r.q.ready == []
            && r.q.asl.active == s.q.asl.active[Key(n) := [c]] && r.q.sem == s.q.sem[Key(n) := -1]
            && r.q.semAdd[c] == Key(n)
  {
    hide TreeInv, SchedInv, TimeInv, Drained, LiveSet;
    PoolLeft(s, n);
    StepKeeps(s, Waits(n));
    WaitFields(s, n, c);
  }

  lemma WaitFields(s: KState, n: nat, c: Proc)
    requires s.q.current == Some(c) && s.q.ready == [ROOT] && Value(s.q, Key(n)) == 0
    requires Key(n) !in s.q.asl.active && s.q.asl.free > 0
    ensures var r := DoPasseren(s, St, Key(n), Now);
            && r.q.current == Some(ROOT) && r.q.ready == [] && r.mode == Running && r.start == 0
            && r.q.asl.active == s.q.asl.active[Key(n) := [c]] && r.q.sem == s.q.sem[Key(n) := -1]
            && r.q.semAdd[c] == Key(n) && r.q.prio == s.q.prio && r.f == s.f
  {
    EmptyQueueInsert(s.q.prio, c);
  }

  lemma EndStep(s: KState, q: Sched, n: nat, c: Proc)
    requires Pair(s, n, c) && s.q.current == Some(ROOT) && s.q.ready == [] && Drained(q, n)
    requires s.q.asl.active == q.asl.active[Key(n) := [c]] && s.q.sem == q.sem[Key(n) := -1]
    ensures Enabled(s, Ends(n)) && Spent(Next(s, Ends(n)), n + 1)
  {
    hide TreeInv, SchedInv, TimeInv, Drained, Kill, LiveSet;
    StepKeeps(s, Ends(n));
    BaseSplit(s);
    TerminateTargets(s, St, n + 2, Now);
    PairLives(s, n, c);
    assert TerminateTarget(s, n + 2) == Some(c);
    var s1 := UpdateCPUTime(s, 0);
    UpdateKeeps(s, 0);
    OnlyChild(s1.f, s1.q, c);
    var r := Next(s, Ends(n));
    assert r.f == Kill(s.f, s.q, c).0;
    assert r.q == Kill(s.f, s.q, c).1;
    DrainedAgain(q, s.q, r.q, n, c);
  }

  lemma PairLives(s: KState, n: nat, c: Proc)
    requires Pair(s, n, c)
    ensures Live(s.f, c) && Live(s.f, ROOT)
  {
    assert c in LiveSet(s.f) && ROOT in LiveSet(s.f);
  }

  /** The death of the child, which has no children of its own. */
  lemma OnlyChild(f: Forest, q: Sched, c: Proc)
    requires Core(f, q) && LiveSet(f) == {ROOT, c} && c != ROOT && f.root == ROOT && q.current == Some(ROOT)
    ensures var (g, r) := Kill(f, q, c);
            && LiveSet(g) == {ROOT} && g.next == f.next && g.root == ROOT
            && r.current == q.current && r.prio == q.prio
            && r.asl.active.Keys == q.asl.active.Keys
            && (forall a {:trigger Asl.Queue(r.asl, a)} :: Asl.Queue(r.asl, a) == Minus(Asl.Queue(q.asl, a), {c}))
            && (forall a {:trigger Value(r, a)} :: Value(r, a) == Value(q, a) +
                  (if IsSoft(a) then 0 else |Asl.Queue(q.asl, a)| - |Asl.Queue(r.asl, a)|))
  {
    hide TreeInv, SchedInv, Kill;
    CoreParts(f, q);
    KillKeeps(f, q, c);
    KillFreesSubtree(f, q, c);
    PostMembers(f, c, c);
    NotBelow(f, c);
    assert Members(Post(f, c)) == {c};
  }

  lemma CoreParts(f: Forest, q: Sched)
    requires Core(f, q)
    ensures TreeInv(f) && SchedInv(q, LiveSet(f)) && Placed(q, LiveSet(f))
    ensures forall p: Proc :: p in LiveSet(f) ==> Live(f, p)
  {
  }

  lemma NotBelow(f: Forest, c: Proc)
    requires TreeInv(f) && LiveSet(f) == {ROOT, c} && c != ROOT && f.root == ROOT
    ensures Live(f, c) && forall x: Proc :: x in Post(f, c) ==> x == c
  {
    hide TreeInv, Ancestor;
    assert c in LiveSet(f) && ROOT in LiveSet(f);
    RootIsAncestor(f, c);
    AncestorOlder(f, ROOT, c);
    forall x: Proc | x in Post(f, c) ensures x == c {
      PostMembers(f, c, x);
      AncestorOlder(f, c, x);
      assert x in LiveSet(f);
    }
  }

  lemma DrainedAgain(q: Sched, m: Sched, r: Sched, n: nat, c: Proc)
    requires Drained(q, n) && m.asl.active == q.asl.active[Key(n) := [c]] && m.sem == q.sem[Key(n) := -1]
    requires r.asl.active.Keys == m.asl.active.Keys
    requires forall a {:trigger Asl.Queue(r.asl, a)} :: Asl.Queue(r.asl, a) == Minus(Asl.Queue(m.asl, a), {c})
    requires forall a {:trigger Value(r, a)} :: Value(r, a) == Value(m, a) +
               (if IsSoft(a) then 0 else |Asl.Queue(m.asl, a)| - |Asl.Queue(r.asl, a)|)
    ensures Drained(r, n + 1)
  {
    assert Minus([c], {c}) == [];
    forall a ensures Asl.Queue(m.asl, a) == if a == Key(n) then [c] else [] {
      assert Asl.Queue(q.asl, a) == [];
    }
    forall a ensures Asl.Queue(r.asl, a) == [] { }
    forall a ensures a in r.asl.active <==> Used(a, n + 1) { }
    forall a | !IsSoft(a) ensures Value(r, a) == 0 {
      assert Asl.Queue(r.asl, a) == [];
      assert Value(q, a) == 0;
      assert Value(r, a) == Value(m, a) + |Asl.Queue(m.asl, a)|;
    }
  }

  lemma RoundSpends(s: KState, n: nat)
    requires Spent(s, n) && n < MAXPROC && 2 <= MAXPROC
    ensures Inv(s) && Legal(s, Round(n)) && Spent(Exec(s, Round(n)), n + 1)
  {
    hide Next, Enabled, Drained, Pair, Inv, Alone, Legal, Exec, TreeInv, RootKnown;
    SpentInv(s, n);
    ChildRuns(s, n);
    var c, s2 := s.q.free[0], Exec(s, [Creates, Yields]);
    PairInv(s2, n, c);
    WaitStep(s2, n, c);
    PairInv(Next(s2, Waits(n)), n, c);
    RunOne(s2, Waits(n));
    RunThen(s, [Creates, Yields], [Waits(n)]);
    var s3 := Next(s2, Waits(n));
    EndStep(s3, s2.q, n, c);
    RunOne(s3, Ends(n));
    RunThen(s, [Creates, Yields] + [Waits(n)], [Ends(n)]);
    assert Round(n) == [Creates, Yields] + [Waits(n)] + [Ends(n)];
  }

  lemma PairInv(s: KState, n: nat, c: Proc)
    requires Pair(s, n, c)
    ensures Inv(s) && TreeInv(s.f) && RootKnown(s.f)
  {
  }

  /** The first two steps of a round: the child runs. */
  lemma ChildRuns(s: KState, n: nat)
    requires Spent(s, n) && 2 <= MAXPROC
    ensures Inv(s) && Legal(s, [Creates, Yields]) && s.q.free != []
    ensures var r, c := Exec(s, [Creates, Yields]), s.q.free[0];
            Pair(r, n, c) && Drained(r.q, n) && r.q.current == Some(c) && r.q.ready == [ROOT]
  {
    hide Next, Enabled, Drained, Pair, Inv;
    SpentInv(s, n);
    CreateStep(s, n);
    var c, s1 := s.q.free[0], Next(s, Creates);
    RunOne(s, Creates);
    YieldStep(s1, n, c);
    RunOne(s1, Yields);
    RunThen(s, [Creates], [Yields]);
    assert [Creates, Yields] == [Creates] + [Yields];
  }

  lemma SpentInv(s: KState, n: nat)
    requires Spent(s, n)
    ensures Inv(s) && TreeInv(s.f) && RootKnown(s.f)
  {
  }

  function Start(): KState { Boot(map[], 0) }

  lemma StartIsFresh()
    ensures Spent(Start(), 0)
  {
    hide TreeInv, SchedInv, TimeInv;
    BootKeeps(map[], 0);
    BootTree(map[], 0);
    BootFields();
    BootDrained(Start().q);
  }

  lemma BootFields()
    ensures var s := Start();
            && s.mode == Running && s.q.current == Some(ROOT) && s.f == InitKernel(map[], 0).f && s.f.next == 2
            && s.f.root == ROOT && s.start == 0 && s.q.prio[ROOT] == 0
            && s.q.asl.active == map[] && s.q.sem == DevicesZeroed(map[], SEMDEVLEN)
  {
    hide DevicesZeroed;
    EmptyQueueInsert(NoProcess(map[]).prio[ROOT := 0], ROOT);
  }

  lemma BootDrained(q: Sched)
    requires q.asl.active == map[] && q.sem == DevicesZeroed(map[], SEMDEVLEN)
    ensures Drained(q, 0)
  {
    hide DevicesZeroed;
    forall a ensures Value(q, a) == 0 { DevicesAreZero(map[], SEMDEVLEN, a); }
  }

  lemma {:induction false} RoundsSpend(s: KState, n: nat)
    requires Spent(s, 0) && n <= MAXPROC && 2 <= MAXPROC
    ensures Inv(s) && Legal(s, Rounds(n)) && Spent(Exec(s, Rounds(n)), n)
  {
    hide *;
    SpentInv(s, 0);
    RoundsAre(n);
    if n == 0 {
      RunNone(s);
    } else {
      RoundsSpend(s, n - 1);
      var r := Exec(s, Rounds(n - 1));
      RoundSpends(r, n - 1);
      RunThen(s, Rounds(n - 1), Round(n - 1));
    }
  }

  lemma RoundsAre(n: nat)
    ensures Rounds(n) == if n == 0 then [] else Rounds(n - 1) + Round(n - 1)
  {
  }

  /** A run of the kernel after which nobody waits on any semaphore and yet the running
      process cannot be blocked: its P is let through to `insertBlocked`, which has no
      descriptor for it, and afterwards that process is in no place at all. */
  lemma DescriptorsRunOut()
    requires 2 <= MAXPROC
    ensures var s, steps := Start(), Rounds(MAXPROC) + [Creates, Yields];
            && Inv(s) && Legal(s, steps) && Inv(Exec(s, steps))
            && var r := Exec(s, steps);
               && (forall a :: Asl.Queue(r.q.asl, a) == []) && r.q.current.Some?
               && Willing(r, Waits(MAXPROC)) && !HasDescriptor(r, Waits(MAXPROC).op)
               && Places(Next(r, Waits(MAXPROC)).q, r.q.current.value) == 0
  {
    hide Next, Enabled, Drained, Pair, Inv;
    StartIsFresh();
    RoundsSpend(Start(), MAXPROC);
    var s := Exec(Start(), Rounds(MAXPROC));
    SpentInv(s, MAXPROC);
    ChildRuns(s, MAXPROC);
    RunThen(Start(), Rounds(MAXPROC), [Creates, Yields]);
    var r, c := Exec(s, [Creates, Yields]), s.q.free[0];
    PairInv(r, MAXPROC, c);
    Stuck(r, c);
  }

  lemma Stuck(s: KState, c: Proc)
    requires Pair(s, MAXPROC, c) && Drained(s.q, MAXPROC) && s.q.current == Some(c) && s.q.ready == [ROOT]
    ensures (forall a :: Asl.Queue(s.q.asl, a) == [])
    ensures Willing(s, Waits(MAXPROC)) && !HasDescriptor(s, Waits(MAXPROC).op)
    ensures TreeInv(s.f) && RootKnown(s.f) && Places(Next(s, Waits(MAXPROC)).q, c) == 0
  {
    hide TreeInv, SchedInv, TimeInv;
    PoolLeft(s, MAXPROC);
    BaseSplit(s);
    LostFields(s, c);
    var r := Next(s, Waits(MAXPROC)).q;
    RunningNotFree(s.q, LiveSet(s.f));
    assert multiset(r.free)[c] == 0;
    forall a ensures a !in KernelTheorems.Waits(r, c) {
      assert Asl.Queue(s.q.asl, a) == [];
    }
    NoMembers(KernelTheorems.Waits(r, c));
  }

  lemma RunningNotFree(q: Sched, live: set<Proc>)
    requires SchedInv(q, live) && q.current.Some?
    ensures q.current.value !in q.free
  {
  }

  lemma LostFields(s: KState, c: Proc)
    requires s.q.current == Some(c) && s.q.ready == [ROOT] && Value(s.q, Key(MAXPROC)) == 0
    requires Key(MAXPROC) !in s.q.asl.active && s.q.asl.free == 0
    ensures var r := DoPasseren(s, St, Key(MAXPROC), Now);
            r.q.current == Some(ROOT) && r.q.ready == [] && r.q.asl == s.q.asl && r.q.free == s.q.free
  {
  }

  // ------------------------------------------------------------------- with a single PCB

  lemma BlockedIsElse(q: Sched, live: set<Proc>, a: Addr)
    requires Placed(q, live) && a in q.asl.active && q.asl.active[a] != []
    ensures q.current != Some(q.asl.active[a][0])
  {
    assert q.asl.active[a][0] in q.asl.active[a];
  }

  lemma OneProcessSpares(s: KState, step: Step)
    requires MAXPROC == 1 && Inv(s) && Willing(s, step) && Asl.NoEmptyQueue(s.q.asl)
    ensures Spares(s, step.op)
  {
    hide TreeInv, TimeInv, Counted, AllLawful, Ordered, Logged, Placed;
    if s.mode == Running {
      forall a ensures a !in s.q.asl.active {
        if a in s.q.asl.active { BlockedIsElse(s.q, LiveSet(s.f), a); }
      }
    }
  }

  /** Every step is one the environment may ask for; of descriptors nothing is said. */
  ghost predicate AllWilling(s: KState, steps: seq<Step>)
    requires Inv(s)
    decreases |steps|
  {
    steps == [] ||
    (Willing(s, steps[0])
     && (Enabled(s, steps[0]) ==> (StepKeeps(s, steps[0]); AllWilling(Next(s, steps[0]), steps[1..]))))
  }

  /** With MAXPROC = 1 the pool cannot run out: every run from boot is legal. */
  lemma {:induction false} OneProcessNeverStuck(s: KState, steps: seq<Step>)
    requires MAXPROC == 1 && Inv(s) && Asl.NoEmptyQueue(s.q.asl) && AllWilling(s, steps)
    ensures Legal(s, steps)
    decreases |steps|
  {
    hide Willing, Enabled, Next, Spares, Asl.NoEmptyQueue, TreeInv, SchedInv, TimeInv, ModeInv;
    if steps != [] {
      DescriptorThere(s, steps[0]);
      StepKeeps(s, steps[0]);
      OneProcessSpares(s, steps[0]);
      StepKeepsNonEmpty(s, steps[0]);
      OneProcessNeverStuck(Next(s, steps[0]), steps[1..]);
    }
  }
}
