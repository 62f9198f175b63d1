/** Every queue operation of the kernel keeps the placement, counting, semaphore,
    ordering and history invariants of module Scheduling. */
module SchedulingKeeps {
  import opened Processes
  import opened ProcQueue
  import opened Scheduling
  import Asl = SemList

  // ------------------------------------------------------------ history of readyQueue

  lemma {:induction false} SlotMirrors(q: seq<Proc>, prio: Prios, k: int)
    ensures EntrySlot(Entries(q, prio), k) == Slot(q, prio, k)
  {
    if q != [] && k <= prio[q[0]] {
      SlotMirrors(q[1..], prio, k);
      assert Entries(q, prio)[1..] == Entries(q[1..], prio);
    }
  }

  lemma NoEntries(prio: Prios)
    ensures Entries([], prio) == []
  {
  }

  lemma EntriesCons(x: Proc, q: seq<Proc>, prio: Prios)
    ensures Entries([x] + q, prio) == [Entry(x, prio[x])] + Entries(q, prio)
  {
  }

  lemma {:induction false} RemoveMirrors(q: seq<Proc>, prio: Prios, p: Proc)
    ensures Entries(Remove(q, p), prio) == DropProc(Entries(q, prio), p)
  {
    hide Entries;
    if q != [] {
      var rest := q[1..];
      assert q == [q[0]] + rest;
      EntriesCons(q[0], rest, prio);
      if q[0] != p {
        RemoveMirrors(rest, prio, p);
        RemoveCons(q[0], rest, p);
        EntriesCons(q[0], Remove(rest, p), prio);
      } else {
        assert Remove(q, p) == rest;
      }
    } else {
      NoEntries(prio);
    }
  }

  lemma LogStep(q: seq<Entry>, log: seq<QEvent>, ev: QEvent)
    ensures Replay(q, log + [ev]) == Apply(Replay(q, log), ev)
    ensures NoneTwice(q, log) && (ev.Enq? ==> Absent(Replay(q, log), ev.e.p)) ==> NoneTwice(q, log + [ev])
  {
    hide Apply, Absent;
    assert (log + [ev])[..|log|] == log;
    assert forall n :: 0 <= n < |log| ==> (log + [ev])[..n] == log[..n];
  }

  lemma NotThere(ready: seq<Proc>, prio: Prios, p: Proc)
    requires p !in ready
    ensures Absent(Entries(ready, prio), p)
  {
  }

  lemma MakeReadyLogged(q: Sched, p: Proc)
    requires Logged(q) && p !in q.ready
    ensures Logged(MakeReady(q, p))
  {
    hide Slot, EntrySlot, Replay, Absent, NoneTwice;
    NotThere(q.ready, q.prio, p);
    SlotMirrors(q.ready, q.prio, q.prio[p]);
    LogStep([], q.log, Enq(Entry(p, q.prio[p])));
    var i := Slot(q.ready, q.prio, q.prio[p]);
    var es := Entries(q.ready, q.prio);
    assert Entries(Insert(q.ready, q.prio, p), q.prio) == es[..i] + [Entry(p, q.prio[p])] + es[i..];
  }

  lemma EntriesSame(ready: seq<Proc>, prio: Prios, prio': Prios)
    requires forall p: Proc :: p in ready ==> prio[p] == prio'[p]
    ensures Entries(ready, prio) == Entries(ready, prio')
  {
  }

  // ---------------------------------------------------------------- MakeReady

  /** The state between taking `p` out of wherever it was and inserting it into
      readyQueue: `p` is live, unblocked and in no queue. */
  ghost predicate Loose(q: Sched, live: set<Proc>, p: Proc) {
    && NoDup(q.free) && NoDup(q.ready)
    && (forall x: Proc :: x in q.free <==> x !in live)
    && (forall x: Proc :: x in q.ready ==> x in live && q.semAdd[x] == NULL)
    && (forall a :: a in q.asl.active ==> a != NULL && NoDup(q.asl.active[a]))
    && (forall a, x: Proc :: a in q.asl.active && x in q.asl.active[a] ==> x in live && q.semAdd[x] == a)
    && (forall x: Proc :: x in live && q.semAdd[x] != NULL ==>
          q.semAdd[x] in q.asl.active && x in q.asl.active[q.semAdd[x]])
    && (forall x: Proc :: x in live && q.semAdd[x] == NULL && x != p ==> x in q.ready || q.current == Some(x))
    && (q.current.Some? ==> var c := q.current.value; c in live && q.semAdd[c] == NULL && c !in q.ready)
    && p in live && q.semAdd[p] == NULL && p !in q.ready && q.current != Some(p)
  }

  lemma MakeReadyPlaced(q: Sched, live: set<Proc>, p: Proc)
    requires Loose(q, live, p)
    ensures Placed(MakeReady(q, p), live)
  {
    InsertMembers(q.ready, q.prio, p);
  }

  lemma MakeReadyKeeps(q: Sched, live: set<Proc>, p: Proc)
    requires Loose(q, live, p) && Counted(q, live) && AllLawful(q) && Ordered(q) && Logged(q)
    ensures SchedInv(MakeReady(q, p), live)
  {
    MakeReadyPlaced(q, live, p);
    MakeReadyLogged(q, p);
    InsertSorted(q.ready, q.prio, p);
    var r := MakeReady(q, p);
    assert SoftBlocked(r, live) == SoftBlocked(q, live);
    forall a ensures Lawful(r, a) { assert Lawful(q, a); }
  }

  lemma RequeueKeeps(q: Sched, live: set<Proc>)
    requires SchedInv(q, live)
    ensures SchedInv(Requeue(q), live)
  {
    if q.current.Some? {
      var q1 := q.(current := None);
      assert SoftBlocked(q1, live) == SoftBlocked(q, live);
      forall a ensures Lawful(q1, a) { assert Lawful(q, a); }
      MakeReadyKeeps(q1, live, q.current.value);
    }
  }

  lemma DispatchKeeps(q: Sched, live: set<Proc>)
    requires SchedInv(q, live) && q.current == None && q.ready != []
    ensures SchedInv(Dispatch(q), live)
  {
    var r := Dispatch(q);
    DispatchPlaced(q, live);
    hide Placed;
    LogStep([], q.log, Deq);
    assert Entries(q.ready[1..], q.prio) == Entries(q.ready, q.prio)[1..];
    assert SoftBlocked(r, live) == SoftBlocked(q, live);
    forall a ensures Lawful(r, a) { assert Lawful(q, a); }
  }

  lemma DispatchPlaced(q: Sched, live: set<Proc>)
    requires Placed(q, live) && q.current == None && q.ready != []
    ensures Placed(Dispatch(q), live)
  {
    assert q.ready == [q.ready[0]] + q.ready[1..];
  }

  // ----------------------------------------------------------------- blocking

  lemma BlockPlaced(q: Sched, live: set<Proc>, a: Addr)
    requires Placed(q, live) && q.current.Some? && a != NULL && Asl.Available(q.asl, a)
    ensures Placed(BlockCurrent(q, a), live)
  {
    var p := q.current.value;
    InsertMembers(Asl.Queue(q.asl, a), q.prio, p);
  }

  lemma BlockSoft(q: Sched, live: set<Proc>, a: Addr)
    requires Placed(q, live) && q.current.Some? && a != NULL
    ensures var p, now, was := q.current.value, SoftBlocked(BlockCurrent(q, a), live), SoftBlocked(q, live);
            p !in was && now == if IsSoft(a) then was + {p} else was
  {
    hide Asl.InsertBlocked;
    assert !IsSoft(NULL);
  }

  lemma BlockCounted(q: Sched, live: set<Proc>, a: Addr)
    requires Placed(q, live) && Counted(q, live) && q.current.Some? && a != NULL
    ensures Counted(BlockCurrent(q, a), live)
  {
    hide Asl.InsertBlocked, Asl.PoolConserved, Placed, SoftBlocked;
    Asl.InsertConserves(q.asl, q.prio, a, q.current.value);
    BlockSoft(q, live, a);
  }

  lemma BlockQueues(q: Sched, a: Addr, b: Addr)
    requires q.current.Some? && Asl.Available(q.asl, a)
    ensures var n := |Asl.Queue(q.asl, b)|;
            |Asl.Queue(BlockCurrent(q, a).asl, b)| == if b == a then n + 1 else n
  {
    InsertMembers(Asl.Queue(q.asl, a), q.prio, q.current.value);
  }

  lemma BlockOrdered(q: Sched, a: Addr)
    requires Ordered(q)
    ensures Ordered(BlockCurrent(q, a))
  {
    if q.current.Some? {
      InsertSorted(Asl.Queue(q.asl, a), q.prio, q.current.value);
    }
  }

  lemma SetSemKeeps(q: Sched, live: set<Proc>, a: Addr, v: int)
    requires Placed(q, live) && Counted(q, live) && Ordered(q) && Logged(q)
    ensures var r := SetSem(q, a, v); Placed(r, live) && Counted(r, live) && Ordered(r) && Logged(r)
  {
    assert SoftBlocked(SetSem(q, a, v), live) == SoftBlocked(q, live);
  }

  lemma BlockKeeps(q: Sched, live: set<Proc>, a: Addr)
    requires Placed(q, live) && Counted(q, live) && Ordered(q) && Logged(q)
    requires q.current.Some? && a != NULL && Asl.Available(q.asl, a)
    requires AllLawful(BlockCurrent(q, a))
    ensures SchedInv(BlockCurrent(q, a), live)
  {
    BlockPlaced(q, live, a);
    BlockCounted(q, live, a);
    BlockOrdered(q, a);
  }

  lemma DownLawful(q: Sched, a: Addr)
    requires AllLawful(q) && q.current.Some? && Asl.Available(q.asl, a)
    requires IsSoft(a) || Value(q, a) <= 0
    ensures AllLawful(AwaitDevice(q, a))
  {
    var q1 := SetSem(q, a, Value(q, a) - 1);
    var r := BlockCurrent(q1, a);
    forall b ensures Lawful(r, b) {
      hide Asl.InsertBlocked;
      assert Lawful(q, b);
      BlockQueues(q1, a, b);
    }
  }

  /** SYS3 on an ordinary semaphore. */
  lemma PasserenKeeps(q: Sched, live: set<Proc>, a: Addr)
    requires SchedInv(q, live) && q.current.Some? && a != NULL && !IsSoft(a)
    requires Value(q, a) <= 0 ==> Asl.Available(q.asl, a)
    ensures SchedInv(SemWait(q, a), live)
  {
    hide Placed, Counted, Ordered, Logged;
    var q1 := SetSem(q, a, Value(q, a) - 1);
    SetSemKeeps(q, live, a, Value(q, a) - 1);
    if Value(q, a) <= 0 {
      DownLawful(q, a);
      BlockKeeps(q1, live, a);
    } else {
      forall b ensures Lawful(q1, b) { assert Lawful(q, b); }
    }
  }

  /** SYS5 and SYS7. */
  lemma AwaitDeviceKeeps(q: Sched, live: set<Proc>, a: Addr)
    requires SchedInv(q, live) && q.current.Some? && IsSoft(a)
    requires Asl.Available(q.asl, a)
    ensures SchedInv(AwaitDevice(q, a), live)
  {
    hide Placed, Counted, Ordered, Logged;
    SetSemKeeps(q, live, a, Value(q, a) - 1);
    DownLawful(q, a);
    BlockKeeps(SetSem(q, a, Value(q, a) - 1), live, a);
  }

  /** Blocking keeps every PCB in a place exactly when a descriptor is available:
      with none left the caller is dropped from every queue. */
  lemma BlockPlacedIff(q: Sched, live: set<Proc>, a: Addr)
    requires Placed(q, live) && q.current.Some? && a != NULL
    ensures Placed(BlockCurrent(q, a), live) <==> Asl.Available(q.asl, a)
  {
    if Asl.Available(q.asl, a) {
      BlockPlaced(q, live, a);
    } else {
      var r := BlockCurrent(q, a);
      assert r.semAdd[q.current.value] == a && a !in r.asl.active;
    }
  }

  // ------------------------------------------------------------------- waking

  /** The state after `removeBlocked(a)` and before the insertion into readyQueue. */
  function Unblocked(q: Sched, a: Addr, soft: bool): Sched {
    var (asl, woken) := Asl.RemoveBlocked(q.asl, a);
    match woken
    case None => q.(asl := asl)
    case Some(p) =>
      q.(asl := asl, semAdd := q.semAdd[p := NULL],
         softBlockCount := if soft then q.softBlockCount - 1 else q.softBlockCount)
  }

  /** What has changed: the head `p` of the queue of `a` has left it. */
  ghost predicate HeadLeft(q: Sched, r: Sched, a: Addr, p: Proc) {
    var w := Asl.Queue(q.asl, a);
    && w != [] && r.free == q.free && r.ready == q.ready && r.current == q.current && r.semAdd == q.semAdd[p := NULL]
    && (forall b :: b in r.asl.active ==>
          b in q.asl.active && r.asl.active[b] == if b == a then w[1..] else q.asl.active[b])
    && (forall b :: b in q.asl.active && (b != a || |w| > 1) ==> b in r.asl.active)
  }

  lemma UnblockedHead(q: Sched, a: Addr, soft: bool)
    requires Asl.Queue(q.asl, a) != []
    ensures HeadLeft(q, Unblocked(q, a, soft), a, Asl.Queue(q.asl, a)[0])
  {
  }

  lemma TailMembers(w: seq<Proc>)
    requires NoDup(w) && w != []
    ensures NoDup(w[1..]) && w[0] in w && forall x: Proc :: x in w[1..] <==> x in w && x != w[0]
  {
    assert w == [w[0]] + w[1..];
  }

  /** Who waits where afterwards. */
  lemma HeadLeftQueues(q: Sched, r: Sched, live: set<Proc>, a: Addr)
    requires Placed(q, live) && Asl.Queue(q.asl, a) != [] && HeadLeft(q, r, a, Asl.Queue(q.asl, a)[0])
    ensures forall b :: b in r.asl.active ==> b != NULL && NoDup(r.asl.active[b])
    ensures forall b, x: Proc :: b in r.asl.active && x in r.asl.active[b] ==> x in live && r.semAdd[x] == b
    ensures forall x: Proc :: x in live && r.semAdd[x] != NULL ==>
              r.semAdd[x] in r.asl.active && x in r.asl.active[r.semAdd[x]]
  {
    var w := Asl.Queue(q.asl, a);
    TailMembers(w);
    hide NoDup;
    forall x: Proc | x in live && r.semAdd[x] != NULL ensures r.semAdd[x] in r.asl.active && x in r.asl.active[r.semAdd[x]] {
      assert x in q.asl.active[q.semAdd[x]];
      if q.semAdd[x] == a { assert x in w[1..]; }
    }
  }

  lemma UnblockedLoose(q: Sched, live: set<Proc>, a: Addr, soft: bool)
    requires Placed(q, live) && Asl.Queue(q.asl, a) != []
    ensures Loose(Unblocked(q, a, soft), live, Asl.Queue(q.asl, a)[0])
  {
    hide Unblocked, NoDup;
    var p, r := Asl.Queue(q.asl, a)[0], Unblocked(q, a, soft);
    UnblockedHead(q, a, soft);
    HeadLeftQueues(q, r, live, a);
    assert p in q.asl.active[a];
  }

  lemma UnblockedSoft(q: Sched, live: set<Proc>, a: Addr)
    requires Placed(q, live)
    ensures var w, r := Asl.Queue(q.asl, a), Unblocked(q, a, IsSoft(a)); var was := SoftBlocked(q, live);
            && (w != [] && IsSoft(a) ==> w[0] in was)
            && SoftBlocked(r, live) == (if w != [] && IsSoft(a) then was - {w[0]} else was)
            && r.softBlockCount == q.softBlockCount - (if w != [] && IsSoft(a) then 1 else 0)
            && r.processCount == q.processCount && r.asl == Asl.RemoveBlocked(q.asl, a).0
  {
    hide NoDup;
    var w := Asl.Queue(q.asl, a);
    assert !IsSoft(NULL);
    if w != [] { assert w[0] in w; }
  }

  lemma UnblockedCounted(q: Sched, live: set<Proc>, a: Addr)
    requires Placed(q, live) && Counted(q, live)
    ensures Counted(Unblocked(q, a, IsSoft(a)), live)
  {
    UnblockedSoft(q, live, a);
    Asl.RemoveConserves(q.asl, a);
    hide Placed, Unblocked, Asl.PoolConserved, Asl.RemoveBlocked, SoftBlocked;
  }

  lemma UnblockedQueues(q: Sched, a: Addr, soft: bool, b: Addr)
    ensures Asl.Queue(Unblocked(q, a, soft).asl, b)
         == (var w := Asl.Queue(q.asl, b); if b == a && w != [] then w[1..] else w)
  {
  }

  lemma UnblockedOrdered(q: Sched, a: Addr, soft: bool)
    requires Ordered(q)
    ensures Ordered(Unblocked(q, a, soft))
  {
  }

  /** What `removeBlocked` yields on the queue of `a`: nobody exactly when the queue is empty. */
  lemma WakeFinds(q: Sched, a: Addr, soft: bool)
    ensures Wake(q, a, soft).1 == (var w := Asl.Queue(q.asl, a); if w == [] then None else Some(w[0]))
  {
  }

  lemma WakeKeeps(q: Sched, live: set<Proc>, a: Addr)
    requires Placed(q, live) && Counted(q, live) && Ordered(q) && Logged(q)
    requires AllLawful(Unblocked(q, a, IsSoft(a)))
    ensures SchedInv(Wake(q, a, IsSoft(a)).0, live)
  {
    var soft := IsSoft(a);
    var u := Unblocked(q, a, soft);
    WakeFinds(q, a, soft);
    UnblockedCounted(q, live, a);
    UnblockedOrdered(q, a, soft);
    var w := Asl.Queue(q.asl, a);
    if w != [] {
      UnblockedLoose(q, live, a, soft);
      MakeReadyKeeps(u, live, w[0]);
    } else {
      UnblockedPlaced(q, live, a, soft);
    }
  }

  lemma UnblockedPlaced(q: Sched, live: set<Proc>, a: Addr, soft: bool)
    requires Placed(q, live) && Asl.Queue(q.asl, a) == []
    ensures Placed(Unblocked(q, a, soft), live)
  {
  }

  /** SYS4 on an ordinary semaphore; a result of at most 0 always finds a waiter. */
  lemma VerhogenKeeps(q: Sched, live: set<Proc>, a: Addr)
    requires SchedInv(q, live) && !IsSoft(a)
    ensures SchedInv(SemSignal(q, a).0, live)
    ensures Value(SemSignal(q, a).0, a) == Value(q, a) + 1
    ensures Value(q, a) + 1 <= 0 <==> SemSignal(q, a).1.Some?
    ensures SemSignal(q, a).1.Some? ==> SemSignal(q, a).1.value == Asl.Queue(q.asl, a)[0]
  {
    hide Placed, Counted, Ordered, Logged;
    var q1 := SetSem(q, a, Value(q, a) + 1);
    assert Lawful(q, a);
    SetSemKeeps(q, live, a, Value(q, a) + 1);
    if Value(q1, a) <= 0 {
      WakeFinds(q1, a, false);
      var u := Unblocked(q1, a, false);
      forall b ensures Lawful(u, b) { assert Lawful(q, b); UnblockedQueues(q1, a, false, b); }
      WakeKeeps(q1, live, a);
    } else {
      forall b ensures Lawful(q1, b) { assert Lawful(q, b); }
    }
  }

  /** A device interrupt wakes exactly the first waiter, if there is one. */
  lemma DeviceDoneKeeps(q: Sched, live: set<Proc>, a: Addr)
    requires SchedInv(q, live) && IsSoft(a)
    ensures SchedInv(DeviceDone(q, a).0, live)
    ensures DeviceDone(q, a).1 == (var w := Asl.Queue(q.asl, a); if w == [] then None else Some(w[0]))
  {
    hide Placed, Counted, Ordered, Logged;
    assert Lawful(q, a);
    if Value(q, a) < 0 {
      var q1 := SetSem(q, a, Value(q, a) + 1);
      SetSemKeeps(q, live, a, Value(q, a) + 1);
      WakeFinds(q1, a, true);
      var u := Unblocked(q1, a, true);
      forall b ensures Lawful(u, b) { assert Lawful(q, b); UnblockedQueues(q1, a, true, b); }
      WakeKeeps(q1, live, a);
    }
  }

  /** A clock tick wakes everybody who waits for it, in queue order. */
  lemma {:induction false} WakeAllKeeps(q: Sched, live: set<Proc>, a: Addr)
    requires SchedInv(q, live) && IsSoft(a)
    ensures SchedInv(WakeAll(q, a).0, live)
    ensures WakeAll(q, a).1 == Asl.Queue(q.asl, a)
    ensures Asl.Queue(WakeAll(q, a).0.asl, a) == []
    decreases |Asl.Queue(q.asl, a)|
  {
    hide Placed, Counted, Ordered, Logged, AllLawful, Wake, Unblocked, Asl.Queue;
    var w := Asl.Queue(q.asl, a);
    WakeFinds(q, a, true);
    WakeAsl(q, a, true);
    UnblockedQueues(q, a, true, a);
    UnblockedLawful(q, a);
    WakeKeeps(q, live, a);
    if w != [] {
      WakeAllKeeps(Wake(q, a, true).0, live, a);
    }
  }

  lemma WakeAsl(q: Sched, a: Addr, soft: bool)
    ensures Wake(q, a, soft).0.asl == Unblocked(q, a, soft).asl
  {
  }

  lemma UnblockedLawful(q: Sched, a: Addr)
    requires AllLawful(q) && IsSoft(a)
    ensures AllLawful(Unblocked(q, a, true))
  {
    var u := Unblocked(q, a, true);
    assert u.sem == q.sem;
    hide Unblocked;
    forall b ensures Lawful(u, b) { assert Lawful(q, b); UnblockedQueues(q, a, true, b); }
  }

  lemma TickKeeps(q: Sched, live: set<Proc>)
    requires SchedInv(q, live)
    ensures SchedInv(Tick(q).0, live)
  {
    WakeAllKeeps(q, live, CLOCK);
    var q1, r := WakeAll(q, CLOCK).0, Tick(q).0;
    SetSemKeeps(q1, live, CLOCK, 0);
    forall b ensures Lawful(r, b) { assert Lawful(q1, b); }
  }

  // ---------------------------------------------------------------- admission

  /** After `allocPcb` and the setting of the priority. */
  function Drawn(q: Sched, k: int): Sched
    requires q.free != []
  {
    q.(free := q.free[1..], prio := q.prio[q.free[0] := k], semAdd := q.semAdd[q.free[0] := NULL],
       processCount := q.processCount + 1)
  }

  lemma AdmitPlaced(q: Sched, live: set<Proc>, k: int)
    requires Placed(q, live) && q.free != []
    ensures q.free[0] !in live && Loose(Drawn(q, k), live + {q.free[0]}, q.free[0])
  {
    TailMembers(q.free);
    hide NoDup;
  }

  lemma AdmitCounted(q: Sched, live: set<Proc>, k: int)
    requires Counted(q, live) && q.free != [] && q.free[0] !in live
    ensures Counted(Drawn(q, k), live + {q.free[0]})
  {
    hide Asl.PoolConserved;
    DrawnSoft(q, live, k);
    hide SoftBlocked;
  }

  lemma DrawnSoft(q: Sched, live: set<Proc>, k: int)
    requires q.free != [] && q.free[0] !in live
    ensures SoftBlocked(Drawn(q, k), live + {q.free[0]}) == SoftBlocked(q, live)
  {
    assert !IsSoft(NULL);
  }

  /** The new priority is that of nobody in a queue. */
  lemma AdmitOrdered(q: Sched, live: set<Proc>, k: int)
    requires Placed(q, live) && Ordered(q) && Logged(q) && q.free != []
    ensures Ordered(Drawn(q, k)) && Logged(Drawn(q, k))
  {
    var p, r := q.free[0], Drawn(q, k);
    assert p in q.free && p !in q.ready;
    EntriesSame(q.ready, q.prio, r.prio);
    hide Entries, NoDup;
    forall a | a in q.asl.active ensures Sorted(q.asl.active[a], r.prio) {
      assert p !in q.asl.active[a];
    }
  }

  lemma AdmitKeeps(q: Sched, live: set<Proc>, k: int)
    requires SchedInv(q, live) && q.free != []
    ensures SchedInv(Admit(q, k), live + {q.free[0]})
  {
    AdmitPlaced(q, live, k);
    AdmitCounted(q, live, k);
    AdmitOrdered(q, live, k);
    hide Placed, Loose, Counted, Ordered, Logged;
    forall b ensures Lawful(Drawn(q, k), b) { assert Lawful(q, b); }
    MakeReadyKeeps(Drawn(q, k), live + {q.free[0]}, q.free[0]);
  }

  // -------------------------------------------------------------- termination

  lemma UnqueuePlaced(q: Sched, live: set<Proc>, p: Proc)
    requires Placed(q, live) && p in live
    ensures Placed(Unqueue(q, p), live - {p})
  {
    RemoveMembers(q.ready, p);
    var a, r := q.semAdd[p], Unqueue(q, p);
    if a != NULL {
      RemoveMembers(q.asl.active[a], p);
    }
    UnqueueCases(q, p);
    assert p !in q.free && NoDup(r.free) by { assert r.free == [p] + q.free; }
    hide Unqueue, NoDup;
  }

  lemma UnqueueCases(q: Sched, p: Proc)
    ensures var a, r := q.semAdd[p], Unqueue(q, p);
            && r.free == [p] + q.free && r.ready == Remove(q.ready, p) && r.semAdd == q.semAdd
            && r.current == (if q.current == Some(p) then None else q.current)
            && r.asl.active == if a == NULL || a !in q.asl.active then q.asl.active
                               else q.asl.active[a := Remove(q.asl.active[a], p)]
  {
  }

  lemma UnqueueCounted(q: Sched, live: set<Proc>, p: Proc)
    requires Placed(q, live) && Counted(q, live) && p in live
    ensures Counted(Unqueue(q, p), live - {p})
  {
    var r, a := Unqueue(q, p), q.semAdd[p];
    if a != NULL {
      Asl.OutConserves(q.asl, a, p);
    }
    assert !IsSoft(NULL);
    assert SoftBlocked(r, live - {p}) == SoftBlocked(q, live) - {p};
  }

  lemma UnqueueLawful(q: Sched, live: set<Proc>, p: Proc, b: Addr)
    requires Placed(q, live) && p in live && Lawful(q, b)
    ensures Lawful(Unqueue(q, p), b)
  {
    var a := q.semAdd[p];
    if a != NULL {
      RemoveMembers(q.asl.active[a], p);
    }
  }

  lemma UnqueueOrdered(q: Sched, p: Proc)
    requires Ordered(q)
    ensures Ordered(Unqueue(q, p))
  {
    RemoveSorted(q.ready, p, q.prio);
    var a := q.semAdd[p];
    if a in q.asl.active {
      RemoveSorted(q.asl.active[a], p, q.prio);
    }
  }

  lemma UnqueueKeeps(q: Sched, live: set<Proc>, p: Proc)
    requires SchedInv(q, live) && p in live
    ensures SchedInv(Unqueue(q, p), live - {p})
  {
    UnqueuePlaced(q, live, p);
    UnqueueCounted(q, live, p);
    forall b ensures Lawful(Unqueue(q, p), b) { UnqueueLawful(q, live, p, b); }
    UnqueueOrdered(q, p);
    RemoveMirrors(q.ready, q.prio, p);
    LogStep([], q.log, Del(p));
  }

  ghost function Members(ps: seq<Proc>): set<Proc> {
    set p | p in ps
  }

  lemma {:induction false} UnqueueAllKeeps(q: Sched, live: set<Proc>, ps: seq<Proc>)
    requires SchedInv(q, live) && NoDup(ps) && forall p :: p in ps ==> p in live
    ensures SchedInv(UnqueueAll(q, ps), live - Members(ps))
    decreases |ps|
  {
    hide Unqueue, Placed, Counted, AllLawful, Ordered, Logged;
    if ps == [] {
      assert live - Members(ps) == live;
    } else {
      var p, rest := ps[0], ps[1..];
      assert ps == [p] + rest;
      assert p in ps;
      UnqueueKeeps(q, live, p);
      assert forall x :: x in rest ==> x in live - {p};
      UnqueueAllKeeps(Unqueue(q, p), live - {p}, rest);
      assert live - Members(ps) == live - {p} - Members(rest);
    }
  }
}
