/**
 The part of the kernel state that decides where every PCB is: free list, ready
 queue, semaphore queues, running process, the semaphore values and the two
 counters. Each operation is what one kernel routine does to these variables.
 `log` is a history variable: the record of everything that happened to readyQueue.
 */
module Scheduling {
  import opened Processes
  import opened ProcQueue
  import Asl = SemList

  type Addrs = t: seq<Addr> | |t| == MAXPROC witness seq(MAXPROC, i => NULL)

  datatype Sched = Sched(
    free: seq<Proc>, ready: seq<Proc>, asl: Asl.Asl, sem: map<Addr, int>,
    semAdd: Addrs, prio: Prios, current: Option<Proc>,
    processCount: int, softBlockCount: int, log: seq<QEvent>)

  const SEMDEVLEN := 49

  /** The word address of deviceSemaphores[0]. */
  const DEVSEMS: Positive

  function DeviceSem(i: int): Addr { DEVSEMS + i }

  const CLOCK: Addr := DeviceSem(48)

  /** `isSoftBlockSemaphore`. */
  predicate IsSoft(a: Addr) { DEVSEMS <= a < DEVSEMS + SEMDEVLEN }

  function Value(q: Sched, a: Addr): int {
    if a in q.sem then q.sem[a] else 0
  }

  function SetSem(q: Sched, a: Addr, v: int): Sched {
    q.(sem := q.sem[a := v])
  }

  // --------------------------------------------------------------- operations

  /** `insertProcQ(&readyQueue, p)`. */
  function MakeReady(q: Sched, p: Proc): Sched {
    q.(ready := Insert(q.ready, q.prio, p), log := q.log + [Enq(Entry(p, q.prio[p]))])
  }

  /** The running process goes back to the ready queue (yield, end of quantum). */
  function Requeue(q: Sched): Sched {
    match q.current
    case None => q
    case Some(p) => MakeReady(q, p).(current := None)
  }

  /** `removeProcQ(&readyQueue)` by the scheduler. */
  function Dispatch(q: Sched): Sched
    requires q.ready != []
  {
    q.(current := Some(q.ready[0]), ready := q.ready[1..], log := q.log + [Deq])
  }

  /** `blockCurrentProcess(a)` without its time accounting. The result of
      `insertBlocked` is ignored, as in the code. */
  function BlockCurrent(q: Sched, a: Addr): Sched {
    match q.current
    case None => q
    case Some(p) =>
      q.(semAdd := q.semAdd[p := a],
         softBlockCount := if IsSoft(a) then q.softBlockCount + 1 else q.softBlockCount,
         asl := Asl.InsertBlocked(q.asl, q.prio, a, p).0,
         current := None)
  }

  /** `removeBlocked(a)` and, when it yields a process, its move to the ready queue. */
  function Wake(q: Sched, a: Addr, soft: bool): (Sched, Option<Proc>) {
    var (asl, woken) := Asl.RemoveBlocked(q.asl, a);
    match woken
    case None => (q.(asl := asl), None)
    case Some(p) =>
      (MakeReady(q.(asl := asl, semAdd := q.semAdd[p := NULL],
                    softBlockCount := if soft then q.softBlockCount - 1 else q.softBlockCount), p),
       woken)
  }

  /** SYS3 on semaphore `a`. */
  function SemWait(q: Sched, a: Addr): Sched {
    var q1 := SetSem(q, a, Value(q, a) - 1);
    if Value(q1, a) < 0 then BlockCurrent(q1, a) else q1
  }

  /** SYS4 on semaphore `a`: softBlockCount is not touched. */
  function SemSignal(q: Sched, a: Addr): (Sched, Option<Proc>) {
    var q1 := SetSem(q, a, Value(q, a) + 1);
    if Value(q1, a) <= 0 then Wake(q1, a, false) else (q1, None)
  }

  /** SYS5 and SYS7: the semaphore is decremented and the caller blocks, always. */
  function AwaitDevice(q: Sched, a: Addr): Sched {
    BlockCurrent(SetSem(q, a, Value(q, a) - 1), a)
  }

  /** An interrupt of the device whose semaphore is `a`. */
  function DeviceDone(q: Sched, a: Addr): (Sched, Option<Proc>) {
    if Value(q, a) < 0 then Wake(SetSem(q, a, Value(q, a) + 1), a, true) else (q, None)
  }

  /** The loop of the pseudo-clock tick: wake until nobody is left on `a`. */
  function WakeAll(q: Sched, a: Addr): (Sched, seq<Proc>)
    decreases |Asl.Queue(q.asl, a)|
  {
    var (q1, woken) := Wake(q, a, true);
    match woken
    case None => (q1, [])
    case Some(p) => var (q2, ps) := WakeAll(q1, a); (q2, [p] + ps)
  }

  /** The pseudo-clock tick. */
  function Tick(q: Sched): (Sched, seq<Proc>) {
    var (q1, ps) := WakeAll(q, CLOCK);
    (SetSem(q1, CLOCK, 0), ps)
  }

  /** `allocPcb` and the queueing part of `createProcess`. */
  function Admit(q: Sched, k: int): Sched
    requires q.free != []
  {
    var p := q.free[0];
    MakeReady(q.(free := q.free[1..], prio := q.prio[p := k], semAdd := q.semAdd[p := NULL],
                 processCount := q.processCount + 1), p)
  }

  /** What `recursiveTerminateProcess` does to the queues and counters for one process. */
  function Unqueue(q: Sched, p: Proc): Sched {
    var a := q.semAdd[p];
    var (asl, removed) := if a == NULL then (q.asl, false) else Asl.OutBlocked(q.asl, a, p);
    q.(asl := asl,
       softBlockCount := if removed && IsSoft(a) then q.softBlockCount - 1 else q.softBlockCount,
       sem := if removed && !IsSoft(a) then q.sem[a := Value(q, a) + 1] else q.sem,
       ready := Remove(q.ready, p),
       current := if q.current == Some(p) then None else q.current,
       free := [p] + q.free,
       processCount := q.processCount - 1,
       log := q.log + [Del(p)])
  }

  /** The processes of `ps` terminated one after the other. */
  function UnqueueAll(q: Sched, ps: seq<Proc>): Sched
    decreases |ps|
  {
    if ps == [] then q else UnqueueAll(Unqueue(q, ps[0]), ps[1..])
  }

  // --------------------------------------------------------------- invariants

  /** Every PCB is in exactly one place; `live` are the ones in use. */
  ghost predicate Placed(q: Sched, live: set<Proc>) {
    && NoDup(q.free) && NoDup(q.ready)
    && (forall p: Proc :: p in q.free <==> p !in live)
    && (forall p: Proc :: p in q.ready ==> p in live && q.semAdd[p] == NULL)
    && (forall a :: a in q.asl.active ==> a != NULL && NoDup(q.asl.active[a]))
    && (forall a, p: Proc :: a in q.asl.active && p in q.asl.active[a] ==> p in live && q.semAdd[p] == a)
    && (forall p: Proc :: p in live && q.semAdd[p] != NULL ==>
          q.semAdd[p] in q.asl.active && p in q.asl.active[q.semAdd[p]])
    && (forall p: Proc :: p in live && q.semAdd[p] == NULL ==> p in q.ready || q.current == Some(p))
    && (q.current.Some? ==> var p := q.current.value; p in live && q.semAdd[p] == NULL && p !in q.ready)
  }

  ghost function SoftBlocked(q: Sched, live: set<Proc>): set<Proc> {
    set p | p in live && IsSoft(q.semAdd[p])
  }

  ghost predicate Counted(q: Sched, live: set<Proc>) {
    && q.processCount == |live|
    && q.softBlockCount == |SoftBlocked(q, live)|
    && Asl.PoolConserved(q.asl)
  }

  /** On an ordinary semaphore a negative value counts the waiters exactly; a device
      semaphore is never positive and owes at least one wake-up to each waiter. */
  ghost predicate Lawful(q: Sched, a: Addr) {
    var n := |Asl.Queue(q.asl, a)|;
    if IsSoft(a) then Value(q, a) <= 0 && n <= -Value(q, a)
    else n == if Value(q, a) < 0 then -Value(q, a) else 0
  }

  ghost predicate AllLawful(q: Sched) {
    forall a :: Lawful(q, a)
  }

  ghost predicate Ordered(q: Sched) {
    && Sorted(q.ready, q.prio)
    && (forall a :: a in q.asl.active ==> Sorted(q.asl.active[a], q.prio))
  }

  function Entries(ready: seq<Proc>, prio: Prios): seq<Entry> {
    seq(|ready|, i requires 0 <= i < |ready| => Entry(ready[i], prio[ready[i]]))
  }

  /** The ready queue is what its history says, and nobody was inserted twice. */
  ghost predicate Logged(q: Sched) {
    Entries(q.ready, q.prio) == Replay([], q.log) && NoneTwice([], q.log)
  }

  ghost predicate SchedInv(q: Sched, live: set<Proc>) {
    Placed(q, live) && Counted(q, live) && AllLawful(q) && Ordered(q) && Logged(q)
  }
}
