/**
 The queueing half of the kernel on the linked lists themselves: ready queue, free list,
 semaphore queues and process tree are the pointer structures of PcbLists and AslLists, and
 the routines are strings of calls of pcb.c and asl.c. Each is proved to do to the abstract
 state what the corresponding operation of Scheduling, ProcTree and Termination says.
 */
module KernelLists {
  import opened Processes
  import opened ProcQueue
  import opened ProcTree
  import opened ListX
  import opened PcbLists
  import opened AslLists
  import opened Scheduling
  import opened Termination
  import SchedulingKeeps
  import KernelTheorems
  import SemList

  function Name(p: Pcb?): Option<Proc> {
    if p == null then None else Some(p.slot)
  }

  lemma MakeReadyIs(q: Sched, p: Proc)
    ensures MakeReady(q, p) == q.(ready := Insert(q.ready, q.prio, p), log := q.log + [Enq(Entry(p, q.prio[p]))])
  {
  }

  lemma BlockCurrentIs(q: Sched, p: Proc, a: Addr, asl: SemList.Asl, full: bool)
    requires q.current == Some(p) && (asl, full) == SemList.InsertBlocked(q.asl, q.prio, a, p)
    ensures BlockCurrent(q, a) == q.(semAdd := q.semAdd[p := a], asl := asl, current := None,
                                     softBlockCount := if IsSoft(a) then q.softBlockCount + 1 else q.softBlockCount)
  {
  }

  function WithSemAdd(q: Sched, p: Proc, a: Addr): Sched {
    q.(semAdd := q.semAdd[p := a])
  }

  function WithSoft(q: Sched, d: int): Sched {
    q.(softBlockCount := q.softBlockCount + d)
  }

  function WithCount(q: Sched, d: int): Sched {
    q.(processCount := q.processCount + d)
  }

  function WithPrio(q: Sched, p: Proc, k: int): Sched {
    q.(prio := q.prio[p := k])
  }

  /** After `allocPcb`. */
  function Allocated(q: Sched): Sched {
    if q.free == [] then q
    else q.(free := q.free[1..], prio := q.prio[q.free[0] := 0], semAdd := q.semAdd[q.free[0] := NULL])
  }

  lemma AllocatedIs(q: Sched)
    requires q.free != []
    ensures Allocated(q) == q.(free := q.free[1..], prio := q.prio[q.free[0] := 0], semAdd := q.semAdd[q.free[0] := NULL])
  {
  }

  lemma AdmitIs(q: Sched, k: int)
    requires q.free != []
    ensures var p := q.free[0];
            Admit(q, k) == WithCount(MakeReady(WithPrio(Allocated(q), p, k), p), 1)
  {
    var p := q.free[0];
    assert q.prio[p := 0][p := k] == q.prio[p := k];
  }

  /** The tree operations do not look at rootProcess. */
  lemma RootIsApart(f: Forest, r: Proc, c: Proc, p: Proc)
    ensures Spawn(f.(root := r), p) == Spawn(f, p).(root := r)
    ensures InsertChild(f.(root := r), c, p) == InsertChild(f, c, p).(root := r)
    ensures OutChild(f.(root := r), p) == OutChild(f, p).(root := r)
    ensures f.t[p].children != [] ==> RemoveChild(f.(root := r), p) == RemoveChild(f, p).(root := r)
  {
  }

  function WithAsl(q: Sched, asl: SemList.Asl): Sched {
    q.(asl := asl)
  }

  /** Between `removeBlocked` and `insertProcQ`. */
  function Loosened(q: Sched, asl: SemList.Asl, p: Proc, soft: bool): Sched {
    WithSoft(WithSemAdd(WithAsl(q, asl), p, NULL), if soft then -1 else 0)
  }

  lemma WakeIs(q: Sched, a: Addr, soft: bool)
    ensures var (asl, w) := SemList.RemoveBlocked(q.asl, a);
            && (w.None? ==> Wake(q, a, soft) == (WithAsl(q, asl), None))
            && (w.Some? ==>
                  Wake(q, a, soft) == (MakeReady(Loosened(q, asl, w.value, soft), w.value), w))
  {
  }

  /** Somebody woken was waiting. */
  lemma WokenWaited(v: SemList.Asl, a: Addr)
    ensures var w := SemList.RemoveBlocked(v, a).1; w.Some? ==> a in v.active && w.value in v.active[a]
  {
  }

  lemma SameQueue(was: map<ListHead, seq<Proc>>, now: map<ListHead, seq<Proc>>, h: ListHead)
    requires SameMain(was, now) && h in was && h.kind == QueueHead
    ensures h in now && now[h] == was[h]
  {
  }

  class Lists {
    const asl: AslTable
    const pcbs: PcbTable
    const readyQueue: ListHead
    var rootProcess: Proc
    var currentProcess: Pcb?
    var processCount: int
    var softBlockCount: int
    var sem: map<Addr, int>
    ghost var log: seq<QEvent>

    /** The lists are well formed, every PCB in use has a child list, and the running process
        stands in no queue. */
    ghost predicate Valid()
      reads this`currentProcess, pcbs, pcbs.mem, pcbs.mem.nodes, pcbs.table`p_parent, asl.semd_table
    {
      && asl.pcbs == pcbs && asl.Valid()
      && readyQueue in pcbs.Queues() && readyQueue.kind == QueueHead && readyQueue != pcbs.pcbFree_h
      && (forall p: Proc :: p in pcbs.FreeList() || pcbs.table[p].p_child in pcbs.Heads())
      && (currentProcess != null ==> currentProcess in pcbs.table && currentProcess.slot !in pcbs.Queued())
    }

    ghost function Forest_(): Forest
      requires Valid()
      reads this`currentProcess, this`rootProcess, pcbs, pcbs.mem, pcbs.mem.nodes, pcbs.table`p_parent, pcbs.table`p_pid, asl.semd_table
    {
      pcbs.Forest().(root := rootProcess)
    }

    ghost function Sched_(): Sched
      requires Valid()
      reads this, pcbs, pcbs.mem, pcbs.mem.nodes, pcbs.table`p_parent, pcbs.table`p_semAdd, pcbs.table`p_prio, asl.semd_table
    {
      Sched(pcbs.FreeList(), pcbs.Queues()[readyQueue], asl.View(), sem, pcbs.SemAdds(), pcbs.Prio(),
            Name(currentProcess), processCount, softBlockCount, log)
    }

    /** The static storage as the loader leaves it. */
    ghost predicate Raw()
      reads pcbs, pcbs.mem, pcbs.mem.nodes, pcbs.table
    {
      && asl.pcbs == pcbs && asl.Layout() && pcbs.Layout() && pcbs.mem.Valid()
      && pcbs.mem.rings == map[] && pcbs.mem.home == map[] && pcbs.next_pid == 1
      && (forall c :: c in pcbs.table ==> Unused(c))
      && readyQueue in pcbs.mem.nodes && readyQueue.kind == QueueHead && readyQueue != pcbs.pcbFree_h
    }

    constructor ()
      ensures Raw() && fresh(pcbs) && fresh(pcbs.mem) && fresh(pcbs.mem.nodes)
      ensures (forall c :: c in pcbs.table ==> fresh(c)) && forall d :: d in asl.semd_table ==> fresh(d)
    {
      var h := new ListHead(QueueHead, 1);
      readyQueue := h;
      var a := new AslTable({h});
      asl, pcbs := a, a.pcbs;
      rootProcess, currentProcess, processCount, softBlockCount, sem, log := 0, null, 0, 0, map[], [];
    }

    /** `initPcbs`, `initASL`, `mkEmptyProcQ(&readyQueue)`. */
    method LinkAll()
      requires Raw()
      modifies pcbs.mem, pcbs.mem.nodes
      ensures asl.pcbs == pcbs && asl.Valid() && asl.View() == SemList.Asl(map[], MAXPROC)
      ensures pcbs.Queues() == map[pcbs.pcbFree_h := FreeSlots(MAXPROC)][readyQueue := []] && pcbs.Heads() == {}
      ensures readyQueue.kind == QueueHead && readyQueue != pcbs.pcbFree_h
      ensures pcbs.next_pid == 1 && forall c :: c in pcbs.table ==> Unused(c)
    {
      hide *;
      RawParts();
      asl.Init();
      asl.Parts();
      ghost var queues, links := pcbs.Queues(), pcbs.Links();
      pcbs.Pieces();
      KindsHold();
      pcbs.QueueMissing(readyQueue);
      pcbs.MkEmptyProcQ(readyQueue);
      asl.Undisturbed(queues, links, readyQueue, []);
    }

    /** The first half of `initKernel`: lists and globals. */
    method InitGlobals(mem: map<Addr, int>)
      requires Raw()
      modifies this, pcbs.mem, pcbs.mem.nodes
      ensures Valid() && Forest_() == KernelTheorems.NoForest().(root := rootProcess)
      ensures Sched_() == KernelTheorems.NoProcess(mem) && pcbs.Data() == KernelTheorems.NoPcbs()
    {
      hide *;
      LinkAll();
      processCount := 0;
      softBlockCount := 0;
      currentProcess := null;
      log := [];
      ZeroDevices(mem);
      FirstState(mem);
    }

    lemma FirstState(mem: map<Addr, int>)
      requires asl.pcbs == pcbs && asl.Valid() && asl.View() == SemList.Asl(map[], MAXPROC)
      requires pcbs.Queues() == map[pcbs.pcbFree_h := FreeSlots(MAXPROC)][readyQueue := []] && pcbs.Heads() == {}
      requires readyQueue.kind == QueueHead && readyQueue != pcbs.pcbFree_h
      requires pcbs.next_pid == 1 && forall c :: c in pcbs.table ==> Unused(c)
      requires currentProcess == null && processCount == 0 && softBlockCount == 0 && log == []
      requires sem == KernelTheorems.DevicesZeroed(mem, SEMDEVLEN)
      ensures Valid() && Forest_() == KernelTheorems.NoForest().(root := rootProcess)
      ensures Sched_() == KernelTheorems.NoProcess(mem) && pcbs.Data() == KernelTheorems.NoPcbs()
    {
      hide *;
      asl.Parts();
      NothingYet(mem);
      pcbs.NoTree();
      AllFree();
      Closed();
      Names(currentProcess);
    }

    /** The loop over deviceSemaphores[]. */
    method ZeroDevices(mem: map<Addr, int>)
      modifies this`sem
      ensures sem == KernelTheorems.DevicesZeroed(mem, SEMDEVLEN)
    {
      sem := mem;
      for i := 0 to SEMDEVLEN
        invariant sem == KernelTheorems.DevicesZeroed(mem, i)
      {
        sem := sem[DeviceSem(i) := 0];
        ZeroedNext(mem, i);
      }
    }

    lemma ZeroedNext(mem: map<Addr, int>, i: nat)
      ensures KernelTheorems.DevicesZeroed(mem, i + 1) == KernelTheorems.DevicesZeroed(mem, i)[DeviceSem(i) := 0]
    {
    }

    lemma RawParts()
      requires Raw()
      ensures asl.pcbs == pcbs && asl.Layout() && pcbs.Layout() && pcbs.mem.Valid()
      ensures pcbs.mem.rings == map[] && pcbs.mem.home == map[] && pcbs.next_pid == 1
      ensures forall c :: c in pcbs.table ==> Unused(c) && c.p_parent == null
      ensures readyQueue in pcbs.mem.nodes && readyQueue.kind == QueueHead && readyQueue != pcbs.pcbFree_h
    {
    }

    lemma KindsHold()
      ensures HoldsProcs(QueueHead)
    {
    }

    lemma AllFree()
      ensures forall p: Proc :: p in FreeSlots(MAXPROC)
    {
      forall p: Proc ensures p in FreeSlots(MAXPROC) { KernelTheorems.FreeSlotsMembers(p); }
    }

    lemma NothingYet(mem: map<Addr, int>)
      ensures KernelTheorems.NoForest() == Forest(seq(MAXPROC, i => Node(None, [], 0)), KernelTheorems.ROOT, 1)
      ensures KernelTheorems.NoPcbs() == seq(MAXPROC, i => NoData)
      ensures KernelTheorems.NoProcess(mem) ==
              Sched(FreeSlots(MAXPROC), [], SemList.Asl(map[], MAXPROC), KernelTheorems.DevicesZeroed(mem, SEMDEVLEN),
                    seq(MAXPROC, i => NULL), seq(MAXPROC, i => 0), None, 0, 0, [])
    {
    }

    // -------------------------------------------------------- taking apart, putting together

    /** What a valid state consists of. */
    lemma Opened()
      requires Valid()
      ensures asl.pcbs == pcbs && asl.Valid() && asl.Layout() && pcbs.Layout() && pcbs.Valid()
      ensures asl.Descriptors(pcbs.Queues(), pcbs.Links())
      ensures asl.semd_h in pcbs.Links() && asl.semdFree_h in pcbs.Links()
      ensures asl.View() == asl.ViewOf(pcbs.Queues(), pcbs.Links())
      ensures readyQueue in pcbs.Queues() && readyQueue.kind == QueueHead && readyQueue != pcbs.pcbFree_h
      ensures readyQueue in pcbs.mem.rings && HoldsProcs(QueueHead)
      ensures pcbs.pcbFree_h in pcbs.Queues() && pcbs.pcbFree_h.kind == QueueHead
      ensures pcbs.FreeList() == pcbs.Queues()[pcbs.pcbFree_h]
      ensures forall p: Proc :: p in pcbs.FreeList() || pcbs.table[p].p_child in pcbs.Heads()
      ensures forall p: Proc :: pcbs.table[p] in pcbs.table && pcbs.table[p].slot == p
      ensures currentProcess != null ==> currentProcess in pcbs.table && currentProcess.slot !in pcbs.Queued()
      ensures Name(currentProcess) == if currentProcess == null then None else Some(currentProcess.slot)
      ensures Forest_() == pcbs.Forest().(root := rootProcess)
      ensures Sched_() == Sched(pcbs.FreeList(), pcbs.Queues()[readyQueue], asl.View(), sem, pcbs.SemAdds(), pcbs.Prio(),
                                Name(currentProcess), processCount, softBlockCount, log)
    {
      asl.Parts();
      asl.TableSlots();
    }

    /** What makes a valid state. */
    lemma Closed()
      requires asl.pcbs == pcbs && asl.Valid()
      requires readyQueue in pcbs.Queues() && readyQueue.kind == QueueHead && readyQueue != pcbs.pcbFree_h
      requires pcbs.pcbFree_h in pcbs.Queues()
      requires forall p: Proc :: p in pcbs.Queues()[pcbs.pcbFree_h] || pcbs.table[p].p_child in pcbs.Heads()
      requires currentProcess != null ==> currentProcess in pcbs.table && currentProcess.slot !in pcbs.Queued()
      ensures Valid()
      ensures pcbs.FreeList() == pcbs.Queues()[pcbs.pcbFree_h]
      ensures Forest_() == pcbs.Forest().(root := rootProcess)
      ensures Sched_() == Sched(pcbs.FreeList(), pcbs.Queues()[readyQueue], asl.View(), sem, pcbs.SemAdds(), pcbs.Prio(),
                                Name(currentProcess), processCount, softBlockCount, log)
      ensures Name(currentProcess) == if currentProcess == null then None else Some(currentProcess.slot)
    {
    }

    // ---------------------------------------------------------------- the ready queue

    /** `insertProcQ(&readyQueue, p)`. */
    method Ready(p: Pcb)
      requires Valid() && p in pcbs.table && p.slot !in pcbs.Queued() && p != currentProcess
      modifies this`log, pcbs.mem, pcbs.mem.nodes
      ensures Valid() && Forest_() == old(Forest_()) && Sched_() == MakeReady(old(Sched_()), p.slot)
    {
      hide *;
      Opened();
      pcbs.LooseIff(p);
      ghost var queues, links := pcbs.Queues(), pcbs.Links();
      pcbs.InsertProcQ(readyQueue, p);
      log := log + [Enq(Entry(p.slot, pcbs.Prio()[p.slot]))];
      asl.Undisturbed(queues, links, readyQueue, Insert(queues[readyQueue], pcbs.Prio(), p.slot));
      pcbs.PcbsDiffer(p);
      Closed();
      MakeReadyIs(old(Sched_()), p.slot);
    }

    /** `currentProcess = removeProcQ(&readyQueue)`. */
    method DispatchFirst()
      requires Valid() && Sched_().ready != []
      modifies this`log, this`currentProcess, pcbs.mem, pcbs.mem.nodes
      ensures Valid() && Forest_() == old(Forest_()) && Sched_() == Dispatch(old(Sched_()))
    {
      hide *;
      ghost var q := Sched_();
      Opened();
      ghost var queues, links := pcbs.Queues(), pcbs.Links();
      currentProcess := pcbs.RemoveProcQ(readyQueue);
      log := log + [Deq];
      DispatchIs(q);
      Rearranged(queues, links, queues[readyQueue][1..]);
    }

    /** The state after a change of the ready queue alone. */
    lemma Rearranged(queues: map<ListHead, seq<Proc>>, links: map<ListHead, seq<ListHead>>, ready: seq<Proc>)
      requires asl.pcbs == pcbs && asl.Layout() && pcbs.Valid() && asl.Descriptors(queues, links)
      requires pcbs.pcbFree_h in queues && readyQueue.kind == QueueHead && readyQueue != pcbs.pcbFree_h
      requires pcbs.Queues() == queues[readyQueue := ready] && pcbs.Links() == links
      requires forall x: Proc :: x in queues[pcbs.pcbFree_h] || pcbs.table[x].p_child in pcbs.Heads()
      requires currentProcess != null ==> currentProcess in pcbs.table && currentProcess.slot !in pcbs.Queued()
      ensures Valid() && Forest_() == pcbs.Forest().(root := rootProcess)
      ensures Sched_() == Sched(queues[pcbs.pcbFree_h], ready, asl.ViewOf(queues, links), sem, pcbs.SemAdds(), pcbs.Prio(),
                                Name(currentProcess), processCount, softBlockCount, log)
      ensures Name(currentProcess) == if currentProcess == null then None else Some(currentProcess.slot)
    {
      hide *;
      asl.Undisturbed(queues, links, readyQueue, ready);
      Closed();
    }

    lemma DispatchIs(q: Sched)
      requires q.ready != []
      ensures Dispatch(q) == q.(current := Some(q.ready[0]), ready := q.ready[1..], log := q.log + [Deq])
    {
    }

    method NobodyReady() returns (empty: bool)
      requires Valid()
      ensures empty <==> Sched_().ready == []
    {
      hide *;
      Opened();
      empty := pcbs.EmptyProcQ(readyQueue);
    }

    /** The end of `yield` and of a quantum. */
    method RequeueCurrent()
      requires Valid() && currentProcess != null
      modifies this`log, this`currentProcess, pcbs.mem, pcbs.mem.nodes
      ensures Valid() && Forest_() == old(Forest_()) && Sched_() == Requeue(old(Sched_()))
    {
      hide *;
      ghost var q := Sched_();
      Opened();
      var p: Pcb := currentProcess;
      currentProcess := null;
      Closed();
      Ready(p);
      RequeueIs(q, p.slot);
      MakeReadyIs(q, p.slot);
      MakeReadyIs(q.(current := None), p.slot);
    }

    lemma RequeueIs(q: Sched, p: Proc)
      requires q.current == Some(p)
      ensures Requeue(q) == MakeReady(q, p).(current := None)
    {
    }

    lemma Running()
      requires Valid()
      ensures Sched_().current == if currentProcess == null then None else Some(currentProcess.slot)
      ensures currentProcess != null ==> currentProcess in pcbs.table && pcbs.Layout() && pcbs.table[currentProcess.slot] == currentProcess
    {
      Opened();
      if currentProcess != null { pcbs.PcbsDiffer(currentProcess); }
    }

    // ------------------------------------------------------------------- semaphores

    lemma SameSlot(p: Pcb)
      requires Valid() && p in pcbs.table && currentProcess != null
      ensures p == currentProcess <==> p.slot == currentProcess.slot
    {
      Opened();
      pcbs.PcbsDiffer(p);
      pcbs.PcbsDiffer(currentProcess);
    }

    lemma Counters()
      requires Valid()
      ensures Sched_().processCount == processCount && Sched_().softBlockCount == softBlockCount
    {
    }

    method GetSemaphore(a: Addr) returns (v: int)
      requires Valid()
      ensures v == Value(Sched_(), a)
    {
      v := if a in sem then sem[a] else 0;
    }

    method SetSemaphore(a: Addr, v: int)
      requires Valid()
      modifies this`sem
      ensures Valid() && Forest_() == old(Forest_()) && Sched_() == SetSem(old(Sched_()), a, v)
    {
      hide *;
      Opened();
      sem := sem[a := v];
      Opened();
      SetSemIs(old(Sched_()), a, v);
    }

    lemma SetSemIs(q: Sched, a: Addr, v: int)
      ensures SetSem(q, a, v) == q.(sem := q.sem[a := v])
    {
    }

    /** `p->p_semAdd = a`. */
    method SetSemAdd(p: Pcb, a: Addr)
      requires Valid() && p in pcbs.table
      modifies p`p_semAdd
      ensures Valid() && Forest_() == old(Forest_())
      ensures Sched_() == WithSemAdd(old(Sched_()), p.slot, a) && p.p_semAdd == a
    {
      hide *;
      Opened();
      ghost var adds := pcbs.SemAdds();
      pcbs.PcbsDiffer(p);
      p.p_semAdd := a;
      pcbs.SemAddsAre(adds[p.slot := a]);
      Closed();
      Withs(old(Sched_()), p.slot, a, 0, asl.View());
    }

    lemma Withs(q: Sched, p: Proc, a: Addr, d: int, v: SemList.Asl)
      ensures WithSemAdd(q, p, a) == q.(semAdd := q.semAdd[p := a])
      ensures WithSoft(q, d) == q.(softBlockCount := q.softBlockCount + d)
      ensures WithAsl(q, v) == q.(asl := v)
    {
    }

    lemma LoosenedIs(q: Sched, v: SemList.Asl, p: Proc, soft: bool)
      ensures Loosened(q, v, p, soft) == WithSoft(WithSemAdd(WithAsl(q, v), p, NULL), if soft then -1 else 0)
    {
    }

    method CountSoft(d: int)
      requires Valid()
      modifies this`softBlockCount
      ensures Valid() && Forest_() == old(Forest_()) && Sched_() == WithSoft(old(Sched_()), d)
    {
      hide *;
      Opened();
      softBlockCount := softBlockCount + d;
      Opened();
      Withs(old(Sched_()), 0, 0, d, asl.View());
    }

    /** `blockCurrentProcess` without its time accounting; the result of `insertBlocked` is
        ignored. */
    method Block(a: Addr)
      requires Valid() && currentProcess != null
      modifies this`currentProcess, this`softBlockCount, pcbs.mem, pcbs.mem.nodes, currentProcess`p_semAdd, asl.semd_table
      ensures Valid() && Forest_() == old(Forest_()) && Sched_() == BlockCurrent(old(Sched_()), a)
    {
      hide *;
      ghost var q := Sched_();
      Opened();
      var p: Pcb := currentProcess;
      SetSemAdd(p, a);
      CountSoft(if IsSoft(a) then 1 else 0);
      Withs(q, p.slot, a, 0, asl.View());
      Withs(WithSemAdd(q, p.slot, a), 0, 0, if IsSoft(a) then 1 else 0, asl.View());
      Opened();
      var full := LeaveFor(p, a);
      BlockCurrentIs(q, p.slot, a, Sched_().asl, full);
    }

    /** `insertBlocked(a, currentProcess)` and `currentProcess = NULL`. */
    method LeaveFor(p: Pcb, a: Addr) returns (full: bool)
      requires Valid() && p == currentProcess && p.p_semAdd == a
      modifies this`currentProcess, pcbs.mem, pcbs.mem.nodes, p`p_semAdd, asl.semd_table
      ensures Valid() && Forest_() == old(Forest_())
      ensures (Sched_().asl, full) == SemList.InsertBlocked(old(Sched_()).asl, old(Sched_()).prio, a, p.slot)
      ensures Sched_() == old(Sched_()).(asl := Sched_().asl, current := None)
    {
      hide *;
      Opened();
      ghost var queues, adds := pcbs.Queues(), pcbs.SemAdds();
      pcbs.LooseIff(p);
      full := asl.InsertBlocked(a, p);
      currentProcess := null;
      pcbs.SemAddsAre(adds);
      SameQueue(queues, pcbs.Queues(), readyQueue);
      SameQueue(queues, pcbs.Queues(), pcbs.pcbFree_h);
      Closed();
    }

    /** `removeBlocked(a)`: whom it yields is free to be queued elsewhere. */
    method TakeBlocked(a: Addr) returns (p: Pcb?)
      requires Valid()
      modifies pcbs.mem, pcbs.mem.nodes
      ensures Valid() && Forest_() == old(Forest_())
      ensures Sched_() == WithAsl(old(Sched_()), SemList.RemoveBlocked(old(Sched_()).asl, a).0)
      ensures match SemList.RemoveBlocked(old(Sched_()).asl, a).1
              case None => p == null
              case Some(x) => p == pcbs.table[x] && p in pcbs.table && p.slot == x && p != currentProcess
      ensures Name(p) == SemList.RemoveBlocked(old(Sched_()).asl, a).1
      ensures p != null ==> p.slot !in pcbs.Queued()
    {
      hide *;
      Opened();
      ghost var queues, v := pcbs.Queues(), asl.View();
      WokenWaited(v, a);
      if a in v.active { asl.WaitersQueued(a); }
      p := asl.RemoveBlocked(a);
      SameQueue(queues, pcbs.Queues(), readyQueue);
      SameQueue(queues, pcbs.Queues(), pcbs.pcbFree_h);
      Closed();
      Names(p);
      Withs(old(Sched_()), 0, 0, 0, asl.View());
    }

    lemma Names(p: Pcb?)
      ensures Name(p) == if p == null then None else Some(p.slot)
    {
    }

    /** `removeBlocked(a)` and, when it yields a process, its move to the ready queue. */
    method WakeFirst(a: Addr, soft: bool) returns (p: Pcb?)
      requires Valid()
      modifies this`log, this`softBlockCount, pcbs.mem, pcbs.mem.nodes, pcbs.table`p_semAdd, asl.semd_table
      ensures Valid() && Forest_() == old(Forest_())
      ensures (Sched_(), Name(p)) == Wake(old(Sched_()), a, soft) && (p != null ==> p in pcbs.table)
    {
      hide *;
      ghost var q := Sched_();
      Opened();
      WakeIs(q, a, soft);
      p := TakeBlocked(a);
      if p != null { LoosenedIs(q, SemList.RemoveBlocked(q.asl, a).0, p.slot, soft); }
      if p != null {
        SetSemAdd(p, NULL);
        CountSoft(if soft then -1 else 0);
        Ready(p);
      }
    }

    // --------------------------------------------------------------------- creation

    /** `allocPcb`. */
    method Alloc() returns (p: Pcb?)
      requires Valid()
      modifies pcbs`next_pid, pcbs.mem, pcbs.mem.nodes, pcbs.table
      ensures Valid() && Sched_() == Allocated(old(Sched_()))
      ensures Name(p) == if old(Sched_()).free == [] then None else Some(old(Sched_()).free[0])
      ensures Forest_() == if p == null then old(Forest_()) else Spawn(old(Forest_()), p.slot)
      ensures pcbs.Data() == if p == null then old(pcbs.Data()) else old(pcbs.Data())[p.slot := NoData]
      ensures p != null ==>
        p in pcbs.table && p.slot !in pcbs.Queued() && p.p_parent == null && p != currentProcess && p == pcbs.table[p.slot]
    {
      hide *;
      ghost var q, queues, links, heads := Sched_(), pcbs.Queues(), pcbs.Links(), pcbs.Heads();
      Opened();
      pcbs.MembersQueued(pcbs.pcbFree_h);
      p := pcbs.AllocPcb();
      Names(p);
      if p == null {
        NoneAllocated(q);
        Rearranged(queues, links, queues[readyQueue]);
      } else {
        RootIsApart(old(pcbs.Forest()), rootProcess, p.slot, p.slot);
        AllocDone(q, queues, links, heads, p);
      }
    }

    /** The state after `allocPcb` has taken the first free PCB. */
    lemma AllocDone(q: Sched, queues: map<ListHead, seq<Proc>>, links: map<ListHead, seq<ListHead>>, heads: set<ListHead>, p: Pcb)
      requires asl.pcbs == pcbs && asl.Layout() && pcbs.Valid() && asl.Descriptors(queues, links)
      requires pcbs.pcbFree_h in queues && pcbs.pcbFree_h.kind == QueueHead && queues[pcbs.pcbFree_h] != []
      requires readyQueue in queues && readyQueue.kind == QueueHead && readyQueue != pcbs.pcbFree_h
      requires pcbs.Queues() == queues[pcbs.pcbFree_h := queues[pcbs.pcbFree_h][1..]] && pcbs.Links() == links
      requires p.slot == queues[pcbs.pcbFree_h][0] && p == pcbs.table[p.slot] && pcbs.Heads() == heads + {p.p_child}
      requires forall x: Proc :: x in queues[pcbs.pcbFree_h] || pcbs.table[x].p_child in heads
      requires currentProcess != null ==> currentProcess in pcbs.table && currentProcess.slot !in pcbs.Queued()
      requires q == Sched(queues[pcbs.pcbFree_h], queues[readyQueue], asl.ViewOf(queues, links), sem, q.semAdd, q.prio,
                          Name(currentProcess), processCount, softBlockCount, log)
      requires pcbs.SemAdds() == q.semAdd[p.slot := NULL] && pcbs.Prio() == q.prio[p.slot := 0]
      ensures Valid() && Sched_() == Allocated(q) && Forest_() == pcbs.Forest().(root := rootProcess)
    {
      hide *;
      asl.Undisturbed(queues, links, pcbs.pcbFree_h, queues[pcbs.pcbFree_h][1..]);
      AllocatedIs(q);
      Closed();
    }

    lemma NoneAllocated(q: Sched)
      requires q.free == []
      ensures Allocated(q) == q
    {
    }

    method SetPrio(p: Pcb, k: int)
      requires Valid() && p in pcbs.table
      modifies p`p_prio
      ensures Valid() && Forest_() == old(Forest_()) && Sched_() == WithPrio(old(Sched_()), p.slot, k)
    {
      hide *;
      Opened();
      ghost var prio := pcbs.Prio();
      pcbs.PcbsDiffer(p);
      p.p_prio := k;
      pcbs.PrioIs(prio[p.slot := k]);
      Closed();
      Counts(old(Sched_()), p.slot, k, 0);
    }

    lemma Counts(q: Sched, p: Proc, k: int, d: int)
      ensures WithPrio(q, p, k) == q.(prio := q.prio[p := k])
      ensures WithCount(q, d) == q.(processCount := q.processCount + d)
    {
    }

    method CountProcess(d: int)
      requires Valid()
      modifies this`processCount
      ensures Valid() && Forest_() == old(Forest_()) && Sched_() == WithCount(old(Sched_()), d)
    {
      hide *;
      Opened();
      processCount := processCount + d;
      Opened();
      Counts(old(Sched_()), 0, 0, d);
    }

    /** `insertChild(currentProcess, p)`. */
    method Adopt(p: Pcb)
      requires Valid() && currentProcess != null && p in pcbs.table && p.slot !in pcbs.Queued() && p.p_parent == null
      modifies p`p_parent, pcbs.mem, pcbs.mem.nodes
      ensures Valid() && Sched_() == old(Sched_()) && pcbs.Queued() == old(pcbs.Queued())
      ensures Forest_() == InsertChild(old(Forest_()), currentProcess.slot, p.slot)
    {
      hide *;
      Opened();
      pcbs.MembersQueued(pcbs.pcbFree_h);
      var c: Pcb := currentProcess;
      pcbs.PcbsDiffer(c);
      pcbs.KidsHeadThere(c);
      pcbs.InsertChild(c, p);
      asl.Whole();
      Closed();
      RootIsApart(old(pcbs.Forest()), rootProcess, c.slot, p.slot);
    }

    /** `createProcess` as far as lists and counters go. */
    method Create(prio: int) returns (p: Pcb?)
      requires Valid() && currentProcess != null
      modifies this`log, this`processCount, pcbs`next_pid, pcbs.mem, pcbs.mem.nodes, pcbs.table
      ensures Valid() && Name(p) == (if old(Sched_()).free == [] then None else Some(old(Sched_()).free[0]))
      ensures p == null ==> Sched_() == old(Sched_()) && Forest_() == old(Forest_()) && pcbs.Data() == old(pcbs.Data())
      ensures p != null ==> p in pcbs.table && p == pcbs.table[p.slot] && Sched_() == Admit(old(Sched_()), prio)
      ensures p != null ==> Forest_() == InsertChild(Spawn(old(Forest_()), p.slot), currentProcess.slot, p.slot)
      ensures p != null ==> pcbs.Data() == old(pcbs.Data())[p.slot := NoData]
    {
      hide *;
      ghost var q := Sched_();
      p := Alloc();
      if p == null {
        Names(p);
        NoneAllocated(q);
        return;
      }
      Names(p);
      Enrol(p, prio);
      AdmitIs(q, prio);
    }

    /** What follows `allocPcb` there. */
    method Enrol(p: Pcb, prio: int)
      requires Valid() && currentProcess != null && p != currentProcess
      requires p in pcbs.table && p.slot !in pcbs.Queued() && p.p_parent == null
      modifies this`log, this`processCount, pcbs.mem, pcbs.mem.nodes, p`p_prio, p`p_parent
      ensures Valid() && Sched_() == WithCount(MakeReady(WithPrio(old(Sched_()), p.slot, prio), p.slot), 1)
      ensures Forest_() == InsertChild(old(Forest_()), currentProcess.slot, p.slot)
    {
      hide *;
      SetPrio(p, prio);
      Adopt(p);
      Ready(p);
      CountProcess(1);
    }

    /** The second half of `initKernel`: the first process. */
    method FirstProcess()
      requires Valid() && currentProcess == null && Sched_().free != []
      modifies this, pcbs, pcbs.mem, pcbs.mem.nodes, pcbs.table
      ensures Valid() && Sched_() == Admit(old(Sched_()), 0)
      ensures var p := old(Sched_()).free[0];
              && Forest_() == Spawn(old(Forest_()), p).(root := p) && pcbs.Data() == old(pcbs.Data())[p := NoData]
    {
      hide *;
      ghost var q := Sched_();
      var p := Alloc();
      Names(p);
      SetPrio(p, 0);
      SetRoot(p.slot);
      Ready(p);
      CountProcess(1);
      AdmitIs(q, 0);
    }

    /** `initKernel` up to the call of the scheduler. */
    method InitKernel(mem: map<Addr, int>, ghost now: int)
      requires Raw()
      modifies this, pcbs, pcbs.mem, pcbs.mem.nodes, pcbs.table
      ensures Valid() && pcbs.Layout()
      ensures var s := KernelTheorems.InitKernel(mem, now);
              Forest_() == s.f && Sched_() == s.q && pcbs.Data() == s.pcb
    {
      hide *;
      InitGlobals(mem);
      FirstIs(mem, now, rootProcess);
      Running();
      FirstProcess();
      Opened();
    }

    lemma FirstIs(mem: map<Addr, int>, now: int, r: Proc)
      ensures var q := KernelTheorems.NoProcess(mem); var p := KernelTheorems.ROOT;
              && q.free != [] && q.free[0] == p && q.current == None
              && var s := KernelTheorems.InitKernel(mem, now);
                 && s.q == Admit(q, 0) && s.f == Spawn(KernelTheorems.NoForest().(root := r), p).(root := p)
                 && s.pcb == KernelTheorems.NoPcbs() && s.pcb[p := NoData] == s.pcb
    {
    }

    method SetRoot(p: Proc)
      requires Valid()
      modifies this`rootProcess
      ensures Valid() && Sched_() == old(Sched_()) && Forest_() == old(Forest_()).(root := p)
    {
      hide *;
      Opened();
      rootProcess := p;
      Closed();
    }

    // ------------------------------------------------------------------ termination

    /** `outBlocked(target)`. */
    method TakeOut(target: Pcb) returns (removed: bool)
      requires Valid() && target in pcbs.table
      modifies pcbs.mem, pcbs.mem.nodes
      ensures Valid() && Forest_() == old(Forest_())
      ensures var q := old(Sched_()); var (asl, out) := SemList.OutBlocked(q.asl, target.p_semAdd, target.slot);
              Sched_() == WithAsl(q, asl) && removed == out
      ensures pcbs.Queued() <= old(pcbs.Queued()) && (removed ==> target.slot !in pcbs.Queued())
    {
      hide *;
      ghost var q := Sched_();
      Opened();
      ghost var queues := pcbs.Queues();
      var out := asl.OutBlocked(target);
      removed := out != null;
      Semaphored(queues);
      Withs(q, 0, 0, 0, asl.View());
    }

    /** The same with what it does to the semaphore and to softBlockCount. */
    method LeaveSemaphore(target: Pcb)
      requires Valid() && target in pcbs.table
      modifies this`sem, this`softBlockCount, pcbs.mem, pcbs.mem.nodes
      ensures Valid() && Forest_() == old(Forest_()) && Sched_() == Left(old(Sched_()), target.slot)
      ensures pcbs.Queued() <= old(pcbs.Queued())
      ensures Waiting(old(Sched_()), target.slot) ==> target.slot !in pcbs.Queued()
    {
      hide *;
      Opened();
      pcbs.PcbsDiffer(target);
      LeftIs(Sched_(), target.slot);
      var a := target.p_semAdd;
      if a != NULL {
        var removed := TakeOut(target);
        if removed {
          if IsSoft(a) {
            CountSoft(-1);
          } else {
            var v := GetSemaphore(a);
            SetSemaphore(a, v + 1);
          }
        }
      }
    }

    /** The state after a change of the semaphore queues alone. */
    lemma Semaphored(queues: map<ListHead, seq<Proc>>)
      requires asl.pcbs == pcbs && asl.Valid() && SameMain(queues, pcbs.Queues())
      requires readyQueue in queues && readyQueue.kind == QueueHead && readyQueue != pcbs.pcbFree_h
      requires pcbs.pcbFree_h in queues && pcbs.pcbFree_h.kind == QueueHead
      requires forall x: Proc :: x in queues[pcbs.pcbFree_h] || pcbs.table[x].p_child in pcbs.Heads()
      requires currentProcess != null ==> currentProcess in pcbs.table && currentProcess.slot !in pcbs.Queued()
      ensures Valid() && Forest_() == pcbs.Forest().(root := rootProcess)
      ensures Sched_() == Sched(queues[pcbs.pcbFree_h], queues[readyQueue], asl.View(), sem, pcbs.SemAdds(), pcbs.Prio(),
                                Name(currentProcess), processCount, softBlockCount, log)
    {
      hide *;
      SameQueue(queues, pcbs.Queues(), readyQueue);
      SameQueue(queues, pcbs.Queues(), pcbs.pcbFree_h);
      Closed();
    }

    /** `outProcQ(&readyQueue, target)`. */
    method LeaveReady(target: Pcb)
      requires Valid() && target in pcbs.table
      modifies pcbs.mem, pcbs.mem.nodes
      ensures Valid() && Forest_() == old(Forest_())
      ensures Sched_() == WithReady(old(Sched_()), Remove(old(Sched_()).ready, target.slot))
      ensures pcbs.Queued() <= old(pcbs.Queued())
      ensures target.slot in old(Sched_()).ready ==> target.slot !in pcbs.Queued()
    {
      hide *;
      ghost var q := Sched_();
      Opened();
      ghost var queues, links := pcbs.Queues(), pcbs.Links();
      var out := pcbs.OutProcQ(readyQueue, target);
      ReadyIs(q, Remove(q.ready, target.slot));
      if out == null {
        RemoveNone(q.ready, target.slot);
        asl.Whole();
      } else {
        asl.Undisturbed(queues, links, readyQueue, Remove(queues[readyQueue], target.slot));
      }
      Closed();
    }

    lemma RemoveNone(q: seq<Proc>, p: Proc)
      requires p !in q
      ensures Remove(q, p) == q
    {
    }

    lemma ReadyIs(q: Sched, ready: seq<Proc>)
      ensures WithReady(q, ready) == q.(ready := ready)
    {
    }

    /** `outChild(target)`. */
    method LeaveParent(target: Pcb)
      requires Valid() && target in pcbs.table
      modifies target`p_parent, pcbs.mem, pcbs.mem.nodes
      ensures Valid() && Sched_() == old(Sched_()) && pcbs.Queued() == old(pcbs.Queued())
      ensures Forest_() == OutChild(old(Forest_()), target.slot)
    {
      hide *;
      Opened();
      var out := pcbs.OutChild(target);
      asl.Whole();
      Closed();
      RootIsApart(old(pcbs.Forest()), rootProcess, target.slot, target.slot);
    }

    /** `freePcb(target)`. */
    method Free(target: Pcb)
      requires Valid() && target in pcbs.table && target.slot !in pcbs.Queued() && target != currentProcess
      requires var n := Forest_().t[target.slot]; n.parent.None? && n.children == []
      modifies pcbs.mem, pcbs.mem.nodes
      ensures Valid() && Forest_() == old(Forest_()) && Sched_() == WithFree(old(Sched_()), [target.slot] + old(Sched_()).free)
    {
      hide *;
      ghost var q := Sched_();
      Opened();
      ghost var queues, links := pcbs.Queues(), pcbs.Links();
      pcbs.BareIff(target);
      pcbs.LooseIff(target);
      pcbs.PcbsDiffer(target);
      pcbs.FreePcb(target);
      asl.Undisturbed(queues, links, pcbs.pcbFree_h, [target.slot] + queues[pcbs.pcbFree_h]);
      Closed();
      FreeIs(q, [target.slot] + q.free);
    }

    lemma FreeIs(q: Sched, free: seq<Proc>)
      ensures WithFree(q, free) == q.(free := free)
    {
    }

    method StopRunning(target: Pcb)
      requires Valid() && target in pcbs.table
      modifies this`currentProcess
      ensures Valid() && Forest_() == old(Forest_()) && target != currentProcess
      ensures Sched_() == Stopped(old(Sched_()), target.slot)
    {
      hide *;
      Opened();
      StoppedIs(Sched_(), target.slot);
      pcbs.PcbsDiffer(target);
      if target == currentProcess {
        currentProcess := null;
      }
      Closed();
    }

    lemma StoppedIs(q: Sched, p: Proc)
      ensures Stopped(q, p) == if q.current == Some(p) then q.(current := None) else q
    {
    }

    /** What is left to do for `target` when its children are gone. */
    method Bury(target: Pcb, ghost live: set<Proc>)
      requires Valid() && target in pcbs.table && Forest_().t[target.slot].children == []
      requires Placed(Sched_(), live) && target.slot in live
      modifies this, pcbs.mem, pcbs.mem.nodes, target`p_parent
      ensures Valid() && rootProcess == old(rootProcess) && Forest_() == OutChild(old(Forest_()), target.slot)
      ensures Sched_() == Unqueue(old(Sched_()), target.slot)
    {
      hide *;
      ghost var q, f := Sched_(), Forest_();
      WhereIs(q, live, target.slot);
      BuriedIs(q, target.slot);
      OutChildIs(f, target.slot);
      NotRunning(target);
      LeaveSemaphore(target);
      LeaveReady(target);
      StopRunning(target);
      LeaveParent(target);
      Free(target);
      CountProcess(-1);
      NoteDeath(target.slot);
    }

    method NobodyRuns()
      requires Valid()
      modifies this`currentProcess
      ensures Valid() && Forest_() == old(Forest_()) && Sched_() == old(Sched_()).(current := None)
    {
      hide *;
      Opened();
      currentProcess := null;
      Closed();
      Names(currentProcess);
    }

    lemma RootThere()
      requires Valid()
      ensures pcbs.Layout() && |pcbs.table| == MAXPROC && pcbs.table[rootProcess] in pcbs.table
      ensures pcbs.table[rootProcess].slot == rootProcess && Forest_().root == rootProcess
    {
      Opened();
    }

    // --------------------------------------------------------------------- search

    /** The child list of a process in use. */
    lemma KidRing(p: Pcb, free: seq<Proc>)
      requires Valid() && p in pcbs.table && free == pcbs.FreeList() && p.slot !in free
      ensures pcbs.mem.Valid() && p.p_child in pcbs.mem.rings
      ensures pcbs.Forest().t[p.slot].children == Slots(pcbs.mem.rings[p.p_child])
    {
      Opened();
      pcbs.PcbsDiffer(p);
      pcbs.KidsHeadThere(p);
      pcbs.ForestsAt();
      pcbs.NodesAre();
    }

    lemma KidAt(p: Pcb, s: seq<ListHead>, i: nat)
      requires Valid() && p in pcbs.table && p.p_child in pcbs.mem.rings && s == pcbs.mem.rings[p.p_child] && i < |s|
      ensures |pcbs.table| == MAXPROC && s[i].slot < MAXPROC && pcbs.table[s[i].slot] in pcbs.table
      ensures Slots(s)[i] == s[i].slot && pcbs.table[s[i].slot].slot == s[i].slot
    {
      asl.Parts();
      asl.TableSlots();
      pcbs.PcbAt(p);
      pcbs.KidMembers(p.p_child);
      assert s[i] in s;
    }

    /** `findInTree`. */
    method Find(node: Pcb, pid: int) returns (found: Pcb?)
      requires Valid() && node in pcbs.table && Searchable(Forest_(), Sched_().free, node.slot)
      ensures Name(found) == FoundBelow(Forest_(), node.slot, pid) && (found != null ==> found in pcbs.table)
      decreases Forest_().next - Forest_().t[node.slot].pid
    {
      hide *;
      ghost var f := Forest_();
      Opened();
      PidOf(node);
      FindStarts(f, Sched_().free, node.slot, pid);
      Names(node);
      Names(null);
      if node.p_pid < 0 { return null; }
      if node.p_pid == pid { return node; }
      KidRing(node, pcbs.FreeList());
      ghost var s := pcbs.mem.rings[node.p_child];
      pcbs.mem.PlaceOf(node.p_child, 0);
      BeforeFirst(node.p_child, s);
      found := FindBelow(node, node.p_child.next, pid, s);
    }

    /** Its loop over the children. */
    method FindBelow(node: Pcb, first: ListHead, pid: int, ghost s: seq<ListHead>) returns (found: Pcb?)
      requires Valid() && node in pcbs.table && Searchable(Forest_(), Sched_().free, node.slot)
      requires pcbs.mem.Valid() && node.p_child in pcbs.mem.rings && s == pcbs.mem.rings[node.p_child]
      requires Forest_().t[node.slot].children == Slots(s) && first == Nth(node.p_child, s, 0)
      requires node.p_pid >= 0 && node.p_pid == Forest_().t[node.slot].pid
      ensures Name(found) == FoundAmong(Forest_(), node.slot, Slots(s), pid) && (found != null ==> found in pcbs.table)
      decreases Forest_().next - Forest_().t[node.slot].pid, 0
    {
      hide *;
      ghost var f, free, children := Forest_(), Sched_().free, Slots(s);
      ghost var i: nat := 0;
      var pos := first;
      Names(null);
      FindEnds(f, node.slot, pid, children);
      while pos != node.p_child
        invariant i <= |s| && |children| == |s| && pos == Nth(node.p_child, s, i)
        invariant FoundAmong(f, node.slot, children, pid) == FoundAmong(f, node.slot, children[i..], pid)
        decreases |s| - i
      {
        NthCases(node.p_child, s, i);
        KidAt(node, s, i);
        pcbs.mem.MemberOf(node.p_child, i);
        var child := pcbs.table[pos.slot];
        FindNext(f, free, node.slot, pid, children, i);
        found := Find(child, pid);
        Names(found);
        if found != null { return; }
        pos, i := pos.next, i + 1;
      }
      NthCases(node.p_child, s, i);
      pcbs.mem.RingOf(node.p_child);
      found := null;
    }

    /** For the history of the ready queue. */
    ghost method NoteDeath(p: Proc)
      requires Valid()
      modifies this`log
      ensures Valid() && Forest_() == old(Forest_()) && Sched_() == WithDeath(old(Sched_()), p)
    {
      hide *;
      Opened();
      log := log + [Del(p)];
      Opened();
      DeathIs(old(Sched_()), p);
    }

    lemma DeathIs(q: Sched, p: Proc)
      ensures WithDeath(q, p) == q.(log := q.log + [Del(p)])
    {
    }

    lemma NotRunning(target: Pcb)
      requires Valid() && target in pcbs.table
      ensures Sched_().current == Some(target.slot) ==> target.slot !in pcbs.Queued()
    {
    }

    method TakeChild(p: Pcb) returns (child: Pcb?)
      requires Valid() && p in pcbs.table && p.slot !in Sched_().free
      modifies pcbs.mem, pcbs.mem.nodes, pcbs.table`p_parent
      ensures Valid() && Sched_() == old(Sched_())
      ensures Name(child) == Eldest(old(Forest_()), p.slot) && (child != null ==> child in pcbs.table)
      ensures Forest_() == WithoutEldest(old(Forest_()), p.slot)
    {
      hide *;
      Opened();
      pcbs.PcbsDiffer(p);
      pcbs.KidsHeadThere(p);
      ghost var f := pcbs.Forest();
      child := pcbs.RemoveChild(p);
      asl.Whole();
      Closed();
      RootIsApart(f, rootProcess, p.slot, p.slot);
      EldestIs(f.(root := rootProcess), p.slot);
      Names(child);
    }

    method SetPid(p: Pcb, pid: int)
      requires Valid() && p in pcbs.table
      modifies p`p_pid
      ensures Valid() && Sched_() == old(Sched_())
      ensures Forest_() == WithPid(old(Forest_()), p.slot, pid)
    {
      hide *;
      Opened();
      ghost var f := pcbs.Forest();
      pcbs.PcbsDiffer(p);
      pcbs.ForestsAt();
      pcbs.NodesAre();
      p.p_pid := pid;
      pcbs.NodesAre();
      pcbs.ForestIs(f.(t := f.t[p.slot := f.t[p.slot].(pid := pid)]));
      Closed();
      WithPidIs(f, p.slot, pid, rootProcess);
    }

    /** `recursiveTerminateProcess`. The tree at the time of the first call, `f0`, and the
        processes not yet buried are what the proof goes by. */
    method RecursiveTerminate(target: Pcb, ghost f0: Forest, ghost live: set<Proc>)
      requires Valid() && target in pcbs.table && Doomed(f0, Forest_(), Sched_(), target.slot, live)
      modifies this, pcbs.mem, pcbs.mem.nodes, pcbs.table`p_parent, pcbs.table`p_pid
      ensures Valid() && (Forest_(), Sched_()) == Kill(old(Forest_()), old(Sched_()), target.slot)
      decreases Unmarked(Forest_()), 0
    {
      hide *;
      ghost var f, q, p := Forest_(), Sched_(), target.slot;
      KillStarts(f, q, p);
      PidOf(target);
      if target.p_pid < 0 {
        return;
      }
      SetPid(target, -1);
      WithPidIs(f, p, -1, f.root);
      StartChildren(f0, f, q, p, live);
      AfterChildren(f0, f, q, p, live);
      TerminateChildren(target, f0, live);
      Bury(target, live - SchedulingKeeps.Members(Below(f0, p)));
    }

    lemma PidOf(p: Pcb)
      requires Valid() && p in pcbs.table
      ensures Forest_().t[p.slot].pid == p.p_pid
    {
      pcbs.PcbsDiffer(p);
      pcbs.ForestsAt();
    }

    /** Its loop over `removeChild`. */
    method TerminateChildren(target: Pcb, ghost f0: Forest, ghost live: set<Proc>)
      requires Valid() && target in pcbs.table
      requires DoomedAll(f0, Forest_(), Sched_(), target.slot, Forest_().t[target.slot].children, live)
      modifies this, pcbs.mem, pcbs.mem.nodes, pcbs.table`p_parent, pcbs.table`p_pid
      ensures Valid() && (Forest_(), Sched_()) == KillChildren(old(Forest_()), old(Sched_()), target.slot)
      decreases Unmarked(Forest_()), 1
    {
      hide *;
      ghost var f, q, p, left := Forest_(), Sched_(), target.slot, live;
      while true
        invariant Valid() && Unmarked(Forest_()) <= Unmarked(f)
        invariant DoomedAll(f0, Forest_(), Sched_(), p, Forest_().t[p].children, left)
        invariant KillChildren(Forest_(), Sched_(), p) == KillChildren(f, q, p)
        decreases |Forest_().t[p].children|
      {
        LoopUnfolds(Forest_(), Sched_(), p);
        EldestIs(Forest_(), p);
        NotFree(f0, Forest_(), Sched_(), p, Forest_().t[p].children, left);
        ghost var cs := Forest_().t[p].children;
        if cs != [] { NextChild(f0, Forest_(), Sched_(), p, cs, left); }
        var child := TakeChild(target);
        Names(child);
        if child == null {
          break;
        }
        RecursiveTerminate(child, f0, left);
        left := left - SchedulingKeeps.Members(Doom(f0, cs[0]));
      }
    }
  }

  // --------------------------------------------- what the termination proof goes by

  // ------------------------------------------------------- what the search goes by

  /** Any live process may be the first target. */
  lemma DoomedAtFirst(f: Forest, q: Sched, p: Proc)
    requires TreeInv(f) && Live(f, p) && Placed(q, LiveSet(f))
    ensures Doomed(f, f, q, p, LiveSet(f))
  {
    forall x | x in Post(f, p) ensures x in LiveSet(f) { PostMembers(f, p, x); }
    if f.t[p].parent.Some? {
      var r := f.t[p].parent.value;
      PostMembers(f, p, r);
      if r in Post(f, p) { AncestorOlder(f, p, r); }
    }
  }

  ghost predicate Searchable(f: Forest, free: seq<Proc>, p: Proc) {
    TreeInv(f) && (Live(f, p) || f.t[p].pid < 0) && forall x: Proc :: Live(f, x) ==> x !in free
  }

  ghost function FoundBelow(f: Forest, p: Proc, pid: int): Option<Proc> {
    if TreeInv(f) && (Live(f, p) || f.t[p].pid < 0) then FindInTree(f, p, pid) else None
  }

  ghost function FoundAmong(f: Forest, p: Proc, cs: seq<Proc>, pid: int): Option<Proc> {
    if TreeInv(f) && Live(f, p) && forall c :: c in cs ==> c in f.t[p].children then FindAmong(f, p, cs, pid) else None
  }

  lemma FindStarts(f: Forest, free: seq<Proc>, p: Proc, pid: int)
    requires Searchable(f, free, p)
    ensures FoundBelow(f, p, pid) ==
            if f.t[p].pid < 0 then None else if f.t[p].pid == pid then Some(p) else FoundAmong(f, p, f.t[p].children, pid)
    ensures f.t[p].pid >= 0 ==> p !in free
  {
  }

  lemma FindNext(f: Forest, free: seq<Proc>, p: Proc, pid: int, cs: seq<Proc>, i: nat)
    requires Searchable(f, free, p) && f.t[p].pid >= 0 && cs == f.t[p].children && i < |cs|
    ensures Searchable(f, free, cs[i]) && f.t[p].pid < f.t[cs[i]].pid < f.next
    ensures var found := FoundBelow(f, cs[i], pid);
            FoundAmong(f, p, cs[i..], pid) == if found.Some? then found else FoundAmong(f, p, cs[i + 1..], pid)
  {
    assert cs[i] in cs;
    ChildYounger(f, p, cs[i]);
    assert cs[i..][0] == cs[i] && cs[i..][1..] == cs[i + 1..];
  }

  lemma FindEnds(f: Forest, p: Proc, pid: int, cs: seq<Proc>)
    ensures FoundAmong(f, p, [], pid) == None && cs[0..] == cs && cs[|cs|..] == []
  {
  }

  function Eldest(f: Forest, p: Proc): Option<Proc> {
    if f.t[p].children == [] then None else Some(f.t[p].children[0])
  }

  function WithoutEldest(f: Forest, p: Proc): Forest {
    if f.t[p].children == [] then f else RemoveChild(f, p)
  }

  function WithPid(f: Forest, p: Proc, pid: int): Forest {
    f.(t := f.t[p := f.t[p].(pid := pid)])
  }

  lemma EldestIs(f: Forest, p: Proc)
    ensures Eldest(f, p) == (if f.t[p].children == [] then None else Some(f.t[p].children[0]))
    ensures WithoutEldest(f, p) == if f.t[p].children == [] then f else RemoveChild(f, p)
  {
  }

  lemma WithPidIs(f: Forest, p: Proc, pid: int, r: Proc)
    ensures WithPid(f, p, pid) == f.(t := f.t[p := f.t[p].(pid := pid)])
    ensures WithPid(f.(root := r), p, pid) == WithPid(f, p, pid).(root := r)
  {
  }

  /** The subtree of `p` in `f0`. */
  ghost function Doom(f0: Forest, p: Proc): seq<Proc> {
    if TreeInv(f0) && Live(f0, p) then Post(f0, p) else []
  }

  ghost function DoomAll(f0: Forest, p: Proc, cs: seq<Proc>): seq<Proc> {
    if TreeInv(f0) && Live(f0, p) && forall c :: c in cs ==> c in f0.t[p].children then PostAll(f0, p, cs) else []
  }

  ghost function Below(f0: Forest, p: Proc): seq<Proc> { DoomAll(f0, p, f0.t[p].children) }

  /** `p` may be terminated in `f`, which still contains its subtree of `f0`; `live` are the
      processes that have not been taken out of the queues. */
  ghost predicate Doomed(f0: Forest, f: Forest, q: Sched, p: Proc, live: set<Proc>) {
    && TreeInv(f0) && Live(f0, p) && Agree(f0, f, Doom(f0, p))
    && (f.t[p].parent.Some? ==> f.t[p].parent.value !in Doom(f0, p))
    && Placed(q, live) && forall x :: x in Doom(f0, p) ==> x in live
  }

  /** The same of the children `cs` that `p` still has. */
  ghost predicate DoomedAll(f0: Forest, f: Forest, q: Sched, p: Proc, cs: seq<Proc>, live: set<Proc>) {
    && TreeInv(f0) && Live(f0, p) && (forall c :: c in cs ==> c in f0.t[p].children)
    && NoDup(cs) && f.t[p].children == cs && Agree(f0, f, DoomAll(f0, p, cs))
    && Placed(q, live) && (forall x :: x in DoomAll(f0, p, cs) ==> x in live)
    && p in live && p !in DoomAll(f0, p, cs)
  }

  lemma NotFree(f0: Forest, f: Forest, q: Sched, p: Proc, cs: seq<Proc>, live: set<Proc>)
    requires DoomedAll(f0, f, q, p, cs, live)
    ensures p !in q.free
  {
  }

  lemma {:induction false} UnqueueAllPlaced(q: Sched, live: set<Proc>, ps: seq<Proc>)
    requires Placed(q, live) && NoDup(ps) && forall p :: p in ps ==> p in live
    ensures Placed(UnqueueAll(q, ps), live - SchedulingKeeps.Members(ps))
    decreases |ps|
  {
    hide Placed, Unqueue;
    if ps == [] {
      assert live - SchedulingKeeps.Members(ps) == live;
    } else {
      var p, rest := ps[0], ps[1..];
      assert ps == [p] + rest && p in ps;
      SchedulingKeeps.UnqueuePlaced(q, live, p);
      assert forall x :: x in rest ==> x in live - {p};
      UnqueueAllPlaced(Unqueue(q, p), live - {p}, rest);
      assert live - SchedulingKeeps.Members(ps) == live - {p} - SchedulingKeeps.Members(rest);
    }
  }

  lemma KillStarts(f: Forest, q: Sched, p: Proc)
    ensures f.t[p].pid < 0 ==> Kill(f, q, p) == (f, q)
    ensures f.t[p].pid >= 0 ==>
              var m := f.(t := f.t[p := f.t[p].(pid := -1)]);
              var (f1, q1) := KillChildren(m, q, p);
              && Kill(f, q, p) == (OutChild(f1, p), Unqueue(q1, p))
              && Unmarked(m) < Unmarked(f)
  {
    if f.t[p].pid >= 0 {
      assert p in Unmarked(f) && p !in Unmarked(Mark(f, p));
    }
  }

  lemma LoopUnfolds(f: Forest, q: Sched, p: Proc)
    ensures f.t[p].children == [] ==> KillChildren(f, q, p) == (f, q)
    ensures f.t[p].children != [] ==>
              var (f1, q1) := Kill(RemoveChild(f, p), q, f.t[p].children[0]);
              && |f1.t[p].children| < |f.t[p].children|
              && Unmarked(RemoveChild(f, p)) == Unmarked(f) && Unmarked(f1) <= Unmarked(f)
              && KillChildren(f, q, p) == KillChildren(f1, q1, p)
  {
    if f.t[p].children != [] {
      assert Unmarked(RemoveChild(f, p)) == Unmarked(f);
    }
  }

  lemma StartChildren(f0: Forest, f: Forest, q: Sched, p: Proc, live: set<Proc>)
    requires Doomed(f0, f, q, p, live)
    ensures var m := f.(t := f.t[p := f.t[p].(pid := -1)]); DoomedAll(f0, m, q, p, m.t[p].children, live)
    ensures f.t[p].pid > 0
  {
    var cs := f0.t[p].children;
    assert Post(f0, p) == PostAll(f0, p, cs) + [p];
    assert p in Post(f0, p);
    ParentNotBelow(f0, p, cs);
    assert forall x :: x in PostAll(f0, p, cs) ==> x in Post(f0, p);
  }

  lemma AfterChildren(f0: Forest, f: Forest, q: Sched, p: Proc, live: set<Proc>)
    requires Doomed(f0, f, q, p, live)
    ensures var m := f.(t := f.t[p := f.t[p].(pid := -1)]);
            var (f1, q1) := KillChildren(m, q, p);
            var rest := live - SchedulingKeeps.Members(Below(f0, p));
            f1.t[p].children == [] && Placed(q1, rest) && p in rest
  {
    StartChildren(f0, f, q, p, live);
    var m := f.(t := f.t[p := f.t[p].(pid := -1)]);
    var cs := m.t[p].children;
    assert cs == f0.t[p].children by { assert p in Post(f0, p); }
    KillChildrenIsExact(f0, m, q, p, cs);
    PostAllNoDup(f0, p, cs);
    UnqueueAllPlaced(q, live, PostAll(f0, p, cs));
  }

  lemma NextChild(f0: Forest, f: Forest, q: Sched, p: Proc, cs: seq<Proc>, live: set<Proc>)
    requires DoomedAll(f0, f, q, p, cs, live) && cs != []
    ensures Doomed(f0, RemoveChild(f, p), q, cs[0], live)
    ensures var (f1, q1) := Kill(RemoveChild(f, p), q, cs[0]);
            DoomedAll(f0, f1, q1, p, f1.t[p].children, live - SchedulingKeeps.Members(Doom(f0, cs[0])))
  {
    hide Placed, Kill, PidsDistinct, OneRoot, ParentsKnown, ChildrenKnown, Agree, Erased, Dead, UnqueueAll;
    var c, g := cs[0], RemoveChild(f, p);
    var a, b := FirstChild(f0, p, cs);
    ChildOff(f0, f, p, c, a, b);
    KillIsExact(f0, g, q, c);
    var (f1, q1) := Kill(g, q, c);
    ChildGone(f0, f, f1, p, c, a, b);
    PostNoDup(f0, c);
    UnqueueAllPlaced(q, live, a);
  }

  function WithDeath(q: Sched, p: Proc): Sched { q.(log := q.log + [Del(p)]) }

  /** Where a process that is not free can be. */
  lemma WhereIs(q: Sched, live: set<Proc>, p: Proc)
    requires Placed(q, live) && p in live
    ensures Waiting(q, p) || p in q.ready || q.current == Some(p)
  {
  }

  /** The pieces of Unqueue in the order of the code. */
  lemma BuriedIs(q: Sched, p: Proc)
    ensures var s1 := Left(q, p);
            var s3 := Stopped(WithReady(s1, Remove(s1.ready, p)), p);
            Unqueue(q, p) == WithDeath(WithCount(WithFree(s3, [p] + s3.free), -1), p)
    ensures Left(q, p).ready == q.ready
  {
  }

  lemma OutChildIs(f: Forest, p: Proc)
    requires f.t[p].children == []
    ensures OutChild(f, p).t[p].parent.None? && OutChild(f, p).t[p].children == []
  {
  }

  function WithReady(q: Sched, ready: seq<Proc>): Sched { q.(ready := ready) }

  function WithFree(q: Sched, free: seq<Proc>): Sched { q.(free := free) }

  function Stopped(q: Sched, p: Proc): Sched {
    if q.current == Some(p) then q.(current := None) else q
  }

  /** What `outBlocked` and the lines after it do. */
  function Left(q: Sched, p: Proc): Sched {
    var a := q.semAdd[p];
    var (asl, removed) := if a == NULL then (q.asl, false) else SemList.OutBlocked(q.asl, a, p);
    q.(asl := asl,
       softBlockCount := if removed && IsSoft(a) then q.softBlockCount - 1 else q.softBlockCount,
       sem := if removed && !IsSoft(a) then q.sem[a := Value(q, a) + 1] else q.sem)
  }

  /** `p` stands in the queue of the semaphore its p_semAdd names. */
  predicate Waiting(q: Sched, p: Proc) {
    var a := q.semAdd[p]; a != NULL && a in q.asl.active && p in q.asl.active[a]
  }

  lemma LeftIs(q: Sched, p: Proc)
    ensures var a := q.semAdd[p];
            && (a == NULL ==> Left(q, p) == q && !Waiting(q, p))
            && (a != NULL ==>
                  var (asl, removed) := SemList.OutBlocked(q.asl, a, p); var q1 := WithAsl(q, asl);
                  && (removed <==> Waiting(q, p))
                  && Left(q, p) == if !removed then q1 else if IsSoft(a) then WithSoft(q1, -1) else SetSem(q1, a, Value(q1, a) + 1))
  {
  }
}
