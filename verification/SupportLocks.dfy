/**
 The mutexes of the Support Level: termMutexTX and termMutexRX of the terminal calls,
 swapPoolSem of the pager, flashMutex[] of flashIO. A U-proc is where its code is: in a
 terminal call or not, and, possibly on top of that call, in the pager. `owner` records
 who acquired a mutex last and has not released it.
 */
module SupportLocks {
  import opened Processes
  import ProcQueue

  type Uproc = n: nat | n < UPROCMAX witness 0

  datatype Lock = Term(rx: bool) | Pool | Flash(dev: Uproc)

  /** `int` semaphore with its queue of blocked processes. All U-procs are created with
      priority 0, so that queues are first in, first out. */
  datatype Sem = Sem(value: int, queue: seq<Uproc>)

  datatype Call = NoCall | WantTerm(rx: bool) | HaveTerm(rx: bool)

  /** How far the pager has come: before the eviction, after it, after the read, or after
      a flash operation that failed. */
  datatype Stage = Start | Evicted | Loaded | Failed

  datatype Fault =
    | NoFault
    | WantPool
    | HavePool(st: Stage)
    | WantFlash(dev: Uproc, st: Stage)
    | HaveFlash(dev: Uproc, st: Stage)
    | Doomed

  datatype Ctl = Ctl(call: Call, fault: Fault, dead: bool)

  type Ctls = t: seq<Ctl> | |t| == UPROCMAX witness seq(UPROCMAX, i => Ctl(NoCall, NoFault, false))

  datatype State = State(ctl: Ctls, sem: map<Lock, Sem>, owner: map<Lock, Uproc>)

  // ------------------------------------------------------------------ semaphores

  /** `test()` sets every mutex to 1. */
  function SemOf(s: State, l: Lock): Sem {
    if l in s.sem then s.sem[l] else Sem(1, [])
  }

  function Owner(s: State, l: Lock): Option<Uproc> {
    if l in s.owner then Some(s.owner[l]) else None
  }

  /** SYS3 by `p`, who goes on at `have` or is blocked at `want`. */
  function Acquire(s: State, p: Uproc, l: Lock, want: Ctl, have: Ctl): State {
    var m := SemOf(s, l);
    if m.value - 1 < 0
    then s.(sem := s.sem[l := Sem(m.value - 1, m.queue + [p])], ctl := s.ctl[p := want])
    else s.(sem := s.sem[l := Sem(m.value - 1, m.queue)], ctl := s.ctl[p := have], owner := s.owner[l := p])
  }

  /** Where a process that was blocked goes on. */
  function Granted(c: Ctl): Ctl {
    match c.fault
    case WantPool => c.(fault := HavePool(Start))
    case WantFlash(d, st) => c.(fault := HaveFlash(d, st))
    case _ => if c.call.WantTerm? then c.(call := HaveTerm(c.call.rx)) else c
  }

  /** SYS4 by `p`, who goes on at `next`. */
  function Release(s: State, p: Uproc, l: Lock, next: Ctl): State {
    var m := SemOf(s, l);
    var s1 := s.(ctl := s.ctl[p := next]);
    if m.value + 1 <= 0 && m.queue != []
    then
      var w := m.queue[0];
      s1.(sem := s.sem[l := Sem(m.value + 1, m.queue[1..])], owner := s.owner[l := w],
          ctl := s1.ctl[w := Granted(s1.ctl[w])])
    else s1.(sem := s.sem[l := Sem(m.value + 1, m.queue)], owner := s.owner - {l})
  }

  // ----------------------------------------------------------------------- steps

  datatype Act =
    | CallTerm(rx: bool)
    | Return
    | PageFault
    | Evict(dev: Uproc)
    | NoEvict
    | Load
    | IoDone(ok: bool)
    | Finish
    | Die
    | Launch

  /** The lock a process is blocked on. */
  function Waits(c: Ctl): Option<Lock> {
    match c.fault
    case WantPool => Some(Pool)
    case WantFlash(d, _) => Some(Flash(d))
    case _ => if c.call.WantTerm? then Some(Term(c.call.rx)) else None
  }

  /** The locks a process has acquired, by where it is in the code. */
  predicate Holds(c: Ctl, l: Lock) {
    match l
    case Term(rx) => c.call == HaveTerm(rx)
    case Pool => c.fault.HavePool? || c.fault.WantFlash? || c.fault.HaveFlash?
    case Flash(d) => c.fault.HaveFlash? && c.fault.dev == d
  }

  /** What a process at `c` may do next. */
  predicate Can(c: Ctl, a: Act) {
    && (c.dead <==> a.Launch?) && Waits(c).None?
    && match a
       case CallTerm(_) => c.call.NoCall? && c.fault.NoFault?
       case Return => c.call.HaveTerm? && c.fault.NoFault?
       case PageFault => c.fault.NoFault?
       case Evict(_) => c.fault == HavePool(Start)
       case NoEvict => c.fault == HavePool(Start)
       case Load => c.fault == HavePool(Evicted)
       case IoDone(_) => c.fault.HaveFlash?
       case Finish => c.fault == HavePool(Loaded) || c.fault == HavePool(Failed)
       case Die => c.fault.NoFault? || c.fault.Doomed?
       case Launch => true
  }

  function Do(s: State, p: Uproc, a: Act): State {
    var c := s.ctl[p];
    match a
    case CallTerm(rx) => Acquire(s, p, Term(rx), c.(call := WantTerm(rx)), c.(call := HaveTerm(rx)))
    case Return => if c.call.HaveTerm? then Release(s, p, Term(c.call.rx), c.(call := NoCall)) else s
    case PageFault => Acquire(s, p, Pool, c.(fault := WantPool), c.(fault := HavePool(Start)))
    case Evict(d) => Acquire(s, p, Flash(d), c.(fault := WantFlash(d, Start)), c.(fault := HaveFlash(d, Start)))
    case NoEvict => s.(ctl := s.ctl[p := c.(fault := HavePool(Evicted))])
    // every U-proc reads from the flash device of its own ASID
    case Load => Acquire(s, p, Flash(p), c.(fault := WantFlash(p, Evicted)), c.(fault := HaveFlash(p, Evicted)))
    case IoDone(ok) =>
      if !c.fault.HaveFlash? then s
      else
        var st := if !ok then Failed else if c.fault.st.Start? then Evicted else Loaded;
        Release(s, p, Flash(c.fault.dev), c.(fault := HavePool(st)))
    case Finish => Release(s, p, Pool, c.(fault := if c.fault == HavePool(Failed) then Doomed else NoFault))
    case Die => s.(ctl := s.ctl[p := Ctl(NoCall, NoFault, true)])
    // SYS6 starts the program of a dead U-proc afresh
    case Launch => s.(ctl := s.ctl[p := Ctl(NoCall, NoFault, false)])
  }

  // ------------------------------------------------------------------- invariant

  /** A mutex is free with nobody waiting, or owned with as many waiters as its value says;
      those in its queue and its owner are exactly those whose code is there. */
  ghost predicate LockOk(s: State, l: Lock) {
    var m := SemOf(s, l);
    && m.value <= 1 && (Owner(s, l).None? <==> m.value == 1)
    && |m.queue| == (if m.value < 0 then -m.value else 0)
    && ProcQueue.NoDup(m.queue)
    && (forall p: Uproc :: p in m.queue <==> Waits(s.ctl[p]) == Some(l))
    && (forall p: Uproc :: Owner(s, l) == Some(p) <==> Holds(s.ctl[p], l))
  }

  /** The pager may interrupt a terminal call only once its mutex has been acquired. */
  predicate CtlOk(c: Ctl) {
    && (c.call.WantTerm? ==> c.fault.NoFault?)
    && (c.dead ==> c.call.NoCall? && c.fault.NoFault?)
  }

  ghost predicate LockInv(s: State) {
    (forall p: Uproc :: CtlOk(s.ctl[p])) && forall l :: LockOk(s, l)
  }

  function Boot(): State {
    State(seq(UPROCMAX, i => Ctl(NoCall, NoFault, false)), map[], map[])
  }

  lemma BootOk()
    ensures LockInv(Boot())
  {
  }

  lemma AcquireOk(s: State, p: Uproc, l: Lock, want: Ctl, have: Ctl, k: Lock)
    requires LockOk(s, l) && LockOk(s, k) && Waits(s.ctl[p]).None? && !Holds(s.ctl[p], l)
    requires Waits(want) == Some(l) && forall j :: Holds(want, j) <==> Holds(s.ctl[p], j)
    requires Waits(have).None? && forall j :: Holds(have, j) <==> j == l || Holds(s.ctl[p], j)
    ensures LockOk(Acquire(s, p, l, want, have), k)
  {
  }

  lemma ReleaseOk(s: State, p: Uproc, l: Lock, next: Ctl, k: Lock)
    requires LockOk(s, l) && LockOk(s, k) && Waits(s.ctl[p]).None? && Holds(s.ctl[p], l)
    requires Waits(next).None? && forall j :: Holds(next, j) <==> j != l && Holds(s.ctl[p], j)
    requires forall q: Uproc :: CtlOk(s.ctl[q])
    ensures LockOk(Release(s, p, l, next), k)
  {
    var m := SemOf(s, l);
    if m.queue != [] {
      var w := m.queue[0];
      assert w in m.queue && w != p;
      assert m.queue == [w] + m.queue[1..];
      GrantedHolds(s.ctl[w], l);
    }
  }

  lemma GrantedHolds(c: Ctl, l: Lock)
    requires Waits(c) == Some(l) && CtlOk(c)
    ensures Waits(Granted(c)).None? && CtlOk(Granted(c))
    ensures forall j :: Holds(Granted(c), j) <==> j == l || Holds(c, j)
  {
  }

  /** Every step keeps the invariant, provided nobody dies in the middle of a terminal call. */
  lemma StepKeeps(s: State, p: Uproc, a: Act)
    requires LockInv(s) && Can(s.ctl[p], a) && (a.Die? ==> s.ctl[p].call.NoCall?)
    ensures LockInv(Do(s, p, a))
  {
    hide LockOk, Acquire, Release, ProcQueue.NoDup;
    CtlsOk(s, p, a);
    forall k ensures LockOk(Do(s, p, a), k) {
      StepOk(s, p, a, k);
    }
  }

  lemma StepOk(s: State, p: Uproc, a: Act, k: Lock)
    requires LockInv(s) && Can(s.ctl[p], a) && (a.Die? ==> s.ctl[p].call.NoCall?)
    ensures LockOk(Do(s, p, a), k)
  {
    hide LockOk, Acquire, Release, ProcQueue.NoDup;
    var c := s.ctl[p];
    assert LockOk(s, k);
    match a
    case CallTerm(rx) => AcquireOk(s, p, Term(rx), c.(call := WantTerm(rx)), c.(call := HaveTerm(rx)), k);
    case Return => ReleaseOk(s, p, Term(c.call.rx), c.(call := NoCall), k);
    case PageFault => AcquireOk(s, p, Pool, c.(fault := WantPool), c.(fault := HavePool(Start)), k);
    case Evict(d) => AcquireOk(s, p, Flash(d), c.(fault := WantFlash(d, Start)), c.(fault := HaveFlash(d, Start)), k);
    case NoEvict => MovedOk(s, p, c.(fault := HavePool(Evicted)), k);
    case Load => AcquireOk(s, p, Flash(p), c.(fault := WantFlash(p, Evicted)), c.(fault := HaveFlash(p, Evicted)), k);
    case IoDone(ok) =>
      var st := if !ok then Failed else if c.fault.st.Start? then Evicted else Loaded;
      ReleaseOk(s, p, Flash(c.fault.dev), c.(fault := HavePool(st)), k);
    case Finish => ReleaseOk(s, p, Pool, c.(fault := if c.fault == HavePool(Failed) then Doomed else NoFault), k);
    case Die => MovedOk(s, p, Ctl(NoCall, NoFault, true), k);
    case Launch => LaunchOk(s, p, k);
  }

  lemma LaunchOk(s: State, p: Uproc, k: Lock)
    requires LockInv(s) && s.ctl[p].dead
    ensures LockOk(Do(s, p, Launch), k)
  {
    assert CtlOk(s.ctl[p]) && LockOk(s, k);
  }

  /** A step that touches no mutex. */
  lemma MovedOk(s: State, p: Uproc, next: Ctl, k: Lock)
    requires LockOk(s, k) && Waits(s.ctl[p]) == Waits(next) == None
    requires Holds(next, k) <==> Holds(s.ctl[p], k)
    ensures LockOk(s.(ctl := s.ctl[p := next]), k)
  {
  }

  lemma CtlsOk(s: State, p: Uproc, a: Act)
    requires LockInv(s) && Can(s.ctl[p], a)
    ensures forall q: Uproc :: CtlOk(Do(s, p, a).ctl[q])
  {
    hide LockOk, ProcQueue.NoDup;
    forall q: Uproc ensures CtlOk(Do(s, p, a).ctl[q]) {
      assert CtlOk(s.ctl[q]) && CtlOk(s.ctl[p]);
    }
  }

  datatype Event = Event(p: Uproc, a: Act)

  /** A run in which nobody dies while it holds a terminal mutex. */
  predicate Legal(s: State, run: seq<Event>)
    decreases |run|
  {
    run == [] ||
    (&& Can(s.ctl[run[0].p], run[0].a)
     && (run[0].a.Die? ==> s.ctl[run[0].p].call.NoCall?)
     && Legal(Do(s, run[0].p, run[0].a), run[1..]))
  }

  function Exec(s: State, run: seq<Event>): State
    decreases |run|
  {
    if run == [] then s else Exec(Do(s, run[0].p, run[0].a), run[1..])
  }

  lemma {:induction false} RunKeeps(s: State, run: seq<Event>)
    requires LockInv(s) && Legal(s, run)
    ensures LockInv(Exec(s, run))
    decreases |run|
  {
    hide LockInv, Do, Can;
    if run != [] {
      StepKeeps(s, run[0].p, run[0].a);
      RunKeeps(Do(s, run[0].p, run[0].a), run[1..]);
    }
  }

  // -------------------------------------------------------------------- theorems

  /** In every reachable state at most one process is in each critical section, and a
      mutex is free exactly when nobody is. */
  lemma MutualExclusion(run: seq<Event>, p: Uproc, q: Uproc, l: Lock)
    requires Legal(Boot(), run)
    ensures var s := Exec(Boot(), run);
            && (Holds(s.ctl[p], l) && Holds(s.ctl[q], l) ==> p == q)
            && (SemOf(s, l).value == 1 <==> forall r: Uproc :: !Holds(s.ctl[r], l))
  {
    BootOk();
    RunKeeps(Boot(), run);
    var s := Exec(Boot(), run);
    hide Exec, Boot;
    assert LockOk(s, l);
    if Owner(s, l).Some? {
      assert Holds(s.ctl[Owner(s, l).value], l);
    }
  }

  predicate Possible(s: State, run: seq<Event>)
    decreases |run|
  {
    run == [] || (Can(s.ctl[run[0].p], run[0].a) && Possible(Do(s, run[0].p, run[0].a), run[1..]))
  }

  // ------------------------------------------------------- exclusion in every run

  /** What is left of LockOk when U-procs may die anywhere: the owner of a terminal mutex need
      not be in the critical section any more. */
  ghost predicate LockSafe(s: State, l: Lock) {
    var m := SemOf(s, l);
    && m.value <= 1 && (Owner(s, l).None? <==> m.value == 1)
    && ProcQueue.NoDup(m.queue)
    && (forall p: Uproc :: p in m.queue <==> Waits(s.ctl[p]) == Some(l))
    && (forall p: Uproc :: Holds(s.ctl[p], l) ==> Owner(s, l) == Some(p))
    && (l.Term? || forall p: Uproc :: Owner(s, l) == Some(p) ==> Holds(s.ctl[p], l))
    && (m.value <= -1 <==> m.queue != []) && (m.value < 0 ==> |m.queue| == -m.value)
  }

  ghost predicate SafeInv(s: State) {
    (forall p: Uproc :: CtlOk(s.ctl[p])) && forall l :: LockSafe(s, l)
  }

  lemma AcquireSafe(s: State, p: Uproc, l: Lock, want: Ctl, have: Ctl, k: Lock)
    requires LockSafe(s, l) && LockSafe(s, k) && Waits(s.ctl[p]).None? && !Holds(s.ctl[p], l)
    requires Waits(want) == Some(l) && forall j :: Holds(want, j) <==> Holds(s.ctl[p], j)
    requires Waits(have).None? && forall j :: Holds(have, j) <==> j == l || Holds(s.ctl[p], j)
    ensures LockSafe(Acquire(s, p, l, want, have), k)
  {
  }

  lemma ReleaseSafe(s: State, p: Uproc, l: Lock, next: Ctl, k: Lock)
    requires LockSafe(s, l) && LockSafe(s, k) && Waits(s.ctl[p]).None? && Holds(s.ctl[p], l)
    requires Waits(next).None? && forall j :: Holds(next, j) <==> j != l && Holds(s.ctl[p], j)
    requires forall q: Uproc :: CtlOk(s.ctl[q])
    ensures LockSafe(Release(s, p, l, next), k)
  {
    var m := SemOf(s, l);
    if m.queue != [] {
      var w := m.queue[0];
      assert w in m.queue && w != p;
      assert m.queue == [w] + m.queue[1..];
      GrantedHolds(s.ctl[w], l);
    }
  }

  /** A step that touches no mutex, a death included. */
  lemma MovedSafe(s: State, p: Uproc, next: Ctl, k: Lock)
    requires LockSafe(s, k) && Waits(s.ctl[p]) == Waits(next) == None
    requires Holds(next, k) ==> Holds(s.ctl[p], k)
    requires !k.Term? ==> (Holds(next, k) <==> Holds(s.ctl[p], k))
    ensures LockSafe(s.(ctl := s.ctl[p := next]), k)
  {
  }

  lemma StepSafe(s: State, p: Uproc, a: Act, k: Lock)
    requires SafeInv(s) && Can(s.ctl[p], a)
    ensures LockSafe(Do(s, p, a), k)
  {
    hide LockSafe, Acquire, Release, ProcQueue.NoDup;
    var c := s.ctl[p];
    assert LockSafe(s, k) && CtlOk(c);
    match a
    case CallTerm(rx) => AcquireSafe(s, p, Term(rx), c.(call := WantTerm(rx)), c.(call := HaveTerm(rx)), k);
    case Return => ReleaseSafe(s, p, Term(c.call.rx), c.(call := NoCall), k);
    case PageFault => AcquireSafe(s, p, Pool, c.(fault := WantPool), c.(fault := HavePool(Start)), k);
    case Evict(d) => AcquireSafe(s, p, Flash(d), c.(fault := WantFlash(d, Start)), c.(fault := HaveFlash(d, Start)), k);
    case NoEvict => MovedSafe(s, p, c.(fault := HavePool(Evicted)), k);
    case Load => AcquireSafe(s, p, Flash(p), c.(fault := WantFlash(p, Evicted)), c.(fault := HaveFlash(p, Evicted)), k);
    case IoDone(ok) =>
      var st := if !ok then Failed else if c.fault.st.Start? then Evicted else Loaded;
      ReleaseSafe(s, p, Flash(c.fault.dev), c.(fault := HavePool(st)), k);
    case Finish => ReleaseSafe(s, p, Pool, c.(fault := if c.fault == HavePool(Failed) then Doomed else NoFault), k);
    case Die => MovedSafe(s, p, Ctl(NoCall, NoFault, true), k);
    case Launch => MovedSafe(s, p, Ctl(NoCall, NoFault, false), k);
  }

  lemma StepKeepsSafe(s: State, p: Uproc, a: Act)
    requires SafeInv(s) && Can(s.ctl[p], a)
    ensures SafeInv(Do(s, p, a))
  {
    hide LockSafe, Acquire, Release, ProcQueue.NoDup;
    forall k ensures LockSafe(Do(s, p, a), k) { StepSafe(s, p, a, k); }
    forall q: Uproc ensures CtlOk(Do(s, p, a).ctl[q]) {
      CtlStays(s, p, a, q);
    }
  }

  lemma CtlStays(s: State, p: Uproc, a: Act, q: Uproc)
    requires (forall x: Uproc :: CtlOk(s.ctl[x])) && Can(s.ctl[p], a)
    ensures CtlOk(Do(s, p, a).ctl[q])
  {
    assert CtlOk(s.ctl[q]) && CtlOk(s.ctl[p]);
  }

  lemma BootSafe()
    ensures SafeInv(Boot())
  {
    BootOk();
    forall l ensures LockSafe(Boot(), l) { assert LockOk(Boot(), l); }
  }

  lemma {:induction false} RunKeepsSafe(s: State, run: seq<Event>)
    requires SafeInv(s) && Possible(s, run)
    ensures SafeInv(Exec(s, run))
    decreases |run|
  {
    hide SafeInv, Do, Can;
    if run != [] {
      StepKeepsSafe(s, run[0].p, run[0].a);
      RunKeepsSafe(Do(s, run[0].p, run[0].a), run[1..]);
    }
  }

  /** In every run whatsoever, deaths inside terminal calls included, at most one process is in
      each critical section, and swapPoolSem and the flash mutexes are free exactly when nobody is. */
  lemma ExclusionInEveryRun(run: seq<Event>, p: Uproc, q: Uproc, l: Lock)
    requires Possible(Boot(), run)
    ensures var s := Exec(Boot(), run);
            && (Holds(s.ctl[p], l) && Holds(s.ctl[q], l) ==> p == q)
            && (!l.Term? ==> (SemOf(s, l).value == 1 <==> forall r: Uproc :: !Holds(s.ctl[r], l)))
  {
    BootSafe();
    RunKeepsSafe(Boot(), run);
    var s := Exec(Boot(), run);
    hide Exec, Boot;
    assert LockSafe(s, l);
    SafeOwner(s, l);
  }

  lemma SafeOwner(s: State, l: Lock)
    requires LockSafe(s, l)
    ensures Owner(s, l).Some? && !l.Term? ==> Holds(s.ctl[Owner(s, l).value], l)
  {
  }

  /** The order in which locks are taken: terminal, swap pool, flash. */
  function Rank(l: Lock): nat {
    match l
    case Term(_) => 0
    case Pool => 1
    case Flash(_) => 2
  }

  /** A process that waits for a lock holds only locks of lower rank, and never two of one rank. */
  lemma HoldsOnlyLower(s: State, p: Uproc, l: Lock, k: Lock)
    requires LockInv(s) && Waits(s.ctl[p]) == Some(l) && Holds(s.ctl[p], k)
    ensures Rank(k) < Rank(l)
    ensures forall j :: Holds(s.ctl[p], j) && Rank(j) == Rank(k) ==> j == k
  {
    assert CtlOk(s.ctl[p]);
  }

  predicate WaitsFor(s: State, p: Uproc, q: Uproc) {
    Waits(s.ctl[p]).Some? && Holds(s.ctl[q], Waits(s.ctl[p]).value)
  }

  predicate WaitChain(s: State, ps: seq<Uproc>) {
    forall i :: 0 <= i < |ps| - 1 ==> WaitsFor(s, ps[i], ps[i + 1])
  }

  /** Along a chain of waiting processes the rank of the awaited lock grows. */
  lemma {:induction false} ChainRanks(s: State, ps: seq<Uproc>, i: nat)
    requires LockInv(s) && WaitChain(s, ps) && i + 1 < |ps| && Waits(s.ctl[ps[i]]).Some?
    ensures i <= Rank(Waits(s.ctl[ps[i]]).value)
    ensures i > 0 ==> Waits(s.ctl[ps[0]]).Some? && Rank(Waits(s.ctl[ps[0]]).value) < Rank(Waits(s.ctl[ps[i]]).value)
  {
    hide LockInv;
    if i > 0 {
      assert WaitsFor(s, ps[i - 1], ps[i]);
      ChainRanks(s, ps, i - 1);
      HoldsOnlyLower(s, ps[i], Waits(s.ctl[ps[i]]).value, Waits(s.ctl[ps[i - 1]]).value);
    }
  }

  /** No circular wait: no chain of waiting processes returns to where it began, and
      none has more than three waits. */
  lemma NoCircularWait(s: State, ps: seq<Uproc>)
    requires LockInv(s) && WaitChain(s, ps) && |ps| >= 2
    ensures ps[0] != ps[|ps| - 1] && |ps| <= 4
  {
    hide LockInv;
    var n := |ps| - 1;
    assert WaitsFor(s, ps[n - 1], ps[n]) && WaitsFor(s, ps[0], ps[1]);
    ChainRanks(s, ps, n - 1);
    var l := Waits(s.ctl[ps[n - 1]]).value;
    if ps[0] == ps[n] {
      HoldsOnlyLower(s, ps[n], Waits(s.ctl[ps[0]]).value, l);
    }
  }

  /** Whoever is blocked is blocked, directly or through others, behind a live process
      that holds a lock and is not blocked itself. */
  lemma {:induction false} SomebodyRuns(s: State, p: Uproc) returns (ps: seq<Uproc>)
    requires LockInv(s) && Waits(s.ctl[p]).Some?
    ensures |ps| >= 2 && ps[0] == p && WaitChain(s, ps)
    ensures var q := ps[|ps| - 1]; Waits(s.ctl[q]).None? && !s.ctl[q].dead
    decreases 3 - Rank(Waits(s.ctl[p]).value)
  {
    var l := Waits(s.ctl[p]).value;
    assert LockOk(s, l);
    assert p in SemOf(s, l).queue;
    var q := Owner(s, l).value;
    assert Holds(s.ctl[q], l) && CtlOk(s.ctl[q]);
    if Waits(s.ctl[q]).None? {
      ps := [p, q];
    } else {
      HoldsOnlyLower(s, q, Waits(s.ctl[q]).value, l);
      var rest := SomebodyRuns(s, q);
      ps := [p] + rest;
      assert forall i :: 1 <= i < |ps| - 1 ==> WaitsFor(s, rest[i - 1], rest[i]);
    }
  }

  /** How many steps the pager has still to take. */
  function StepsLeft(c: Ctl): nat {
    match c.fault
    case NoFault => 0
    case Doomed => 1
    case WantPool => 9
    case HavePool(st) => if st.Start? then 8 else if st.Evicted? then 5 else 2
    case WantFlash(_, st) => if st.Start? then 7 else 4
    case HaveFlash(_, st) => if st.Start? then 6 else 3
  }

  /** The critical section of the pager is short: each step of its owner brings the owner
      closer to the end, and no step of anybody else sets it back. */
  lemma PagerFinishes(s: State, p: Uproc, q: Uproc, a: Act)
    requires LockInv(s) && Can(s.ctl[q], a) && Holds(s.ctl[p], Pool)
    ensures var left := StepsLeft(Do(s, q, a).ctl[p]);
            if p == q then left < StepsLeft(s.ctl[p]) else left <= StepsLeft(s.ctl[p])
  {
    hide LockOk;
    if p == q {
      OwnStep(s, p, a);
    }
  }

  lemma OwnStep(s: State, p: Uproc, a: Act)
    requires LockInv(s) && Can(s.ctl[p], a) && Holds(s.ctl[p], Pool)
    ensures StepsLeft(Do(s, p, a).ctl[p]) < StepsLeft(s.ctl[p])
  {
    forall l ensures p !in SemOf(s, l).queue { assert LockOk(s, l); }
    hide LockInv, LockOk;
    var c := s.ctl[p];
    match a
    case IoDone(ok) => assert p !in SemOf(s, Flash(c.fault.dev)).queue;
    case Finish => assert p !in SemOf(s, Pool).queue;
    case _ =>
  }

  // -------------------------------------------- dying in the middle of a terminal call

  /** Death is harmless exactly when no terminal mutex is held. */
  lemma DeathIsSafeIff(s: State, p: Uproc)
    requires LockInv(s) && Can(s.ctl[p], Die)
    ensures LockInv(Do(s, p, Die)) <==> s.ctl[p].call.NoCall?
  {
    if s.ctl[p].call.NoCall? {
      StepKeeps(s, p, Die);
    } else {
      var l := Term(s.ctl[p].call.rx);
      assert CtlOk(s.ctl[p]) && LockOk(s, l) && Holds(s.ctl[p], l);
      var r := Do(s, p, Die);
      assert Owner(r, l) == Some(p) && !Holds(r.ctl[p], l);
      assert !LockOk(r, l);
    }
  }

  /** The queue of `j` still means what it should. */
  ghost predicate QueueOk(s: State, j: Lock) {
    && ProcQueue.NoDup(SemOf(s, j).queue)
    && forall p: Uproc :: p in SemOf(s, j).queue <==> Waits(s.ctl[p]) == Some(j)
  }

  ghost predicate QueuesOk(s: State) {
    (forall p: Uproc :: CtlOk(s.ctl[p])) && forall j :: QueueOk(s, j)
  }

  /** `l` was acquired last by U-proc `d` and not released, and nobody, nor `d` if it has been
      launched again, is in the critical section. */
  ghost predicate Orphaned(s: State, l: Lock, d: Uproc) {
    && Owner(s, l) == Some(d)
    && SemOf(s, l).value <= 0 && forall p: Uproc :: !Holds(s.ctl[p], l)
  }

  lemma DeathOrphans(s: State, p: Uproc)
    requires LockInv(s) && Can(s.ctl[p], Die) && s.ctl[p].call.HaveTerm?
    ensures var r := Do(s, p, Die); QueuesOk(r) && Orphaned(r, Term(s.ctl[p].call.rx), p)
  {
    var l, r := Term(s.ctl[p].call.rx), Do(s, p, Die);
    assert LockOk(s, l) && Holds(s.ctl[p], l);
    forall j ensures QueueOk(r, j) {
      assert LockOk(s, j);
    }
    forall q: Uproc | q != p ensures !Holds(s.ctl[q], l) { }
  }

  lemma AcquireQueues(s: State, p: Uproc, l: Lock, want: Ctl, have: Ctl)
    requires QueuesOk(s) && Waits(s.ctl[p]).None? && CtlOk(want) && CtlOk(have)
    requires Waits(want) == Some(l) && Waits(have).None?
    ensures QueuesOk(Acquire(s, p, l, want, have))
  {
    forall j ensures QueueOk(Acquire(s, p, l, want, have), j) {
      assert QueueOk(s, j) && QueueOk(s, l);
    }
  }

  lemma ReleaseQueues(s: State, p: Uproc, l: Lock, next: Ctl)
    requires QueuesOk(s) && Waits(s.ctl[p]).None? && CtlOk(next) && Waits(next).None?
    ensures QueuesOk(Release(s, p, l, next))
  {
    var m, r := SemOf(s, l), Release(s, p, l, next);
    assert QueueOk(s, l);
    if m.queue != [] {
      var w := m.queue[0];
      assert w in m.queue;
      assert m.queue == [w] + m.queue[1..];
      GrantedHolds(s.ctl[w], l);
    }
    forall j ensures QueueOk(r, j) {
      assert QueueOk(s, j);
    }
  }

  /** Locks and waiters of `l` are out of reach of a step that acquires or releases another
      lock, or that finds `l` taken. */
  lemma AcquireOrphan(s: State, p: Uproc, k: Lock, want: Ctl, have: Ctl, l: Lock, d: Uproc)
    requires QueuesOk(s) && Orphaned(s, l, d) && Waits(s.ctl[p]).None?
    requires forall j :: Holds(want, j) <==> Holds(s.ctl[p], j)
    requires forall j :: Holds(have, j) <==> j == k || Holds(s.ctl[p], j)
    ensures Orphaned(Acquire(s, p, k, want, have), l, d)
  {
  }

  lemma ReleaseOrphan(s: State, p: Uproc, k: Lock, next: Ctl, l: Lock, d: Uproc)
    requires QueuesOk(s) && Orphaned(s, l, d) && Waits(s.ctl[p]).None?
    requires Holds(s.ctl[p], k) && forall j :: Holds(next, j) ==> Holds(s.ctl[p], j)
    ensures Orphaned(Release(s, p, k, next), l, d)
  {
    var m := SemOf(s, k);
    assert k != l;
    if m.queue != [] {
      assert QueueOk(s, k) && m.queue[0] in m.queue;
      assert CtlOk(s.ctl[m.queue[0]]);
      GrantedHolds(s.ctl[m.queue[0]], k);
    }
  }

  /** Nobody ever gets past an orphaned mutex: whatever is done, launches included, it stays orphaned, and who
      waits for it goes on waiting. */
  lemma StepOrphan(s: State, p: Uproc, a: Act, l: Lock, d: Uproc, x: Uproc)
    requires QueuesOk(s) && Orphaned(s, l, d) && Can(s.ctl[p], a)
    ensures var r := Do(s, p, a);
            && QueuesOk(r) && Orphaned(r, l, d)
            && (Waits(s.ctl[x]) == Some(l) ==> Waits(r.ctl[x]) == Some(l))
  {
    hide Acquire, Release, QueuesOk;
    var c := s.ctl[p];
    OrphanCtl(s, p);
    match a
    case CallTerm(rx) => AcquireBoth(s, p, Term(rx), c.(call := WantTerm(rx)), c.(call := HaveTerm(rx)), l, d, x);
    case Return => ReleaseBoth(s, p, Term(c.call.rx), c.(call := NoCall), l, d, x);
    case PageFault => AcquireBoth(s, p, Pool, c.(fault := WantPool), c.(fault := HavePool(Start)), l, d, x);
    case Evict(v) => AcquireBoth(s, p, Flash(v), c.(fault := WantFlash(v, Start)), c.(fault := HaveFlash(v, Start)), l, d, x);
    case NoEvict => MovedBoth(s, p, c.(fault := HavePool(Evicted)), l, d);
    case Load => AcquireBoth(s, p, Flash(p), c.(fault := WantFlash(p, Evicted)), c.(fault := HaveFlash(p, Evicted)), l, d, x);
    case IoDone(ok) =>
      var st := if !ok then Failed else if c.fault.st.Start? then Evicted else Loaded;
      ReleaseBoth(s, p, Flash(c.fault.dev), c.(fault := HavePool(st)), l, d, x);
    case Finish =>
      ReleaseBoth(s, p, Pool, c.(fault := if c.fault == HavePool(Failed) then Doomed else NoFault), l, d, x);
    case Die => MovedBoth(s, p, Ctl(NoCall, NoFault, true), l, d);
    case Launch => MovedBoth(s, p, Ctl(NoCall, NoFault, false), l, d);
  }

  lemma OrphanCtl(s: State, p: Uproc)
    requires QueuesOk(s)
    ensures CtlOk(s.ctl[p])
  {
  }

  lemma MovedBoth(s: State, p: Uproc, next: Ctl, l: Lock, d: Uproc)
    requires QueuesOk(s) && Orphaned(s, l, d) && CtlOk(next) && Waits(s.ctl[p]) == Waits(next) == None
    requires forall j :: Holds(next, j) ==> Holds(s.ctl[p], j)
    ensures var r := s.(ctl := s.ctl[p := next]); QueuesOk(r) && Orphaned(r, l, d)
  {
    var r := s.(ctl := s.ctl[p := next]);
    forall j ensures QueueOk(r, j) { assert QueueOk(s, j); }
  }

  lemma AcquireBoth(s: State, p: Uproc, k: Lock, want: Ctl, have: Ctl, l: Lock, d: Uproc, x: Uproc)
    requires QueuesOk(s) && Orphaned(s, l, d) && Waits(s.ctl[p]).None? && CtlOk(want) && CtlOk(have)
    requires Waits(want) == Some(k) && Waits(have).None?
    requires forall j :: Holds(want, j) <==> Holds(s.ctl[p], j)
    requires forall j :: Holds(have, j) <==> j == k || Holds(s.ctl[p], j)
    ensures var r := Acquire(s, p, k, want, have);
            QueuesOk(r) && Orphaned(r, l, d) && (Waits(s.ctl[x]) == Some(l) ==> Waits(r.ctl[x]) == Some(l))
  {
    AcquireQueues(s, p, k, want, have);
    AcquireOrphan(s, p, k, want, have, l, d);
  }

  lemma ReleaseBoth(s: State, p: Uproc, k: Lock, next: Ctl, l: Lock, d: Uproc, x: Uproc)
    requires QueuesOk(s) && Orphaned(s, l, d) && Waits(s.ctl[p]).None? && CtlOk(next) && Waits(next).None?
    requires Holds(s.ctl[p], k) && forall j :: Holds(next, j) ==> Holds(s.ctl[p], j)
    ensures var r := Release(s, p, k, next);
            QueuesOk(r) && Orphaned(r, l, d) && (Waits(s.ctl[x]) == Some(l) ==> Waits(r.ctl[x]) == Some(l))
  {
    ReleaseQueues(s, p, k, next);
    ReleaseOrphan(s, p, k, next, l, d);
    var m := SemOf(s, k);
    if m.queue != [] {
      assert QueueOk(s, k) && m.queue[0] in m.queue;
    }
  }

  /** A process that dies while it holds a terminal mutex takes the terminal with it: in
      every continuation whoever waits for the mutex waits for ever. */
  lemma {:induction false} OrphanedForEver(s: State, run: seq<Event>, l: Lock, d: Uproc, x: Uproc)
    requires QueuesOk(s) && Orphaned(s, l, d) && Possible(s, run)
    ensures Orphaned(Exec(s, run), l, d)
    ensures Waits(s.ctl[x]) == Some(l) ==> Waits(Exec(s, run).ctl[x]) == Some(l)
    decreases |run|
  {
    hide QueuesOk, Orphaned, Do, Can;
    if run != [] {
      StepOrphan(s, run[0].p, run[0].a, l, d, x);
      OrphanedForEver(Do(s, run[0].p, run[0].a), run[1..], l, d, x);
    }
  }

  /** How it comes about: the user buffer of a terminal call faults, the page goes to a free
      frame, and the flash read fails; the pager gives swapPoolSem back and ends the process. */
  function Lost(d: Uproc, rx: bool): seq<Event> {
    [Event(d, CallTerm(rx)), Event(d, PageFault), Event(d, NoEvict), Event(d, Load), Event(d, IoDone(false)),
     Event(d, Finish), Event(d, Die)]
  }

  lemma RunStep(s: State, run: seq<Event>)
    requires run != []
    ensures Possible(s, run) <==> Can(s.ctl[run[0].p], run[0].a) && Possible(Do(s, run[0].p, run[0].a), run[1..])
    ensures Exec(s, run) == Exec(Do(s, run[0].p, run[0].a), run[1..])
  {
  }

  /** Everybody but `d` is outside all critical sections. */
  ghost predicate Alone(s: State, d: Uproc, c: Ctl) {
    LockInv(s) && s.ctl[d] == c && forall q: Uproc :: q != d ==> s.ctl[q] == Ctl(NoCall, NoFault, false)
  }

  /** Then no lock makes `d` wait that it does not hold itself. */
  lemma AloneIsFree(s: State, d: Uproc, c: Ctl, l: Lock)
    requires Alone(s, d, c) && !Holds(c, l)
    ensures SemOf(s, l).value == 1
  {
    LockMeans(s, l);
  }

  lemma LockMeans(s: State, l: Lock)
    requires LockInv(s)
    ensures SemOf(s, l).value == 1 || (Owner(s, l).Some? && Holds(s.ctl[Owner(s, l).value], l))
    ensures SemOf(s, l).queue != [] ==> Waits(s.ctl[SemOf(s, l).queue[0]]) == Some(l)
  {
    assert LockOk(s, l);
    var w := SemOf(s, l).queue;
    assert w != [] ==> w[0] in w;
  }

  lemma AloneTakes(s: State, d: Uproc, c: Ctl, a: Act, l: Lock, have: Ctl)
    requires Alone(s, d, c) && Can(c, a) && !Holds(c, l)
    requires || (a.CallTerm? && l == Term(a.rx) && have == c.(call := HaveTerm(a.rx)))
             || (a.PageFault? && l == Pool && have == c.(fault := HavePool(Start)))
             || (a.Load? && l == Flash(d) && have == c.(fault := HaveFlash(d, Evicted)))
    ensures Alone(Do(s, d, a), d, have)
  {
    hide LockInv;
    AloneIsFree(s, d, c, l);
    StepKeeps(s, d, a);
  }

  lemma AloneGives(s: State, d: Uproc, c: Ctl, a: Act, l: Lock, next: Ctl)
    requires Alone(s, d, c) && Can(c, a) && Holds(c, l)
    requires || (a.IoDone? && l == Flash(c.fault.dev) && !a.ok && next == c.(fault := HavePool(Failed)))
             || (a.Finish? && l == Pool && c.fault == HavePool(Failed) && next == c.(fault := Doomed))
    ensures Alone(Do(s, d, a), d, next)
  {
    NobodyWaits(s, d, c, l);
    StepKeeps(s, d, a);
  }

  lemma NobodyWaits(s: State, d: Uproc, c: Ctl, l: Lock)
    requires Alone(s, d, c) && Waits(c).None?
    ensures SemOf(s, l).queue == []
  {
    LockMeans(s, l);
  }

  /** Inside the terminal call, up to the read that is going to fail. */
  lemma LostFaults(d: Uproc, rx: bool, s1: State, s2: State, s3: State)
    requires Alone(s1, d, Ctl(HaveTerm(rx), NoFault, false))
    requires s2 == Do(s1, d, PageFault) && s3 == Do(s2, d, NoEvict)
    ensures Can(s1.ctl[d], PageFault) && Can(s2.ctl[d], NoEvict)
    ensures Alone(s3, d, Ctl(HaveTerm(rx), HavePool(Evicted), false))
  {
    hide LockInv, Do;
    var c1 := Ctl(HaveTerm(rx), NoFault, false);
    AloneTakes(s1, d, c1, PageFault, Pool, c1.(fault := HavePool(Start)));
    AloneMoves(s2, d, c1.(fault := HavePool(Start)));
  }

  lemma LostFails(d: Uproc, rx: bool, s3: State, s4: State, s5: State, s6: State)
    requires Alone(s3, d, Ctl(HaveTerm(rx), HavePool(Evicted), false))
    requires s4 == Do(s3, d, Load) && s5 == Do(s4, d, IoDone(false)) && s6 == Do(s5, d, Finish)
    ensures Can(s3.ctl[d], Load) && Can(s4.ctl[d], IoDone(false)) && Can(s5.ctl[d], Finish)
    ensures Alone(s6, d, Ctl(HaveTerm(rx), Doomed, false))
  {
    hide LockInv, Do;
    var c1 := Ctl(HaveTerm(rx), NoFault, false);
    AloneTakes(s3, d, c1.(fault := HavePool(Evicted)), Load, Flash(d), c1.(fault := HaveFlash(d, Evicted)));
    AloneGives(s4, d, c1.(fault := HaveFlash(d, Evicted)), IoDone(false), Flash(d), c1.(fault := HavePool(Failed)));
    AloneGives(s5, d, c1.(fault := HavePool(Failed)), Finish, Pool, c1.(fault := Doomed));
  }

  lemma LostIsPossible(d: Uproc, rx: bool)
    ensures Possible(Boot(), Lost(d, rx))
    ensures var r := Exec(Boot(), Lost(d, rx)); QueuesOk(r) && Orphaned(r, Term(rx), d)
  {
    BootOk();
    hide LockInv, Do, Exec, Possible, QueuesOk, Orphaned, Holds;
    var s0 := Boot();
    assert !Holds(Ctl(NoCall, NoFault, false), Term(rx)) by { NothingHeld(Term(rx)); }
    AloneTakes(s0, d, Ctl(NoCall, NoFault, false), CallTerm(rx), Term(rx), Ctl(HaveTerm(rx), NoFault, false));
    var s1 := Do(s0, d, CallTerm(rx));
    var s2 := Do(s1, d, PageFault);
    var s3 := Do(s2, d, NoEvict);
    LostFaults(d, rx, s1, s2, s3);
    var s4 := Do(s3, d, Load);
    var s5 := Do(s4, d, IoDone(false));
    var s6 := Do(s5, d, Finish);
    LostFails(d, rx, s3, s4, s5, s6);
    DeathOrphans(s6, d);
    FollowLost(d, rx, s0, s1, s2, s3, s4, s5, s6);
  }

  lemma NothingHeld(l: Lock)
    ensures !Holds(Ctl(NoCall, NoFault, false), l)
  {
  }

  lemma FollowLost(d: Uproc, rx: bool, s0: State, s1: State, s2: State, s3: State, s4: State, s5: State, s6: State)
    requires Can(s0.ctl[d], CallTerm(rx)) && s1 == Do(s0, d, CallTerm(rx))
    requires Can(s1.ctl[d], PageFault) && s2 == Do(s1, d, PageFault)
    requires Can(s2.ctl[d], NoEvict) && s3 == Do(s2, d, NoEvict)
    requires Can(s3.ctl[d], Load) && s4 == Do(s3, d, Load)
    requires Can(s4.ctl[d], IoDone(false)) && s5 == Do(s4, d, IoDone(false))
    requires Can(s5.ctl[d], Finish) && s6 == Do(s5, d, Finish) && Can(s6.ctl[d], Die)
    ensures Possible(s0, Lost(d, rx)) && Exec(s0, Lost(d, rx)) == Do(s6, d, Die)
  {
    hide Do, Can, Possible, Exec;
    var run := Lost(d, rx);
    assert forall i :: 0 <= i < 7 ==> run[i..][1..] == run[i + 1..] && run[i..][0] == run[i];
    assert run[7..] == [];
    RunStep(s0, run);
    RunStep(s1, run[1..]);
    RunStep(s2, run[2..]);
    RunStep(s3, run[3..]);
    RunStep(s4, run[4..]);
    RunStep(s5, run[5..]);
    RunStep(s6, run[6..]);
    RunEnds(Do(s6, d, Die));
  }

  lemma AloneMoves(s: State, d: Uproc, c: Ctl)
    requires Alone(s, d, c) && c.fault == HavePool(Start) && !c.dead
    ensures Alone(Do(s, d, NoEvict), d, c.(fault := HavePool(Evicted)))
  {
    StepKeeps(s, d, NoEvict);
  }

  lemma RunEnds(s: State)
    ensures Possible(s, []) && Exec(s, []) == s
  {
  }

  /** From boot by such a death: in every continuation nobody gets that terminal again. */
  lemma TerminalIsLost(d: Uproc, rx: bool, run: seq<Event>, x: Uproc)
    requires Possible(Exec(Boot(), Lost(d, rx)), run)
    ensures Possible(Boot(), Lost(d, rx))
    ensures var s, l := Exec(Boot(), Lost(d, rx)), Term(rx);
            && Orphaned(s, l, d) && Orphaned(Exec(s, run), l, d) && !Holds(Exec(s, run).ctl[x], l)
            && SemOf(Exec(s, run), l).value <= 0
  {
    LostIsPossible(d, rx);
    OrphanedForEver(Exec(Boot(), Lost(d, rx)), run, Term(rx), d, x);
  }

  // ------------------------------------------------------------- the way through the pager

  /** The steps of one U-proc that belong to its present or last page fault. */
  function Course(run: seq<Event>, p: Uproc): seq<Act> {
    if run == [] then []
    else
      var before, ev := Course(run[..|run| - 1], p), run[|run| - 1];
      if ev.p != p || ev.a.CallTerm? || ev.a.Return? then before
      else if ev.a.PageFault? then [PageFault]
      else if ev.a.Launch? then []
      else before + [ev.a]
  }

  /** Up to the read: into a free frame, or behind a write-back that succeeded. */
  predicate Prepared(o: seq<Act>) {
    o == [PageFault, NoEvict] || exists d :: o == [PageFault, Evict(d), IoDone(true)]
  }

  predicate ReadIn(o: seq<Act>, ok: bool) {
    |o| >= 2 && Prepared(o[..|o| - 2]) && o[|o| - 2..] == [Load, IoDone(ok)]
  }

  /** One of the transfers has failed, and nothing has come after it. */
  predicate Broken(o: seq<Act>) {
    (exists d :: o == [PageFault, Evict(d), IoDone(false)]) || ReadIn(o, false)
  }

  /** Behind the pager: nothing since the launch, or a course that ended well. */
  predicate Home(o: seq<Act>) {
    o == [] || (|o| >= 1 && ReadIn(o[..|o| - 1], true) && o[|o| - 1] == Finish)
  }

  /** The pager has given swapPoolSem back after a failure. */
  predicate Ruined(o: seq<Act>) { |o| >= 1 && Broken(o[..|o| - 1]) && o[|o| - 1] == Finish }

  /** Where the U-proc stands in the pager is where these steps lead. */
  predicate Explained(c: Ctl, o: seq<Act>, p: Uproc) {
    if c.dead then |o| >= 1 && o[|o| - 1] == Die && (Home(o[..|o| - 1]) || Ruined(o[..|o| - 1]))
    else
      match c.fault
      case NoFault => Home(o)
      case WantPool => o == [PageFault]
      case HavePool(st) =>
        (match st
         case Start => o == [PageFault]
         case Evicted => Prepared(o)
         case Loaded => ReadIn(o, true)
         case Failed => Broken(o))
      case WantFlash(d, st) =>
        if st.Start? then o == [PageFault, Evict(d)]
        else st.Evicted? && d == p && |o| >= 1 && Prepared(o[..|o| - 1]) && o[|o| - 1] == Load
      case HaveFlash(d, st) =>
        if st.Start? then o == [PageFault, Evict(d)]
        else st.Evicted? && d == p && |o| >= 1 && Prepared(o[..|o| - 1]) && o[|o| - 1] == Load
      case Doomed => Ruined(o)
  }

  /** Where the own step of a U-proc leads, whether it has to wait or not. */
  lemma OwnStepLeads(s: State, p: Uproc, a: Act)
    requires SafeInv(s) && Can(s.ctl[p], a)
    ensures var c, n := s.ctl[p], Do(s, p, a).ctl[p];
            match a
            case CallTerm(_) => n.fault.NoFault? && !n.dead
            case Return => n.fault.NoFault? && !n.dead
            case PageFault => n == c.(fault := WantPool) || n == c.(fault := HavePool(Start))
            case Evict(d) => n == c.(fault := WantFlash(d, Start)) || n == c.(fault := HaveFlash(d, Start))
            case NoEvict => n == c.(fault := HavePool(Evicted))
            case Load => n == c.(fault := WantFlash(p, Evicted)) || n == c.(fault := HaveFlash(p, Evicted))
            case IoDone(ok) =>
              c.fault.HaveFlash? && n == c.(fault := HavePool(if !ok then Failed else if c.fault.st.Start? then Evicted else Loaded))
            case Finish => n == c.(fault := if c.fault == HavePool(Failed) then Doomed else NoFault)
            case Die => n.dead
            case Launch => n == Ctl(NoCall, NoFault, false)
  {
    var c := s.ctl[p];
    assert forall l :: LockSafe(s, l);
    hide LockSafe, ProcQueue.NoDup;
    match a
    case Return => WokenWaits(s, Term(c.call.rx));
    case IoDone(ok) => WokenWaits(s, Flash(c.fault.dev));
    case Finish => WokenWaits(s, Pool);
    case _ =>
  }

  lemma Extended(o: seq<Act>, a: Act)
    ensures (o + [a])[..|o|] == o && (o + [a])[|o|] == a && |o + [a]| == |o| + 1
    ensures |o| >= 1 ==> (o + [a])[..|o| - 1] == o[..|o| - 1] && (o + [a])[|o| - 1..] == [o[|o| - 1], a]
  {
  }

  lemma OwnCourse(s: State, p: Uproc, a: Act, o: seq<Act>)
    requires SafeInv(s) && Can(s.ctl[p], a) && Explained(s.ctl[p], o, p)
    ensures var n := if a.CallTerm? || a.Return? then o else if a.PageFault? then [PageFault] else if a.Launch? then [] else o + [a];
            Explained(Do(s, p, a).ctl[p], n, p)
  {
    OwnStepLeads(s, p, a);
    Extended(o, a);
    hide SafeInv, Do;
    StepExplained(s.ctl[p], Do(s, p, a).ctl[p], p, a, o);
  }

  lemma StepExplained(c: Ctl, n: Ctl, p: Uproc, a: Act, o: seq<Act>)
    requires Can(c, a) && Explained(c, o, p)
    requires match a
             case CallTerm(_) => n.fault.NoFault? && !n.dead
             case Return => n.fault.NoFault? && !n.dead
             case PageFault => n == c.(fault := WantPool) || n == c.(fault := HavePool(Start))
             case Evict(d) => n == c.(fault := WantFlash(d, Start)) || n == c.(fault := HaveFlash(d, Start))
             case NoEvict => n == c.(fault := HavePool(Evicted))
             case Load => n == c.(fault := WantFlash(p, Evicted)) || n == c.(fault := HaveFlash(p, Evicted))
             case IoDone(ok) =>
               c.fault.HaveFlash? && n == c.(fault := HavePool(if !ok then Failed else if c.fault.st.Start? then Evicted else Loaded))
             case Finish => n == c.(fault := if c.fault == HavePool(Failed) then Doomed else NoFault)
             case Die => n.dead
             case Launch => n == Ctl(NoCall, NoFault, false)
    ensures var h := if a.CallTerm? || a.Return? then o else if a.PageFault? then [PageFault] else if a.Launch? then [] else o + [a];
            Explained(n, h, p)
  {
    Extended(o, a);
    assert Home([]);
    hide Prepared, ReadIn, Broken, Home, Ruined;
    match a
    case Evict(d) => assert o + [a] == [PageFault, Evict(d)];
    case NoEvict => FreeFrame(o);
    case IoDone(ok) => if c.fault.st.Start? { WriteEnds(o, c.fault.dev, ok); } else { ReadEnds(o, ok); }
    case Finish => PagerEnds(o);
    case _ =>
  }

  lemma FreeFrame(o: seq<Act>)
    ensures o == [PageFault] ==> Prepared(o + [NoEvict])
  {
    assert o == [PageFault] ==> o + [NoEvict] == [PageFault, NoEvict];
  }

  lemma WriteEnds(o: seq<Act>, d: Uproc, ok: bool)
    requires o == [PageFault, Evict(d)]
    ensures if ok then Prepared(o + [IoDone(ok)]) else Broken(o + [IoDone(ok)])
  {
    assert o + [IoDone(ok)] == [PageFault, Evict(d), IoDone(ok)];
  }

  lemma ReadEnds(o: seq<Act>, ok: bool)
    requires |o| >= 1 && Prepared(o[..|o| - 1]) && o[|o| - 1] == Load
    ensures ReadIn(o + [IoDone(ok)], ok) && (!ok ==> Broken(o + [IoDone(ok)]))
  {
    hide Prepared;
    var r := o + [IoDone(ok)];
    assert r[..|r| - 2] == o[..|o| - 1] && r[|r| - 2..] == [Load, IoDone(ok)];
  }

  lemma PagerEnds(o: seq<Act>)
    ensures ReadIn(o, true) ==> Home(o + [Finish])
    ensures Broken(o) ==> Ruined(o + [Finish])
  {
    hide ReadIn, Broken;
    assert (o + [Finish])[..|o|] == o;
  }

  /** A step of another one changes nothing, or grants the lock that is waited for. */
  lemma OthersCourse(s: State, p: Uproc, q: Uproc, a: Act, o: seq<Act>)
    requires SafeInv(s) && Can(s.ctl[q], a) && p != q && Explained(s.ctl[p], o, p)
    ensures Explained(Do(s, q, a).ctl[p], o, p)
  {
    hide Home, Ruined, Broken, ReadIn, Prepared;
    OthersSee(s, p, q, a);
    assert CtlOk(s.ctl[p]);
  }

  lemma OthersSee(s: State, p: Uproc, q: Uproc, a: Act)
    requires SafeInv(s) && Can(s.ctl[q], a) && p != q
    ensures var c := Do(s, q, a).ctl[p]; c == s.ctl[p] || (Waits(s.ctl[p]).Some? && c == Granted(s.ctl[p]))
  {
    var c := s.ctl[q];
    assert forall l :: LockSafe(s, l);
    hide LockSafe, ProcQueue.NoDup;
    match a
    case Return => WokenWaits(s, Term(c.call.rx));
    case IoDone(ok) => WokenWaits(s, Flash(c.fault.dev));
    case Finish => WokenWaits(s, Pool);
    case _ =>
  }

  lemma WokenWaits(s: State, l: Lock)
    requires LockSafe(s, l)
    ensures SemOf(s, l).queue != [] ==> Waits(s.ctl[SemOf(s, l).queue[0]]) == Some(l)
  {
    var w := SemOf(s, l).queue;
    assert w != [] ==> w[0] in w;
  }

  lemma {:induction false} EverythingExplained(run: seq<Event>, p: Uproc)
    requires Possible(Boot(), run)
    ensures SafeInv(Exec(Boot(), run)) && Explained(Exec(Boot(), run).ctl[p], Course(run, p), p)
    decreases |run|
  {
    hide Explained, SafeInv, Do, Can;
    if run == [] {
      BootSafe();
      BootExplained(p);
    } else {
      var front, ev := run[..|run| - 1], run[|run| - 1];
      assert run == front + [ev];
      RunSplits(Boot(), front, ev);
      EverythingExplained(front, p);
      var s := Exec(Boot(), front);
      StepKeepsSafe(s, ev.p, ev.a);
      if ev.p == p { OwnCourse(s, p, ev.a, Course(front, p)); } else { OthersCourse(s, p, ev.p, ev.a, Course(front, p)); }
    }
  }

  lemma BootExplained(p: Uproc)
    ensures Explained(Boot().ctl[p], [], p)
  {
  }

  lemma {:induction false} RunSplits(s: State, run: seq<Event>, ev: Event)
    ensures Exec(s, run + [ev]) == Do(Exec(s, run), ev.p, ev.a)
    ensures Possible(s, run + [ev]) <==> Possible(s, run) && Can(Exec(s, run).ctl[ev.p], ev.a)
    decreases |run|
  {
    hide Do, Can;
    if run == [] {
      var t := Do(s, ev.p, ev.a);
      assert [] + [ev] == [ev] && [ev][1..] == [];
      assert Exec(t, []) == t && Possible(t, []);
    } else {
      RunSplits(Do(s, run[0].p, run[0].a), run[1..], ev);
      assert (run + [ev])[1..] == run[1..] + [ev];
    }
  }

  /** In every run a live U-proc is on its way to death in the pager exactly if one of its own
      transfers since its last fault has failed. Behind a write-back that succeeded, or with a
      free frame, it goes on to the read; with the page read in it can leave; and if no transfer
      of its own has failed, it is back in its program once it has left. */
  lemma OnlyFailureIsFatal(run: seq<Event>, p: Uproc)
    requires Possible(Boot(), run)
    ensures var c, o := Exec(Boot(), run).ctl[p], Course(run, p);
            && (!c.dead ==> (c.fault.Doomed? || c.fault == HavePool(Failed) <==> IoDone(false) in o))
            && (o == [PageFault, NoEvict] || (exists d :: o == [PageFault, Evict(d), IoDone(true)]) ==> Can(c, Load))
            && (c.fault == HavePool(Loaded) ==> |o| >= 2 && o[|o| - 2..] == [Load, IoDone(true)])
            && (|o| >= 2 && o[|o| - 2..] == [Load, IoDone(true)] ==> Can(c, Finish))
            && (Finish in o && IoDone(false) !in o && !c.dead ==> c.fault.NoFault?)
  {
    EverythingExplained(run, p);
    var s := Exec(Boot(), run);
    hide Exec, Possible, Course;
    CourseTells(s, p, s.ctl[p], Course(run, p));
  }

  lemma CourseTells(s: State, p: Uproc, c: Ctl, o: seq<Act>)
    requires SafeInv(s) && c == s.ctl[p] && Explained(c, o, p)
    ensures !c.dead ==> (c.fault.Doomed? || c.fault == HavePool(Failed) <==> IoDone(false) in o)
    ensures o == [PageFault, NoEvict] || (exists d :: o == [PageFault, Evict(d), IoDone(true)]) ==> Can(c, Load)
    ensures c.fault == HavePool(Loaded) ==> |o| >= 2 && o[|o| - 2..] == [Load, IoDone(true)]
    ensures |o| >= 2 && o[|o| - 2..] == [Load, IoDone(true)] ==> Can(c, Finish)
    ensures Finish in o && IoDone(false) !in o && !c.dead ==> c.fault.NoFault?
  {
    assert CtlOk(c);
    hide SafeInv;
    FailureTells(c, o, p);
    PlaceTells(c, o, p);
  }

  lemma FailureTells(c: Ctl, o: seq<Act>, p: Uproc)
    requires Explained(c, o, p)
    ensures !c.dead ==> (c.fault.Doomed? || c.fault == HavePool(Failed) <==> IoDone(false) in o)
    ensures Finish in o && IoDone(false) !in o && !c.dead ==> c.fault.NoFault?
  {
    hide Prepared, ReadIn, Broken, Home, Ruined;
    CourseMembers(o);
    HomeMembers(o);
    assert IoDone(false) !in [PageFault] && Finish !in [PageFault];
    assert forall d :: IoDone(false) !in [PageFault, Evict(d)] && Finish !in [PageFault, Evict(d)];
  }

  lemma HomeMembers(o: seq<Act>)
    ensures Home(o) ==> IoDone(false) !in o
    ensures Ruined(o) ==> IoDone(false) in o
    ensures |o| >= 1 && Prepared(o[..|o| - 1]) && o[|o| - 1] == Load ==> IoDone(false) !in o && Finish !in o
  {
    if |o| >= 1 {
      LastAndFront(o);
      CourseMembers(o[..|o| - 1]);
    }
    hide Prepared, ReadIn, Broken;
  }

  lemma LastAndFront(o: seq<Act>)
    requires |o| >= 1
    ensures forall a :: a in o <==> a in o[..|o| - 1] || a == o[|o| - 1]
  {
    assert o == o[..|o| - 1] + [o[|o| - 1]];
  }

  lemma PlaceTells(c: Ctl, o: seq<Act>, p: Uproc)
    requires CtlOk(c) && Explained(c, o, p)
    ensures o == [PageFault, NoEvict] || (exists d :: o == [PageFault, Evict(d), IoDone(true)]) ==> Can(c, Load)
    ensures c.fault == HavePool(Loaded) ==> |o| >= 2 && o[|o| - 2..] == [Load, IoDone(true)]
    ensures |o| >= 2 && o[|o| - 2..] == [Load, IoDone(true)] ==> Can(c, Finish)
  {
    LastTells(c, o, p);
    hide *;
    ReadyToRead(c, o);
    LeavesLoaded(c, o);
  }

  lemma ReadyToRead(c: Ctl, o: seq<Act>)
    requires CtlOk(c) && Ends(c, o)
    ensures o == [PageFault, NoEvict] || (exists d :: o == [PageFault, Evict(d), IoDone(true)]) ==> Can(c, Load)
  {
    if o == [PageFault, NoEvict] {
      assert o[|o| - 1] == NoEvict;
    } else if exists d :: o == [PageFault, Evict(d), IoDone(true)] {
      assert o[|o| - 2].Evict? && o[|o| - 1] == IoDone(true);
    }
  }

  lemma LeavesLoaded(c: Ctl, o: seq<Act>)
    requires CtlOk(c) && Ends(c, o)
    ensures c.fault == HavePool(Loaded) ==> |o| >= 2 && o[|o| - 2..] == [Load, IoDone(true)]
    ensures |o| >= 2 && o[|o| - 2..] == [Load, IoDone(true)] ==> Can(c, Finish)
  {
    if |o| >= 2 { assert o[|o| - 2..] == [o[|o| - 2], o[|o| - 1]]; }
  }

  /** The end of a course and the place in the pager determine each other. */
  predicate Ends(c: Ctl, o: seq<Act>) {
    if o == [] then !c.dead && c.fault.NoFault?
    else
      match o[|o| - 1]
      case NoEvict => !c.dead && c.fault == HavePool(Evicted)
      case IoDone(ok) =>
        && !c.dead && |o| >= 2
        && (if !ok then c.fault == HavePool(Failed)
            else if o[|o| - 2].Load? then c.fault == HavePool(Loaded)
            else c.fault == HavePool(Evicted))
      case _ => c.dead || (c.fault != HavePool(Loaded) && c.fault != HavePool(Evicted) && c.fault != HavePool(Failed))
  }

  lemma LastTells(c: Ctl, o: seq<Act>, p: Uproc)
    requires CtlOk(c) && Explained(c, o, p)
    ensures Ends(c, o)
  {
    PreparedEnds(o);
    ReadInEnds(o, true);
    ReadInEnds(o, false);
    hide Prepared, ReadIn;
  }

  lemma PreparedEnds(o: seq<Act>)
    ensures Prepared(o) ==> (|o| == 2 && o[1] == NoEvict) || (|o| == 3 && o[1].Evict? && o[2] == IoDone(true))
  {
  }

  lemma ReadInEnds(o: seq<Act>, ok: bool)
    ensures ReadIn(o, ok) ==> |o| >= 2 && o[|o| - 2] == Load && o[|o| - 1] == IoDone(ok)
  {
    hide Prepared;
    if |o| >= 2 { assert o[|o| - 2..][0] == o[|o| - 2] && o[|o| - 2..][1] == o[|o| - 1]; }
  }

  lemma CourseMembers(o: seq<Act>)
    ensures Prepared(o) ==> IoDone(false) !in o && Finish !in o
    ensures ReadIn(o, true) ==> IoDone(false) !in o && Finish !in o
    ensures Broken(o) ==> IoDone(false) in o
  {
    if |o| >= 2 {
      assert o == o[..|o| - 2] + o[|o| - 2..];
    }
    assert ReadIn(o, false) ==> o[|o| - 2..][1] == IoDone(false) && o[|o| - 1] in o;
  }
}
