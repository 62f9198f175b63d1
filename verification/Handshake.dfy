/**
 The handshake between the shell and the programs it launches: SYS6 creates a child and
 waits on shellSemaphore; a child that comes to its end signals shellSemaphore and then
 terminates itself. `test()` waits in the same way on masterSemaphore for the shell.
 A U-proc on its way out executes the system calls of the routine that ends it, one at a
 time and interleaved with everybody else.
 */
module Handshake {
  import opened Processes

  /** What ends a U-proc: SYS2, a program trap, a write to a read-only page, or a flash
      operation that failed while the pager held swapPoolSem. */
  datatype Path = Sys2 | ProgramTrap | ModFault | FlashFault

  datatype Semaphore = MasterSem | ShellSem | SwapPoolSem

  datatype Syscall = V(sem: Semaphore) | TermProcess

  /** The semaphore on which the end of a U-proc is awaited. */
  function Awaited(asid: int): Semaphore { if asid == 1 then MasterSem else ShellSem }

  /** The system calls of `sys2_terminate`, `programTrapHandler` and `fatalFault`, the last
      one as called by the pager. */
  function Code(path: Path, asid: int): seq<Syscall> {
    match path
    case Sys2 => [V(Awaited(asid)), TermProcess]
    case ProgramTrap => [V(Awaited(asid)), TermProcess]
    case ModFault => [V(Awaited(asid)), TermProcess]
    case FlashFault => [V(SwapPoolSem), V(Awaited(asid)), TermProcess]
  }

  /** A child: running its program, with `todo` left to do before its end, or gone. */
  datatype Phase = Running | Ending(todo: seq<Syscall>) | Gone

  /** `vs` counts its signals. */
  datatype Child = Child(asid: int, phase: Phase, vs: nat)

  /** Where the shell is: user code, between CREATEPROCESS and P, blocked in P, on its way
      out, or gone. */
  datatype Shell = User | Created | Blocked | Leaving(todo: seq<Syscall>) | Dead

  /** Where `test()` is: before its P on masterSemaphore, blocked in it, past it, or gone. */
  datatype Test = Launched | Awaiting | Finished | Ended

  /** `returned` counts the Execute calls that have come back after a launch. */
  datatype State = State(shell: Shell, sem: int, kids: seq<Child>, returned: nat, test: Test, master: int)

  datatype Act =
    | Execute(asid: int)
    | Wait
    | KidEnds(kid: nat, path: Path)
    | KidStep(kid: nat)
    | ShellEnds(path: Path)
    | ShellStep
    | TestWaits
    | TestEnds

  predicate Can(s: State, a: Act) {
    match a
    case Execute(_) => s.shell.User?
    case Wait => s.shell.Created?
    case KidEnds(k, _) => k < |s.kids| && s.kids[k].phase.Running?
    case KidStep(k) => k < |s.kids| && s.kids[k].phase.Ending? && s.kids[k].phase.todo != []
    case ShellEnds(_) => s.shell.User?
    case ShellStep => s.shell.Leaving? && s.shell.todo != []
    case TestWaits => s.test.Launched?
    case TestEnds => s.test.Finished?
  }

  /** V on shellSemaphore: with a result of at most 0 the blocked shell goes on. */
  function SignalShell(s: State): State {
    if s.sem + 1 <= 0 && s.shell.Blocked?
    then s.(sem := s.sem + 1, shell := User, returned := s.returned + 1)
    else s.(sem := s.sem + 1)
  }

  /** V on masterSemaphore. */
  function SignalMaster(s: State): State {
    if s.master + 1 <= 0 && s.test.Awaiting?
    then s.(master := s.master + 1, test := Finished)
    else s.(master := s.master + 1)
  }

  /** VERHOGEN; swapPoolSem is no part of this state. */
  function Signal(s: State, sem: Semaphore): State {
    match sem
    case MasterSem => SignalMaster(s)
    case ShellSem => SignalShell(s)
    case SwapPoolSem => s
  }

  /** The next system call of child `k`. */
  function Proceed(s: State, k: nat, c: Syscall, rest: seq<Syscall>): State
    requires k < |s.kids|
  {
    match c
    case V(sem) =>
      var vs := s.kids[k].vs + if sem.ShellSem? then 1 else 0;
      Signal(s.(kids := s.kids[k := s.kids[k].(phase := Ending(rest), vs := vs)]), sem)
    case TermProcess => s.(kids := s.kids[k := s.kids[k].(phase := Gone)])
  }

  /** TERMPROCESS takes the children along. */
  function ShellDies(s: State): State { s.(shell := Dead, kids := AllGone(s.kids)) }

  function AllGone(kids: seq<Child>): (r: seq<Child>)
    ensures |r| == |kids|
    ensures forall i :: 0 <= i < |kids| ==> r[i] == kids[i].(phase := Gone)
  {
    if kids == [] then [] else [kids[0].(phase := Gone)] + AllGone(kids[1..])
  }

  /** The number of PCBs in use. */
  function InUse(s: State): nat {
    (if s.test.Ended? then 0 else 1) + (if s.shell.Dead? then 0 else 1) + NotGone(s.kids)
  }

  function NotGone(kids: seq<Child>): nat {
    if kids == [] then 0
    else NotGone(kids[..|kids| - 1]) + if kids[|kids| - 1].phase.Gone? then 0 else 1
  }

  predicate Accepted(asid: int) { 2 <= asid <= UPROCMAX }

  function Do(s: State, a: Act): State {
    match a
    case Execute(asid) =>
      if !Accepted(asid) then s
      else if InUse(s) < MAXPROC then s.(shell := Created, kids := s.kids + [Child(asid, Running, 0)])
      // the result of CREATEPROCESS is not looked at
      else s.(shell := Created)
    case Wait =>
      if s.sem - 1 < 0 then s.(sem := s.sem - 1, shell := Blocked)
      else s.(sem := s.sem - 1, shell := User, returned := s.returned + 1)
    case KidEnds(k, path) =>
      if k < |s.kids| then s.(kids := s.kids[k := s.kids[k].(phase := Ending(Code(path, s.kids[k].asid)))]) else s
    case KidStep(k) =>
      if k < |s.kids| && s.kids[k].phase.Ending? && s.kids[k].phase.todo != []
      then Proceed(s, k, s.kids[k].phase.todo[0], s.kids[k].phase.todo[1..])
      else s
    case ShellEnds(path) => s.(shell := Leaving(Code(path, 1)))
    case ShellStep =>
      if s.shell.Leaving? && s.shell.todo != []
      then match s.shell.todo[0]
           case V(sem) => Signal(s.(shell := Leaving(s.shell.todo[1..])), sem)
           case TermProcess => ShellDies(s)
      else s
    case TestWaits =>
      if s.master - 1 < 0 then s.(master := s.master - 1, test := Awaiting)
      else s.(master := s.master - 1, test := Finished)
    case TestEnds => ShellDies(s).(test := Ended)
  }

  /** `test()` has launched the shell. */
  function Boot(): State { State(User, 0, [], 0, Launched, 0) }

  predicate Possible(s: State, run: seq<Act>)
    decreases |run|
  {
    run == [] || (Can(s, run[0]) && Possible(Do(s, run[0]), run[1..]))
  }

  function Exec(s: State, run: seq<Act>): State
    decreases |run|
  {
    if run == [] then s else Exec(Do(s, run[0]), run[1..])
  }

  /** CREATEPROCESS finds a free PCB whenever a launch is due. */
  predicate LaunchSucceeds(s: State, a: Act) {
    a.Execute? && Accepted(a.asid) ==> InUse(s) < MAXPROC
  }

  predicate EveryLaunchSucceeds(s: State, run: seq<Act>)
    decreases |run|
  {
    run == [] || (LaunchSucceeds(s, run[0]) && EveryLaunchSucceeds(Do(s, run[0]), run[1..]))
  }

  // --------------------------------------------------------------------- invariant

  predicate Pending(s: State) { s.shell.Created? || s.shell.Blocked? }

  /** What a process owes before the V on `sem`, and what it has left after it. */
  predicate Before(todo: seq<Syscall>, sem: Semaphore) {
    todo == [V(SwapPoolSem), V(sem), TermProcess] || todo == [V(sem), TermProcess]
  }

  predicate After(todo: seq<Syscall>) { todo == [TermProcess] }

  /** The child has still to signal the shell. */
  predicate Owes(c: Child) { c.phase.Running? || (c.phase.Ending? && Before(c.phase.todo, ShellSem)) }

  predicate LastOwes(s: State) { s.kids != [] && Owes(s.kids[|s.kids| - 1]) }

  predicate KidOk(c: Child) {
    && Accepted(c.asid)
    && (c.phase.Ending? ==> Before(c.phase.todo, ShellSem) || After(c.phase.todo))
    && c.vs == if Owes(c) then 0 else 1
  }

  /** The shell is on its way out and has still to signal `test()`. */
  predicate ShellOwes(s: State) { s.shell.Leaving? && Before(s.shell.todo, MasterSem) }

  predicate ShellSignalled(s: State) { s.shell.Dead? || (s.shell.Leaving? && After(s.shell.todo)) }

  ghost predicate Inv(s: State) {
    && (forall i :: 0 <= i < |s.kids| ==> KidOk(s.kids[i]))
    && (forall i :: 0 <= i < |s.kids| && Owes(s.kids[i]) ==> i == |s.kids| - 1)
    && (LastOwes(s) ==> Pending(s))
    && (s.shell.Blocked? ==> LastOwes(s))
    && (s.shell.Created? ==> s.kids != [])
    && (s.shell.Leaving? ==> ShellOwes(s) || ShellSignalled(s))
    && s.sem == (if s.shell.Blocked? then -1 else if s.shell.Created? && !LastOwes(s) then 1 else 0)
    && |s.kids| == s.returned + (if Pending(s) then 1 else 0)
    && s.master == (if s.test.Awaiting? then -1 else if s.test.Launched? && ShellSignalled(s) then 1 else 0)
    && (s.test.Awaiting? ==> !ShellSignalled(s))
    && (s.test.Finished? ==> ShellSignalled(s))
    && (s.test.Ended? ==> s.shell.Dead?)
    && (s.shell.Dead? ==> forall i :: 0 <= i < |s.kids| ==> s.kids[i].phase.Gone?)
  }

  /** Every way out gives the signal that is awaited, once, and ends with TERMPROCESS. */
  lemma CodeIs(path: Path, asid: int)
    ensures Before(Code(path, asid), Awaited(asid))
  {
  }

  /** It gives swapPoolSem back exactly if the process holds it: after a flash operation that failed. */
  lemma CodeGivesBack(path: Path, asid: int)
    ensures V(SwapPoolSem) in Code(path, asid) <==> path == FlashFault
    ensures (V(MasterSem) in Code(path, asid) <==> asid == 1) && (V(ShellSem) in Code(path, asid) <==> asid != 1)
  {
  }

  lemma NextCall(todo: seq<Syscall>, sem: Semaphore)
    requires sem != SwapPoolSem && (Before(todo, sem) || After(todo))
    ensures todo != []
    ensures todo[0] == V(SwapPoolSem) ==> Before(todo[1..], sem) && Before(todo, sem)
    ensures todo[0] == V(sem) ==> After(todo[1..]) && Before(todo, sem)
    ensures todo[0] == TermProcess ==> After(todo)
    ensures todo[0] in {V(SwapPoolSem), V(sem), TermProcess}
  {
  }

  lemma AfterIsNotBefore(todo: seq<Syscall>, sem: Semaphore)
    ensures !(Before(todo, sem) && After(todo))
  {
  }

  /** A step of one child that neither gives nor loses its signal. */
  lemma KidQuiet(s: State, k: nat, c: Child)
    requires Inv(s) && k < |s.kids| && KidOk(c) && !s.shell.Dead?
    requires Owes(c) <==> Owes(s.kids[k])
    ensures Inv(s.(kids := s.kids[k := c]))
  {
    hide Before, After, KidOk, Owes;
  }

  lemma KidSignals(s: State, k: nat, c: Child)
    requires Inv(s) && k < |s.kids| && KidOk(c) && Owes(s.kids[k]) && !Owes(c) && !s.shell.Dead?
    ensures Inv(SignalShell(s.(kids := s.kids[k := c])))
  {
    hide Before, After, KidOk, Owes;
  }

  lemma KidLives(s: State, k: nat)
    requires Inv(s) && k < |s.kids| && !s.kids[k].phase.Gone?
    ensures !s.shell.Dead? && KidOk(s.kids[k])
  {
  }

  lemma KidStepKeeps(s: State, a: Act)
    requires Inv(s) && Can(s, a) && (a.KidEnds? || a.KidStep?)
    ensures Inv(Do(s, a))
  {
    hide Inv, Before, After;
    var c := s.kids[a.kid];
    KidLives(s, a.kid);
    if a.KidEnds? {
      CodeIs(a.path, c.asid);
      KidQuiet(s, a.kid, c.(phase := Ending(Code(a.path, c.asid))));
    } else {
      var rest := c.phase.todo[1..];
      NextCall(c.phase.todo, ShellSem);
      AfterIsNotBefore(c.phase.todo, ShellSem);
      AfterIsNotBefore(rest, ShellSem);
      match c.phase.todo[0]
      case V(sem) =>
        if sem.ShellSem? {
          KidSignals(s, a.kid, c.(phase := Ending(rest), vs := 1));
        } else {
          KidQuiet(s, a.kid, c.(phase := Ending(rest)));
        }
      case TermProcess => KidQuiet(s, a.kid, c.(phase := Gone));
    }
  }

  lemma ShellStepKeeps(s: State, a: Act)
    requires Inv(s) && Can(s, a) && (a.ShellEnds? || a.ShellStep?)
    ensures Inv(Do(s, a))
  {
    hide KidOk, Owes, Before, After, ShellDies;
    if a.ShellStep? {
      NextCall(s.shell.todo, MasterSem);
      AfterIsNotBefore(s.shell.todo, MasterSem);
      AfterIsNotBefore(s.shell.todo[1..], MasterSem);
      if s.shell.todo[0] == TermProcess {
        ShellDiesKeeps(s);
      }
    } else {
      CodeIs(a.path, 1);
      AfterIsNotBefore(Code(a.path, 1), MasterSem);
    }
  }

  lemma KidGone(c: Child)
    requires KidOk(c) && !Owes(c)
    ensures KidOk(c.(phase := Gone)) && !Owes(c.(phase := Gone))
  {
  }

  lemma ShellDiesKeeps(s: State)
    requires Inv(s) && ShellSignalled(s)
    ensures Inv(ShellDies(s))
  {
    hide KidOk, Owes, Before, After;
    forall i | 0 <= i < |s.kids| ensures KidOk(s.kids[i].(phase := Gone)) && !Owes(s.kids[i].(phase := Gone)) {
      KidGone(s.kids[i]);
    }
  }

  lemma StepKeeps(s: State, a: Act)
    requires Inv(s) && Can(s, a) && LaunchSucceeds(s, a)
    ensures Inv(Do(s, a))
  {
    if a.KidEnds? || a.KidStep? {
      KidStepKeeps(s, a);
    } else if a.ShellEnds? || a.ShellStep? {
      ShellStepKeeps(s, a);
    } else {
      OtherStepKeeps(s, a);
    }
  }

  lemma OtherStepKeeps(s: State, a: Act)
    requires Inv(s) && Can(s, a) && LaunchSucceeds(s, a)
    requires a.Execute? || a.Wait? || a.TestWaits? || a.TestEnds?
    ensures Inv(Do(s, a))
  {
    hide Before, After, ShellDies;
    if a.TestEnds? {
      ShellDiesKeeps(s);
      ShellIsDead(s);
    }
  }

  lemma ShellIsDead(s: State)
    ensures ShellDies(s).shell == Dead && ShellDies(s).test == s.test
  {
  }

  lemma {:induction false} RunKeeps(s: State, run: seq<Act>)
    requires Inv(s) && Possible(s, run) && EveryLaunchSucceeds(s, run)
    ensures Inv(Exec(s, run))
    decreases |run|
  {
    hide Inv, Do, Can, LaunchSucceeds;
    if run != [] {
      StepKeeps(s, run[0]);
      RunKeeps(Do(s, run[0]), run[1..]);
    }
  }

  // -------------------------------------------------------------------- theorems

  /** The signals given so far. */
  function Signals(kids: seq<Child>): nat {
    if kids == [] then 0 else Signals(kids[..|kids| - 1]) + kids[|kids| - 1].vs
  }

  lemma {:induction false} AllSignalled(kids: seq<Child>)
    requires forall i :: 0 <= i < |kids| ==> kids[i].vs == 1
    ensures Signals(kids) == |kids|
  {
    if kids != [] {
      AllSignalled(kids[..|kids| - 1]);
    }
  }

  /** In every reachable state at most one child has not signalled yet, every other one has
      signalled exactly once, whichever way it ended, and the number of Execute calls that
      have come back is at most the number of signals: the n-th returns only after n children
      have signalled. While the shell runs user code all its children have. `test()` gets past
      its P only after the signal of the shell, and nothing is left when it has ended. */
  lemma ExecuteWaitsForSignal(run: seq<Act>)
    requires Possible(Boot(), run) && EveryLaunchSucceeds(Boot(), run)
    ensures var s := Exec(Boot(), run);
            && (forall i, j :: 0 <= i < |s.kids| && 0 <= j < |s.kids| && Owes(s.kids[i]) && Owes(s.kids[j]) ==> i == j)
            && (forall i :: 0 <= i < |s.kids| ==> s.kids[i].vs == if Owes(s.kids[i]) then 0 else 1)
            && s.returned <= Signals(s.kids) <= |s.kids| <= s.returned + 1
            && (s.shell.User? ==> s.returned == Signals(s.kids) == |s.kids|)
            && (s.test.Finished? || s.test.Ended? ==> ShellSignalled(s))
            && (s.shell.Dead? ==> forall i :: 0 <= i < |s.kids| ==> s.kids[i].phase.Gone?)
            && (s.test.Ended? ==> InUse(s) == 0)
  {
    RunKeeps(Boot(), run);
    var s := Exec(Boot(), run);
    hide Exec, Possible, EveryLaunchSucceeds, Before, After;
    if LastOwes(s) {
      AllSignalled(s.kids[..|s.kids| - 1]);
    } else {
      AllSignalled(s.kids);
    }
    if s.test.Ended? { NobodyLeft(s.kids); }
  }

  lemma {:induction false} NobodyLeft(kids: seq<Child>)
    requires forall i :: 0 <= i < |kids| ==> kids[i].phase.Gone?
    ensures NotGone(kids) == 0
  {
    if kids != [] {
      NobodyLeft(kids[..|kids| - 1]);
    }
  }

  /** The last child launched no longer exists. */
  predicate LastGone(s: State) { s.kids != [] && s.kids[|s.kids| - 1].phase.Gone? }

  /** What the end of Execute says about its child: it comes back at a P of the shell that
      finds the signal already there, or at the V of the child the shell is blocked behind;
      and the child has ceased to exist by then exactly when it had done so before the P. */
  lemma ReturnIs(s: State, a: Act)
    requires Inv(s) && Can(s, a) && Do(s, a).returned > s.returned
    ensures s.kids != [] && !LastOwes(Do(s, a))
    ensures LastGone(Do(s, a)) <==> a.Wait? && LastGone(s)
    ensures !a.Wait? ==> s.shell.Blocked? && a == KidStep(|s.kids| - 1)
  {
    hide Before, After;
    if a.KidStep? {
      KidLives(s, a.kid);
      NextCall(s.kids[a.kid].phase.todo, ShellSem);
      AfterIsNotBefore(s.kids[a.kid].phase.todo, ShellSem);
      AfterIsNotBefore(s.kids[a.kid].phase.todo[1..], ShellSem);
    } else if a.ShellStep? {
      NextCall(s.shell.todo, MasterSem);
    }
  }

  /** In every run: Execute returns after the end of its child exactly when the child had
      ended before the shell got to its P; a shell that really blocks always returns while
      the child still exists. */
  lemma ExecuteReturns(run: seq<Act>, a: Act)
    requires Possible(Boot(), run) && EveryLaunchSucceeds(Boot(), run) && Can(Exec(Boot(), run), a)
    ensures var s := Exec(Boot(), run); var r := Do(s, a);
            r.returned > s.returned ==>
              && (LastGone(r) <==> a.Wait? && LastGone(s))
              && (s.shell.Blocked? ==> r.kids != [] && r.kids[|r.kids| - 1].phase.Ending?)
  {
    RunKeeps(Boot(), run);
    var s := Exec(Boot(), run);
    hide Exec, Possible, EveryLaunchSucceeds, Inv, Do;
    if Do(s, a).returned > s.returned {
      ReturnIs(s, a);
      if s.shell.Blocked? { StillEnding(s, a); }
    }
  }

  lemma StillEnding(s: State, a: Act)
    requires Inv(s) && Can(s, a) && Do(s, a).returned > s.returned && s.shell.Blocked?
    ensures var r := Do(s, a); r.kids != [] && r.kids[|r.kids| - 1].phase.Ending?
  {
    ReturnIs(s, a);
  }

  /** The shortest run in which Execute returns although its child still exists. */
  lemma ChildMayOutliveExecute(asid: int)
    requires Accepted(asid) && 2 < MAXPROC
    ensures var run := [Execute(asid), Wait, KidEnds(0, Sys2), KidStep(0)];
            && Possible(Boot(), run) && EveryLaunchSucceeds(Boot(), run)
            && Exec(Boot(), run) == State(User, 0, [Child(asid, Ending([TermProcess]), 1)], 1, Launched, 0)
  {
    var s1 := State(Created, 0, [Child(asid, Running, 0)], 0, Launched, 0);
    var s2 := State(Blocked, -1, [Child(asid, Running, 0)], 0, Launched, 0);
    var s3 := State(Blocked, -1, [Child(asid, Ending([V(ShellSem), TermProcess]), 0)], 0, Launched, 0);
    var s4 := State(User, 0, [Child(asid, Ending([TermProcess]), 1)], 1, Launched, 0);
    assert Do(Boot(), Execute(asid)) == s1 && Do(s1, Wait) == s2 && Do(s2, KidEnds(0, Sys2)) == s3;
    assert Do(s3, KidStep(0)) == s4;
    Follow(Boot(), [Execute(asid), Wait, KidEnds(0, Sys2), KidStep(0)]);
    Follow(s1, [Wait, KidEnds(0, Sys2), KidStep(0)]);
    Follow(s2, [KidEnds(0, Sys2), KidStep(0)]);
    Follow(s3, [KidStep(0)]);
  }

  lemma Follow(s: State, run: seq<Act>)
    requires run != []
    ensures Exec(s, run) == Exec(Do(s, run[0]), run[1..])
    ensures Possible(s, run) <==> Can(s, run[0]) && Possible(Do(s, run[0]), run[1..])
    ensures EveryLaunchSucceeds(s, run) <==> LaunchSucceeds(s, run[0]) && EveryLaunchSucceeds(Do(s, run[0]), run[1..])
  {
  }

  /** Execute launches a program exactly if its ASID is one of 2 to UPROCMAX and a PCB is free;
      with any other ASID it comes back at once and changes nothing. */
  lemma ExecuteLaunches(s: State, asid: int)
    ensures var r := Do(s, Execute(asid));
            && (r.kids == s.kids + [Child(asid, Running, 0)] <==> 2 <= asid <= UPROCMAX && InUse(s) < MAXPROC)
            && (r.kids != s.kids + [Child(asid, Running, 0)] ==> r.kids == s.kids)
            && (asid < 2 || asid > UPROCMAX ==> r == s)
            && (2 <= asid <= UPROCMAX ==> r.shell.Created?)
  {
  }

  /** A PCB is in use for `test()`, for the shell and for each child that is not gone. */
  lemma InUseCounts(s: State)
    ensures InUse(s) == (if s.test.Ended? then 0 else 1) + (if s.shell.Dead? then 0 else 1)
                        + |set i | 0 <= i < |s.kids| && !s.kids[i].phase.Gone?|
  {
    NotGoneCounts(s.kids);
  }

  lemma {:induction false} NotGoneCounts(kids: seq<Child>)
    ensures NotGone(kids) == |set i | 0 <= i < |kids| && !kids[i].phase.Gone?|
  {
    var now := set i | 0 <= i < |kids| && !kids[i].phase.Gone?;
    if kids == [] {
      assert now == {};
    } else {
      var front, n := kids[..|kids| - 1], |kids| - 1;
      NotGoneCounts(front);
      var was := set i | 0 <= i < |front| && !front[i].phase.Gone?;
      assert now == if kids[n].phase.Gone? then was else was + {n};
    }
  }

  // ------------------------------------------------------------------ failed launches

  /** The shell waits for a signal that nobody is left to give. */
  predicate Stranded(s: State) {
    && (forall i :: 0 <= i < |s.kids| ==> KidOk(s.kids[i]) && !Owes(s.kids[i]))
    && ((s.shell.Created? && s.sem == 0) || (s.shell.Blocked? && s.sem == -1))
    && s.master <= 0 && !s.test.Finished? && !s.test.Ended?
  }

  lemma StrandedStep(s: State, a: Act)
    requires Stranded(s) && Can(s, a)
    ensures Stranded(Do(s, a)) && Do(s, a).returned == s.returned
  {
    hide Before, After;
    if a.KidStep? {
      NextCall(s.kids[a.kid].phase.todo, ShellSem);
      AfterIsNotBefore(s.kids[a.kid].phase.todo, ShellSem);
    }
  }

  lemma {:induction false} StrandedForEver(s: State, run: seq<Act>)
    requires Stranded(s) && Possible(s, run)
    ensures Stranded(Exec(s, run)) && Exec(s, run).returned == s.returned
    decreases |run|
  {
    hide Stranded, Do, Can;
    if run != [] {
      StrandedStep(s, run[0]);
      StrandedForEver(Do(s, run[0]), run[1..]);
    }
  }

  /** Why launches must succeed: SYS6 ignores the result of CREATEPROCESS, so that a launch
      without a free PCB leaves the shell waiting for ever, and no other launch does. */
  lemma FailedLaunchStrands(s: State, asid: int)
    requires Inv(s) && s.shell.User? && Accepted(asid)
    ensures Stranded(Do(s, Execute(asid))) <==> InUse(s) >= MAXPROC
  {
    var r := Do(s, Execute(asid));
    if InUse(s) < MAXPROC {
      assert Owes(r.kids[|r.kids| - 1]);
    }
  }
}
