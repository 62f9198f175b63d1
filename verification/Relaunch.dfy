/**
 An ASID launched again while frames still carry its pages: when that is safe, and what
 happens when it is not.
 */
module Relaunch {
  import opened Processes
  import opened Paging
  import opened PagingKeeps
  import opened PagingRefines
  import opened PagerCode
  import opened PagerEffect

  /** While nobody is in the critical section, initialising the page table of an ASID keeps
      everything coherent exactly when no frame carries a page of it. */
  lemma RelaunchIsCoherentIff(s: VM, asid: nat)
    requires Coherent(s) && s.crit.None? && asid !in s.fault
    ensures Coherent(PagesOff(s, asid)) <==> NoFrameOf(s, asid)
  {
    var t := PagesOff(s, asid);
    if NoFrameOf(s, asid) {
      LaunchKeeps(s, asid);
    } else {
      var f: Frame :| s.tag[f].Some? && s.tag[f].value.asid == asid;
      var g := s.tag[f].value;
      assert Owner(t, f) == Some(g);
      assert !PteOf(t, g).valid;
    }
  }

  // ---------------------------------------------------------------- runs of one fault

  function Pagers(n: nat): seq<Event> { seq(n, i => Pager) }

  lemma {:induction false} CritEarlier(s: VM, k: nat, n: nat)
    requires k <= n && Steps(s, n).crit.Some?
    ensures Steps(s, k).crit.Some?
  {
    hide PagerStep;
    if k < n { CritEarlier(s, k, n - 1); }
  }

  lemma {:induction false} PagersRun(s: VM, n: nat)
    requires n > 0 ==> Steps(s, n - 1).crit.Some?
    ensures Legal(s, Pagers(n)) && Exec(s, Pagers(n)) == Steps(s, n)
    decreases n
  {
    hide PagerStep;
    if n > 0 {
      CritEarlier(s, 0, n - 1);
      var t := PagerStep(s);
      StepsOnce(s, 0);
      StepsAdd(s, 1, n - 1);
      if n > 1 { StepsAdd(s, 1, n - 2); }
      PagersRun(t, n - 1);
      assert Pagers(n)[0] == Pager && Pagers(n)[1..] == Pagers(n - 1);
    }
  }

  lemma {:induction false} RunThen(s: VM, a: seq<Event>, b: seq<Event>)
    requires Legal(s, a) && Legal(Exec(s, a), b)
    ensures Legal(s, a + b) && Exec(s, a + b) == Exec(Exec(s, a), b)
    decreases |a|
  {
    hide Enabled, Next;
    if a == [] {
      assert a + b == b;
    } else {
      RunThen(Next(s, a[0]), a[1..], b);
      assert (a + b)[1..] == a[1..] + b;
    }
  }

  /** A TLB miss on `g`, the fault, and the pager to its end. */
  function Serving(s: VM, g: Page): seq<Event> {
    [Refill(g, 0), Fault(g), Event.Enter(g.asid)] + Pagers(if s.tag[s.clock].Some? then 9 else 6)
  }

  /** The first slot of the TLB holds `x`, no other slot is in use. */
  predicate Solo(t: Tlb, x: Option<TlbEntry>) {
    t != [] && t[0] == x && forall i :: 1 <= i < |t| ==> t[i].None?
  }

  /** Nobody is in the pager, and a miss on `g`, which is not in memory. */
  predicate Missing(s: VM, g: Page) {
    && s.tlb != [] && Solo(s.tlb, s.tlb[0]) && !(s.tlb[0].Some? && s.tlb[0].value.page == g)
    && Known(s, g) && s.crit.None? && s.fault == map[] && !PteOf(s, g).valid && s.tag[s.clock] != Some(g)
  }

  lemma MissTo(s: VM, g: Page)
    requires Missing(s, g)
    ensures Legal(s, [Refill(g, 0), Fault(g), Event.Enter(g.asid)])
    ensures Exec(s, [Refill(g, 0), Fault(g), Event.Enter(g.asid)])
         == s.(tlb := s.tlb[0 := Some(TlbEntry(g, PteOf(s, g)))], fault := map[g.asid := g], crit := Some(Critical(g, PickVictim, 0)))
  {
    hide Legal, Exec;
    var s1 := s.(tlb := s.tlb[0 := Some(TlbEntry(g, PteOf(s, g)))]);
    var s2 := s1.(fault := map[g.asid := g]);
    var s3 := s2.(crit := Some(Critical(g, PickVictim, 0)));
    assert Enabled(s, Refill(g, 0)) && Next(s, Refill(g, 0)) == s1;
    assert Enabled(s1, Fault(g)) && Next(s1, Fault(g)) == s2;
    assert Enabled(s2, Event.Enter(g.asid)) && Next(s2, Event.Enter(g.asid)) == s3;
    hide Enabled, Next;
    RunOne(s, Refill(g, 0), [Fault(g), Event.Enter(g.asid)]);
    RunOne(s1, Fault(g), [Event.Enter(g.asid)]);
    RunOne(s2, Event.Enter(g.asid), []);
    var a, b, c := Refill(g, 0), Fault(g), Event.Enter(g.asid);
    assert [c] + [] == [c] && [b] + [c] == [b, c] && [a] + [b, c] == [a, b, c];
  }

  lemma RunOne(s: VM, ev: Event, rest: seq<Event>)
    requires Enabled(s, ev)
    ensures Legal(s, [ev] + rest) <==> Legal(Next(s, ev), rest)
    ensures Legal(Next(s, ev), rest) ==> Exec(s, [ev] + rest) == Exec(Next(s, ev), rest)
    ensures Legal(s, []) && Exec(s, []) == s && Legal(Next(s, ev), []) && Exec(Next(s, ev), []) == Next(s, ev)
  {
    assert ([ev] + rest)[1..] == rest;
  }

  lemma SoloUpdate(s: VM, g: Page, x: Pte, h: Page)
    requires Solo(s.tlb, Some(TlbEntry(g, x)))
    ensures UpdateTlb(s, h).tlb == if h == g then s.tlb[0 := Some(TlbEntry(g, PteOf(s, g)))] else s.tlb
  {
  }

  /** The single TLB entry, that of the page served, follows its PTE. */
  lemma SoloCall(e: VM, g: Page, x: Pte)
    requires e.crit == Some(Critical(g, PickVictim, 0)) && e.tag[e.clock] != Some(g) && Solo(e.tlb, Some(TlbEntry(g, x)))
    ensures Steps(e, if e.tag[e.clock].Some? then 9 else 6).tlb == e.tlb[0 := Some(TlbEntry(g, Pte(true, e.clock, true)))]
  {
    hide PagerStep, UpdateTlb, Steps;
    PickIs(e, g);
    var n := if e.tag[e.clock].Some? then 4 else 1;
    if e.tag[e.clock].Some? {
      var s1, v := Steps(e, 1), e.tag[e.clock].value;
      EmptyingIs(s1, v);
      StepsAdd(e, 1, 3);
      ClearTlb(s1);
      SoloUpdate(PagerStep(s1), g, x, v);
    }
    var m := Steps(e, n);
    FillingIs(m);
    LoadingIs(m);
    SoloUpdate(Steps(m, 3), g, x, g);
    StepsAdd(e, n, 5);
  }

  lemma ClearTlb(s: VM)
    requires s.crit.Some? && s.crit.value.pc.ClearV?
    ensures PagerStep(s).tlb == s.tlb
  {
  }

  lemma ServingRuns(s: VM, g: Page)
    requires Missing(s, g)
    ensures Legal(s, Serving(s, g))
    ensures var t, f := Exec(s, Serving(s, g)), s.clock;
            && Assigned(s, t, f, g) && t.fault == map[] && t.clock == (f + 1) % POOLSIZE
            && Solo(t.tlb, Some(TlbEntry(g, Pte(true, f, true))))
  {
    hide Legal, Exec, Steps, Enabled, Next;
    MissTo(s, g);
    var e := s.(tlb := s.tlb[0 := Some(TlbEntry(g, PteOf(s, g)))], fault := map[g.asid := g], crit := Some(Critical(g, PickVictim, 0)));
    CallIs(e, g);
    SoloCall(e, g, PteOf(s, g));
    PagersRun(e, if s.tag[s.clock].Some? then 9 else 6);
    RunThen(s, [Refill(g, 0), Fault(g), Event.Enter(g.asid)], Pagers(if s.tag[s.clock].Some? then 9 else 6));
  }

  // ------------------------------------------------------------------- the lost store

  /** Two pages of the program that is launched twice. */
  const Mine := Page(2, 0)
  const Theirs := Page(2, 1)

  /** The page that the first round of selections brings into frame `i`: one page of the
      program into frame 1, pages of the shell into all the others. */
  function PageIn(i: nat): Page { if i == 1 then Mine else Page(1, i) }

  /** The event is one of a process with this ASID. */
  predicate Of(ev: Event, asid: nat) {
    match ev
    case Load(g, _, _) => g.asid == asid && IsPage(g)
    case Store(g, _, _) => g.asid == asid && IsPage(g)
    case Refill(g, _) => g.asid == asid && IsPage(g)
    case Fault(g) => g.asid == asid && IsPage(g)
    case TlbMod(g) => g.asid == asid && IsPage(g)
    case Enter(a) => a == asid
    case Pager => true
    case Launch(_) => false
  }

  predicate By(run: seq<Event>, asid: nat) { forall ev :: ev in run ==> Of(ev, asid) }

  lemma ServingIsBy(s: VM, g: Page)
    requires IsPage(g)
    ensures By(Serving(s, g), g.asid) && forall ev :: ev in Serving(s, g) ==> !ev.Store?
  {
  }

  /** `k` frames have been filled; frame 1 holds `v`. */
  ghost predicate Filled(s: VM, k: nat, v: int) {
    && k <= POOLSIZE && s.crit.None? && s.fault == map[] && s.clock == k % POOLSIZE
    && s.tlb != [] && Solo(s.tlb, s.tlb[0])
    && (s.tlb[0].Some? ==> k > 0 && s.tlb[0].value.page == PageIn(k - 1))
    && s.flash == map[Mine := [0]]
    && (forall f: Frame :: s.tag[f] == if f < k then Some(PageIn(f)) else None)
    && (forall g :: PteOf(s, g).valid ==> Brought(g, k))
    && (k >= 2 ==> s.ram[1] == [v])
  }

  ghost predicate Brought(g: Page, k: nat) { exists i: nat :: i < k && g == PageIn(i) }

  lemma FillStep(s: VM, k: nat, v: int)
    requires Filled(s, k, v) && k < POOLSIZE && Known(s, PageIn(k))
    ensures Legal(s, Serving(s, PageIn(k))) && Exec(s, Serving(s, PageIn(k))).up == s.up
    ensures Filled(Exec(s, Serving(s, PageIn(k))), k + 1, if k == 1 then 0 else v)
    ensures k == 1 ==> Exec(s, Serving(s, Mine)).tlb[0] == Some(TlbEntry(Mine, Pte(true, 1, true)))
  {
    hide Legal, Exec, Serving;
    var g := PageIn(k);
    ModNext(k, POOLSIZE);
    assert !Brought(g, k);
    ServingRuns(s, g);
    FilledNext(s, Exec(s, Serving(s, g)), k, v);
  }

  lemma FilledNext(s: VM, t: VM, k: nat, v: int)
    requires Filled(s, k, v) && k < POOLSIZE && s.clock == k && Assigned(s, t, k, PageIn(k)) && t.fault == map[]
    requires t.clock == (k + 1) % POOLSIZE && Solo(t.tlb, Some(TlbEntry(PageIn(k), Pte(true, k, true))))
    ensures Filled(t, k + 1, if k == 1 then 0 else v)
  {
    forall h | PteOf(t, h).valid ensures Brought(h, k + 1) {
      assert h == PageIn(k) || PteOf(s, h).valid;
    }
  }

  /** A launch of an ASID none of whose pages is in a frame. */
  lemma FilledLaunch(s: VM, k: nat, v: int, asid: nat)
    requires Filled(s, k, v) && 1 <= asid <= UPROCMAX && forall i: nat :: i < k ==> PageIn(i).asid != asid
    ensures Legal(s, [Launch(asid)]) && Filled(Exec(s, [Launch(asid)]), k, v)
    ensures Exec(s, [Launch(asid)]).up == s.up + {asid}
  {
    var t := PagesOff(s, asid);
    forall h | PteOf(t, h).valid ensures Brought(h, k) { assert PteOf(s, h).valid; }
    assert Enabled(s, Launch(asid));
    RunOne(s, Launch(asid), []);
    assert [Launch(asid)] + [] == [Launch(asid)];
  }

  /** An access through the first slot of the TLB. */
  lemma SoloAccess(s: VM, g: Page, f: Frame, v: int)
    requires s.fault == map[] && Solo(s.tlb, Some(TlbEntry(g, Pte(true, f, true)))) && |s.ram[f]| == 1
    ensures Enabled(s, Store(g, 0, v)) && Next(s, Store(g, 0, v)) == s.(ram := s.ram[f := [v]])
    ensures s.ram[f] == [v] ==> Enabled(s, Load(g, 0, v))
  {
    assert s.ram[f][0 := v] == [v];
  }

  lemma FilledStore(s: VM, v: int)
    requires Filled(s, 2, 0) && POOLSIZE >= 2 && s.tlb[0] == Some(TlbEntry(Mine, Pte(true, 1, true)))
    ensures Legal(s, [Store(Mine, 0, v)]) && Filled(Exec(s, [Store(Mine, 0, v)]), 2, v)
    ensures Exec(s, [Store(Mine, 0, v)]).up == s.up
  {
    SoloAccess(s, Mine, 1, v);
    var t := s.(ram := s.ram[1 := [v]]);
    forall h | PteOf(t, h).valid ensures Brought(h, 2) { assert PteOf(s, h).valid; }
    RunOne(s, Store(Mine, 0, v), []);
    assert [Store(Mine, 0, v)] + [] == [Store(Mine, 0, v)];
  }

  /** The shell goes on until no frame is free. */
  lemma {:induction false} FillUp(s: VM, k: nat, v: int) returns (run: seq<Event>)
    requires Filled(s, k, v) && 2 <= k && POOLSIZE <= MAXPAGES && 1 in s.up
    ensures Legal(s, run) && Filled(Exec(s, run), POOLSIZE, v) && By(run, 1) && Exec(s, run).up == s.up
    decreases POOLSIZE - k
  {
    hide Legal, Exec, Serving, Filled;
    FilledBound(s, k, v);
    if k == POOLSIZE {
      run := [];
      RunNone(s);
    } else {
      FillStep(s, k, v);
      ServingIsBy(s, PageIn(k));
      var rest := FillUp(Exec(s, Serving(s, PageIn(k))), k + 1, v);
      run := Serving(s, PageIn(k)) + rest;
      RunThen(s, Serving(s, PageIn(k)), rest);
    }
  }

  lemma FilledBound(s: VM, k: nat, v: int)
    requires Filled(s, k, v)
    ensures k <= POOLSIZE
  {
  }

  lemma RunNone(s: VM)
    ensures Legal(s, []) && Exec(s, []) == s
  {
  }

  lemma InitIsFilled(ram: Ram, n: Positive)
    ensures Filled(Init(map[Mine := [0]], ram, n), 0, 1)
  {
    assert 0 % POOLSIZE == 0;
  }

  /** The history up to the second launch: the shell is launched and takes a fault, launches the
      program, which takes a fault and stores a 1; then the shell runs again. */
  lemma FirstLife(s0: VM) returns (r1: seq<Event>, r2: seq<Event>, r3: seq<Event>)
    requires Filled(s0, 0, 1) && 3 <= POOLSIZE <= MAXPAGES && 2 <= UPROCMAX
    ensures By(r1, 1) && By(r2, 2) && By(r3, 1)
    ensures var run := [Launch(1)] + r1 + [Launch(2)] + r2 + r3; Legal(s0, run) && Filled(Exec(s0, run), POOLSIZE, 1) && 2 in Exec(s0, run).up
  {
    hide Legal, Exec, Serving, Filled;
    FilledLaunch(s0, 0, 1, 1);
    var s1 := Exec(s0, [Launch(1)]);
    FillStep(s1, 0, 1);
    r1 := Serving(s1, PageIn(0));
    ServingIsBy(s1, PageIn(0));
    RunThen(s0, [Launch(1)], r1);
    var s2 := Exec(s1, r1);
    FilledLaunch(s2, 1, 1, 2);
    RunThen(s0, [Launch(1)] + r1, [Launch(2)]);
    var s3 := Exec(s2, [Launch(2)]);
    FillStep(s3, 1, 1);
    ServingIsBy(s3, Mine);
    var s4 := Exec(s3, Serving(s3, Mine));
    FilledStore(s4, 1);
    r2 := Serving(s3, Mine) + [Store(Mine, 0, 1)];
    RunThen(s3, Serving(s3, Mine), [Store(Mine, 0, 1)]);
    RunThen(s0, [Launch(1)] + r1 + [Launch(2)], r2);
    var s5 := Exec(s3, r2);
    r3 := FillUp(s5, 2, 1);
    RunThen(s0, [Launch(1)] + r1 + [Launch(2)] + r2, r3);
  }

  // ------------------------------------------------------------- the second life

  /** What matters of a state between two faults of the relaunched program. */
  ghost predicate Between(s: VM, clock: nat, tlb: Page, f: Frame) {
    s.crit.None? && s.fault == map[] && s.clock == clock && Solo(s.tlb, Some(TlbEntry(tlb, Pte(true, f, true))))
  }

  lemma FirstFault(s: VM) returns (t: VM)
    requires POOLSIZE >= 3 && Filled(s, POOLSIZE, 1) && 2 <= UPROCMAX
    ensures t.up == s.up + {2}
    ensures var r := PagesOff(s, 2); Legal(r, Serving(r, Mine)) && t == Exec(r, Serving(r, Mine))
    ensures Between(t, 1, Mine, 0) && t.ram[0] == [0] && t.ram[1] == [1]
    ensures t.tag[1] == Some(Mine) && t.tag[2] == Some(Page(1, 2)) && !PteOf(t, Theirs).valid
  {
    hide Legal, Exec, Serving;
    var r := PagesOff(s, 2);
    DivUnique(POOLSIZE, POOLSIZE, 1, 0);
    ModNext(0, POOLSIZE);
    assert s.tag[0] == Some(PageIn(0));
    ServingRuns(r, Mine);
    t := Exec(r, Serving(r, Mine));
    assert !PteOf(r, Theirs).valid && !PteOf(r, Mine).valid;
  }

  /** The fault on the other page writes the old frame over the block of the first. */
  lemma SecondFault(s: VM) returns (t: VM)
    requires POOLSIZE >= 3 && Between(s, 1, Mine, 0) && s.ram[1] == [1] && Known(s, Theirs)
    ensures t.up == s.up
    requires s.tag[1] == Some(Mine) && s.tag[2] == Some(Page(1, 2)) && !PteOf(s, Theirs).valid
    ensures Legal(s, Serving(s, Theirs)) && t == Exec(s, Serving(s, Theirs))
    ensures Between(t, 2, Theirs, 1) && !PteOf(t, Mine).valid
    ensures t.tag[2] == Some(Page(1, 2)) && Block(t.flash, Mine) == [1]
  {
    hide Legal, Exec, Serving;
    ServingRuns(s, Theirs);
    t := Exec(s, Serving(s, Theirs));
    ModNext(1, POOLSIZE);
    ModNext(2, POOLSIZE);
  }

  lemma ThirdFault(s: VM) returns (t: VM)
    requires POOLSIZE >= 3 && Between(s, 2, Theirs, 1) && !PteOf(s, Mine).valid && Known(s, Mine)
    requires s.tag[2] == Some(Page(1, 2)) && Block(s.flash, Mine) == [1]
    ensures Legal(s, Serving(s, Mine)) && t == Exec(s, Serving(s, Mine))
    ensures t.fault == map[] && Solo(t.tlb, Some(TlbEntry(Mine, Pte(true, 2, true)))) && t.ram[2] == [1]
  {
    hide Legal, Exec, Serving;
    ServingRuns(s, Mine);
    t := Exec(s, Serving(s, Mine));
  }

  lemma Joined(s: VM, a: seq<Event>, ev: Event, b: seq<Event>, c: seq<Event>, last: Event)
    requires Legal(s, a) && Enabled(Exec(s, a), ev) && Legal(Next(Exec(s, a), ev), b)
    requires Legal(Exec(Next(Exec(s, a), ev), b), c) && Enabled(Exec(Exec(Next(Exec(s, a), ev), b), c), last)
    ensures Legal(s, a + [ev] + (b + c) + [last])
  {
    hide Legal, Exec, Enabled, Next;
    var s1 := Exec(s, a);
    var s2 := Next(s1, ev);
    var s3 := Exec(s2, b);
    RunOne(s1, ev, []);
    RunOne(Exec(s3, c), last, []);
    assert [ev] + [] == [ev] && [last] + [] == [last];
    RunThen(s, a, [ev]);
    RunThen(s2, b, c);
    RunThen(s, a + [ev], b + c);
    RunThen(s, a + [ev] + (b + c), [last]);
  }

  lemma SecondLife(s: VM) returns (before: seq<Event>, after: seq<Event>)
    requires POOLSIZE >= 3 && Filled(s, POOLSIZE, 1) && 2 <= UPROCMAX
    ensures Legal(PagesOff(s, 2), before + [Store(Mine, 0, 2)] + after + [Load(Mine, 0, 1)])
    ensures By(before + after, 2) && forall ev :: ev in before + after ==> !ev.Store?
  {
    hide Legal, Exec, Serving, Enabled, Next, PagesOff, Filled;
    var r := PagesOff(s, 2);
    var s1 := FirstFault(s);
    SoloAccess(s1, Mine, 0, 2);
    var s2 := s1.(ram := s1.ram[0 := [2]]);
    SamePtes(s1, s2);
    var s3 := SecondFault(s2);
    var s4 := ThirdFault(s3);
    SoloAccess(s4, Mine, 2, 1);
    before, after := Serving(r, Mine), Serving(s2, Theirs) + Serving(s3, Mine);
    Joined(r, before, Store(Mine, 0, 2), Serving(s2, Theirs), Serving(s3, Mine), Load(Mine, 0, 1));
    ServingIsBy(r, Mine);
    ServingIsBy(s2, Theirs);
    ServingIsBy(s3, Mine);
  }

  lemma SamePtes(s: VM, t: VM)
    requires t == s.(ram := t.ram)
    ensures forall g :: PteOf(t, g) == PteOf(s, g)
  {
  }

  /** From boot, with any TLB: shell, program, shell, and then the second launch of the program,
      whose page is still in frame 1. From there on only that program runs, since the shell waits
      for it (module Handshake), and a load of it does not return its last store: the old frame
      has been written over the block of the page. */
  lemma RelaunchLosesStore(ram: Ram, n: Positive)
    returns (r1: seq<Event>, r2: seq<Event>, r3: seq<Event>, before: seq<Event>, after: seq<Event>)
    requires 3 <= POOLSIZE <= MAXPAGES && 2 <= UPROCMAX
    ensures By(r1, 1) && By(r2, 2) && By(r3, 1) && By(before + after, 2)
    ensures var s0, first := Init(map[Mine := [0]], ram, n), [Launch(1)] + r1 + [Launch(2)] + r2 + r3;
            && Legal(s0, first)
            && var s := Exec(s0, first);
               && Coherent(s) && Fifo(s) && s.crit.None? && s.fault == map[] && !NoFrameOf(s, 2)
               && Legal(PagesOff(s, 2), before + [Store(Mine, 0, 2)] + after + [Load(Mine, 0, 1)])
    ensures forall ev :: ev in before + after ==> !ev.Store?
  {
    hide Coherent, Fifo, Represents, Legal, Exec, Serving, Filled, Enabled, Next;
    var s0 := Init(map[Mine := [0]], ram, n);
    InitIsFilled(ram, n);
    r1, r2, r3 := FirstLife(s0);
    var first := [Launch(1)] + r1 + [Launch(2)] + r2 + r3;
    InitCoherent(map[Mine := [0]], ram, n);
    InitFifo(map[Mine := [0]], ram, n);
    RunIsFifo(s0, first);
    StillThere(Exec(s0, first));
    before, after := SecondLife(Exec(s0, first));
  }

  lemma StillThere(s: VM)
    requires 3 <= POOLSIZE && Filled(s, POOLSIZE, 1)
    ensures s.crit.None? && s.fault == map[] && !NoFrameOf(s, 2)
  {
    assert s.tag[1] == Some(PageIn(1));
  }
}
