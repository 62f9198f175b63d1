/**
 What one call of the pager does as a whole: a fault that is served, and what a flash
 operation that fails leaves behind.
 */
module PagerEffect {
  import opened Processes
  import opened Paging
  import opened PagingKeeps
  import opened PagerCode
  import PagingRefines

  lemma {:induction false} StepsAdd(s: VM, a: nat, b: nat)
    ensures Steps(Steps(s, a), b) == Steps(s, a + b)
  {
    hide PagerStep;
    if b > 0 {
      StepsAdd(s, a, b - 1);
    }
  }

  lemma {:induction false} StepsKeep(s: VM, n: nat)
    requires Coherent(s)
    ensures Coherent(Steps(s, n))
  {
    hide Coherent, PagerStep;
    if n > 0 {
      StepsKeep(s, n - 1);
      if Steps(s, n - 1).crit.Some? { PagerKeeps(Steps(s, n - 1)); }
    }
  }

  // ------------------------------------------------------------------- the two halves

  /** The three steps that empty an occupied frame. */
  lemma EmptyingIs(s: VM, v: Page)
    requires s.crit.Some? && s.crit.value.pc.ClearV? && s.tag[s.crit.value.frame] == Some(v)
    ensures var t, f := Steps(s, 3), s.crit.value.frame;
            && t == s.(pt := t.pt, tlb := t.tlb, flash := s.flash[v := s.ram[f]], crit := t.crit)
            && t.pt == s.pt[v := PteOf(s, v).(valid := false)]
            && t.crit == Some(Critical(s.crit.value.page, ReadIn, f))
            && t.tlb == UpdateTlb(PagerStep(s), v).tlb
  {
    hide UpdateTlb, PteOf;
    var s2 := PagerStep(s);
    PagingRefines.UpdateTlbFrame(s2);
    StepsOnce(s, 0);
    StepsOnce(s, 1);
    StepsOnce(s, 2);
  }

  lemma PickIs(s: VM, g: Page)
    requires s.crit == Some(Critical(g, PickVictim, 0))
    ensures var t := Steps(s, 1);
            t == s.(clock := (s.clock + 1) % POOLSIZE, picks := s.picks + 1,
                    crit := Some(Critical(g, if s.tag[s.clock].Some? then ClearV else ReadIn, s.clock)))
  {
    StepsOnce(s, 0);
  }

  lemma FillCases(s: VM, g: Page, f: Frame)
    requires s.crit.Some? && s.crit.value.page == g && s.crit.value.frame == f
    ensures s.crit.value.pc.ReadIn? ==>
              PagerStep(s) == s.(ram := s.ram[f := Block(s.flash, g)], crit := Some(Critical(g, Retag, f)))
    ensures s.crit.value.pc.Retag? ==>
              PagerStep(s) == s.(tag := s.tag[f := Some(g)], crit := Some(Critical(g, SetPte, f)))
    ensures s.crit.value.pc.SetPte? ==>
              PagerStep(s) == s.(pt := s.pt[g := Pte(true, f, true)], crit := Some(Critical(g, SyncTlb, f)))
  {
  }

  /** The three steps that fill the frame. */
  lemma FillingIs(s: VM)
    requires s.crit.Some? && s.crit.value.pc.ReadIn?
    ensures var f, g := s.crit.value.frame, s.crit.value.page;
            Steps(s, 3) == s.(ram := s.ram[f := Block(s.flash, g)], tag := s.tag[f := Some(g)],
                              pt := s.pt[g := Pte(true, f, true)], crit := Some(Critical(g, SyncTlb, f)))
  {
    hide PagerStep, Block, Steps;
    var f, g := s.crit.value.frame, s.crit.value.page;
    StepsOnce(s, 0);
    FillCases(s, g, f);
    var s1 := PagerStep(s);
    StepsOnce(s, 1);
    FillCases(s1, g, f);
    var s2 := PagerStep(s1);
    StepsOnce(s, 2);
    FillCases(s2, g, f);
  }

  /** The last two. */
  lemma EndingIs(s: VM)
    requires s.crit.Some? && s.crit.value.pc.SyncTlb?
    ensures Steps(s, 1).crit.Some?
    ensures var g := s.crit.value.page;
            Steps(s, 2) == s.(tlb := UpdateTlb(s, g).tlb, crit := None, fault := s.fault - {g.asid})
  {
    hide UpdateTlb, PteOf;
    PagingRefines.UpdateTlbFrame(s);
    StepsOnce(s, 0);
    StepsOnce(s, 1);
  }

  lemma LoadingIs(s: VM)
    requires s.crit.Some? && s.crit.value.pc.ReadIn?
    ensures var t, f, g := Steps(s, 5), s.crit.value.frame, s.crit.value.page;
            t == s.(ram := s.ram[f := Block(s.flash, g)], tag := s.tag[f := Some(g)], pt := s.pt[g := Pte(true, f, true)],
                    tlb := UpdateTlb(Steps(s, 3), g).tlb, crit := None, fault := s.fault - {g.asid})
    ensures Steps(s, 4).crit.Some?
  {
    hide UpdateTlb, PagerStep;
    FillingIs(s);
    EndingIs(Steps(s, 3));
    StepsAdd(s, 3, 1);
    StepsAdd(s, 3, 2);
  }

  // ------------------------------------------------------------------------ a whole call

  /** The fault on `g` has been served with the frame at the clock hand: the page is there
      with the contents of its block, its PTE is on, so that the access does not fault again;
      the page evicted, if any, is on its flash device as it was in the frame, and its PTE is
      off; no other PTE, block or frame has changed, and everything is coherent. */
  ghost predicate ServedWell(s: VM, t: VM, g: Page) {
    var f := s.clock;
    && Coherent(t) && t.crit.None? && t.fault == s.fault - {g.asid} && !Enabled(t, Fault(g))
    && PteOf(t, g) == Pte(true, f, true) && t.tag == s.tag[f := Some(g)] && t.ram == s.ram[f := Block(s.flash, g)]
    && (match s.tag[f]
        case None => t.flash == s.flash
        case Some(v) => v != g && !PteOf(t, v).valid && t.flash == s.flash[v := s.ram[f]])
    && (forall h :: h != g && s.tag[f] != Some(h) ==> PteOf(t, h) == PteOf(s, h))
  }

  lemma PagerServes(s: VM, asid: nat)
    requires Coherent(s) && s.crit.None? && asid in s.fault
    ensures var (t, died) := Served(s, asid, false, true, true); !died && ServedWell(s, t, s.fault[asid])
  {
    hide Coherent, PagerStep, Served, Abandon, ServedWell;
    var g := s.fault[asid];
    var e := Next(s, Event.Enter(asid));
    StepKeeps(s, Event.Enter(asid));
    NotTheVictim(s, asid);
    ServedIs(s, asid);
    var n := if s.tag[s.clock].Some? then 9 else 6;
    StepsKeep(e, n);
    FaultIsOwn(s, asid);
    CallIs(e, g);
    IsServed(s, Steps(e, n), g);
  }

  /** The call as one assignment. */
  lemma CallIs(e: VM, g: Page)
    requires e.crit == Some(Critical(g, PickVictim, 0)) && e.tag[e.clock] != Some(g)
    ensures var t, f := Steps(e, if e.tag[e.clock].Some? then 9 else 6), e.clock;
            Assigned(e, t, f, g) && t.clock == (f + 1) % POOLSIZE
    ensures Steps(e, if e.tag[e.clock].Some? then 8 else 5).crit.Some?
  {
    hide PagerStep, Steps, UpdateTlb;
    PickIs(e, g);
    var n := if e.tag[e.clock].Some? then 4 else 1;
    if e.tag[e.clock].Some? {
      EmptyingIs(Steps(e, 1), e.tag[e.clock].value);
      StepsAdd(e, 1, 3);
    }
    LoadingIs(Steps(e, n));
    StepsAdd(e, n, 4);
    StepsAdd(e, n, 5);
  }

  ghost predicate Assigned(s: VM, t: VM, f: Frame, g: Page) {
    && t.crit.None? && t.fault == s.fault - {g.asid} && t.up == s.up
    && t.tag == s.tag[f := Some(g)] && t.ram == s.ram[f := Block(s.flash, g)]
    && (match s.tag[f]
        case None => t.flash == s.flash && t.pt == s.pt[g := Pte(true, f, true)]
        case Some(v) => v != g && t.flash == s.flash[v := s.ram[f]]
                        && t.pt == s.pt[v := PteOf(s, v).(valid := false)][g := Pte(true, f, true)])
  }

  lemma IsServed(s: VM, t: VM, g: Page)
    requires Assigned(s, t, s.clock, g) && Coherent(t)
    ensures ServedWell(s, t, g)
  {
    hide Coherent;
    if Enabled(t, Fault(g)) { FaultIsReal(t, g); }
  }

  lemma ServedIs(s: VM, asid: nat)
    requires s.crit.None? && asid in s.fault
    ensures Served(s, asid, false, true, true)
         == (Steps(Next(s, Event.Enter(asid)), if s.tag[s.clock].Some? then 9 else 6), false)
  {
  }

  lemma FaultIsOwn(s: VM, asid: nat)
    requires Coherent(s) && asid in s.fault
    ensures s.fault[asid].asid == asid
  {
  }

  lemma NotTheVictim(s: VM, asid: nat)
    requires Coherent(s) && s.crit.None? && asid in s.fault
    ensures s.tag[s.clock] != Some(s.fault[asid])
  {
    QuietIsExact(s);
  }

  // ------------------------------------------------------------------------ failed flash I/O

  /** What a failed transfer leaves behind is coherent exactly when the frame was empty:
      otherwise its tag goes on naming a page whose PTE is off. */
  lemma FailureIsHarmlessIff(s: VM)
    requires Coherent(s) && s.crit.Some? && (s.crit.value.pc.WriteBack? || s.crit.value.pc.ReadIn?)
    ensures Coherent(Abandon(s)) <==> s.tag[s.crit.value.frame].None?
  {
    var t, f := Abandon(s), s.crit.value.frame;
    assert forall h :: PteOf(t, h) == PteOf(s, h);
    if s.tag[f].None? {
      assert forall h: Frame :: Owner(t, h) == Owner(s, h);
    } else {
      var v := s.tag[f].value;
      assert Owner(s, f) == None;
      assert Owner(t, f) == Some(v);
    }
  }

  /** So the pager leaves everything coherent exactly when no transfer failed, or the read
      failed into an empty frame. */
  lemma PagerIsCoherentIff(s: VM, asid: nat, mod: bool, writeOk: bool, readOk: bool)
    requires Coherent(s) && s.crit.None? && asid in s.fault
    ensures Coherent(Served(s, asid, mod, writeOk, readOk).0)
       <==> mod || s.tag[s.clock].None? || (writeOk && readOk)
  {
    hide Coherent, PagerStep, Abandon;
    var e := Next(s, Event.Enter(asid));
    StepKeeps(s, Event.Enter(asid));
    PickIs(e, s.fault[asid]);
    StepsKeep(e, 1);
    StepsKeep(e, 3);
    StepsKeep(e, 4);
    StepsKeep(e, 6);
    StepsKeep(e, 9);
    if mod {
      ModKeeps(s, asid);
    } else if s.tag[s.clock].Some? {
      EmptyingIs(Steps(e, 1), s.tag[s.clock].value);
      HalfEmptied(Steps(e, 1), s.tag[s.clock].value);
      StepsAdd(e, 1, 2);
      StepsAdd(e, 1, 3);
      FailureIsHarmlessIff(Steps(e, 3));
      FailureIsHarmlessIff(Steps(e, 4));
    } else {
      FailureIsHarmlessIff(Steps(e, 1));
    }
  }

  lemma HalfEmptied(s: VM, v: Page)
    requires s.crit.Some? && s.crit.value.pc.ClearV? && s.tag[s.crit.value.frame] == Some(v)
    ensures var t := Steps(s, 2); t.crit == Some(s.crit.value.(pc := WriteBack)) && t.tag == s.tag
  {
    hide UpdateTlb, PteOf;
    PagingRefines.UpdateTlbFrame(PagerStep(s));
    StepsOnce(s, 0);
    StepsOnce(s, 1);
  }

  /** A process killed for writing to a read-only page. */
  lemma ModKeeps(s: VM, asid: nat)
    requires Coherent(s) && s.crit.None?
    ensures Coherent(s.(fault := s.fault - {asid}))
  {
    var t := s.(fault := s.fault - {asid});
    assert forall h :: PteOf(t, h) == PteOf(s, h);
    assert forall f: Frame :: Owner(t, f) == Owner(s, f);
  }
}
