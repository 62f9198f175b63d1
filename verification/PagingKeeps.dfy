/** Frame, PTE and TLB coherence is kept by every step of every process. */
module PagingKeeps {
  import opened Processes
  import opened Paging

  // ------------------------------------------------------------------- the TLB

  lemma ProbeFinds(tlb: Tlb, i: nat)
    requires TlbUnique(tlb) && i < |tlb| && tlb[i].Some?
    ensures Probe(tlb, tlb[i].value.page) == i
  {
  }

  lemma ProbeMisses(tlb: Tlb, g: Page, i: nat)
    requires Probe(tlb, g) == |tlb| && i < |tlb| && tlb[i].Some?
    ensures tlb[i].value.page != g
  {
  }

  /** After `updateTLBEntry(g)` the entry for `g`, if any, equals the PTE; the others stay. */
  lemma UpdateTlbMatches(s: VM, g: Page)
    requires TlbUnique(s.tlb)
    ensures var t := UpdateTlb(s, g).tlb;
            && |t| == |s.tlb| && TlbUnique(t)
            && forall i {:trigger t[i]} :: 0 <= i < |t| ==>
                 if t[i].Some? && t[i].value.page == g then t[i] == Some(TlbEntry(g, PteOf(s, g))) else t[i] == s.tlb[i]
  {
    var t := UpdateTlb(s, g).tlb;
    forall i | 0 <= i < |s.tlb| && s.tlb[i].Some? && s.tlb[i].value.page == g
      ensures Probe(s.tlb, g) == i
    {
      ProbeFinds(s.tlb, i);
    }
  }

  // ------------------------------------------------------------------ user steps

  lemma AccessKeeps(s: VM, ev: Event)
    requires Coherent(s) && Enabled(s, ev) && (ev.Load? || ev.Store?)
    ensures Coherent(Next(s, ev))
  {
    var t := Next(s, ev);
    SamePages(s, t);
  }

  /** Coherence does not depend on the contents of memory. */
  lemma SamePages(s: VM, t: VM)
    requires Coherent(s) && t.pt == s.pt && t.tlb == s.tlb && t.tag == s.tag && t.fault == s.fault && t.crit == s.crit
    ensures Coherent(t)
  {
    assert forall g :: PteOf(t, g) == PteOf(s, g);
    assert forall f: Frame :: Owner(t, f) == Owner(s, f);
  }

  lemma RefillKeeps(s: VM, g: Page, i: nat)
    requires Coherent(s) && Enabled(s, Refill(g, i))
    ensures Coherent(Next(s, Refill(g, i)))
  {
    var t := Next(s, Refill(g, i));
    assert forall h :: PteOf(t, h) == PteOf(s, h);
    assert forall f: Frame :: Owner(t, f) == Owner(s, f);
    forall j | 0 <= j < |s.tlb| && s.tlb[j].Some? ensures s.tlb[j].value.page != g { ProbeMisses(s.tlb, g, j); }
  }

  /** A fault is raised by an entry with V off, and then the PTE itself has V off. */
  lemma FaultIsReal(s: VM, g: Page)
    requires Coherent(s) && Enabled(s, Fault(g))
    ensures !PteOf(s, g).valid
  {
    var i := Probe(s.tlb, g);
    assert EntryAllowed(s, g, s.tlb[i].value.pte);
  }

  lemma FaultKeeps(s: VM, g: Page)
    requires Coherent(s) && Enabled(s, Fault(g))
    ensures Coherent(Next(s, Fault(g)))
  {
    FaultIsReal(s, g);
    var t := Next(s, Fault(g));
    assert forall h :: PteOf(t, h) == PteOf(s, h);
    assert forall f: Frame :: Owner(t, f) == Owner(s, f);
  }

  lemma EnterKeeps(s: VM, asid: nat)
    requires Coherent(s) && Enabled(s, Enter(asid))
    ensures Coherent(Next(s, Enter(asid)))
  {
    var t := Next(s, Enter(asid));
    assert forall h :: PteOf(t, h) == PteOf(s, h);
    assert forall f: Frame :: Owner(t, f) == Owner(s, f);
  }

  lemma LaunchKeeps(s: VM, asid: nat)
    requires Coherent(s) && Clean(s, asid)
    ensures Coherent(PagesOff(s, asid))
    ensures forall g :: PteOf(PagesOff(s, asid), g).valid == PteOf(s, g).valid
  {
    var t := PagesOff(s, asid);
    forall g: Page ensures if g.asid == asid then !PteOf(t, g).valid else PteOf(t, g) == PteOf(s, g) { }
    forall g: Page | g.asid == asid ensures !PteOf(s, g).valid {
      if PteOf(s, g).valid {
        OwnerIsTagged(s, PteOf(s, g).frame);
      }
    }
    assert forall f: Frame :: Owner(t, f) == Owner(s, f);
  }

  lemma OwnerIsTagged(s: VM, f: Frame)
    ensures Owner(s, f).Some? ==> Owner(s, f) == s.tag[f]
  {
  }

  lemma OwnerIsValid(s: VM, f: Frame)
    requires PtesMatchFrames(s)
    ensures Owner(s, f).Some? ==> PteOf(s, Owner(s, f).value) == Pte(true, f, true)
  {
  }

  // ----------------------------------------------------------------- pager steps

  /** The page being served has no frame yet. */
  lemma ServedPageIsAbsent(s: VM)
    requires Coherent(s) && s.crit.Some?
    requires !s.crit.value.pc.SyncTlb? && !s.crit.value.pc.Unlock?
    ensures !PteOf(s, s.crit.value.page).valid
    ensures forall f: Frame :: Owner(s, f) != Some(s.crit.value.page)
  {
    var g := s.crit.value.page;
    assert s.fault[g.asid] == g;
    forall f: Frame ensures Owner(s, f) != Some(g) {
      OwnerIsValid(s, f);
    }
  }

  lemma PickKeeps(s: VM)
    requires Coherent(s) && s.crit.Some? && s.crit.value.pc.PickVictim?
    ensures Coherent(PagerStep(s))
  {
    var t := PagerStep(s);
    assert forall h :: PteOf(t, h) == PteOf(s, h);
    assert forall f: Frame :: Owner(s, f) == s.tag[f];
    assert forall f: Frame :: Owner(t, f) == Owner(s, f);
  }

  lemma ClearKeeps(s: VM)
    requires Coherent(s) && s.crit.Some? && s.crit.value.pc.ClearV?
    ensures Coherent(PagerStep(s))
  {
    var c := s.crit.value;
    var old_ := s.tag[c.frame].value;
    var t := PagerStep(s);
    assert Owner(s, c.frame) == Some(old_) && PteOf(s, old_) == Pte(true, c.frame, true);
    assert forall h :: PteOf(t, h) == if h == old_ then Pte(false, c.frame, true) else PteOf(s, h);
    assert forall f: Frame :: Owner(t, f) == if f == c.frame then None else Owner(s, f);
    ServedPageIsAbsent(s);
  }

  lemma FlushKeeps(s: VM)
    requires Coherent(s) && s.crit.Some? && s.crit.value.pc.FlushTlb?
    ensures Coherent(PagerStep(s))
  {
    var t := PagerStep(s);
    UpdateTlbMatches(s, s.tag[s.crit.value.frame].value);
    assert forall h :: PteOf(t, h) == PteOf(s, h);
    assert forall f: Frame :: Owner(t, f) == Owner(s, f);
    forall i | 0 <= i < |t.tlb| && t.tlb[i].Some?
      ensures EntryAllowed(t, t.tlb[i].value.page, t.tlb[i].value.pte)
    {
      if t.tlb[i].value.page != s.tag[s.crit.value.frame].value {
        assert EntryAllowed(s, s.tlb[i].value.page, s.tlb[i].value.pte);
      }
    }
  }

  lemma CopyKeeps(s: VM)
    requires Coherent(s) && s.crit.Some? && (s.crit.value.pc.WriteBack? || s.crit.value.pc.ReadIn?)
    ensures Coherent(PagerStep(s))
  {
    var t := PagerStep(s);
    assert forall h :: PteOf(t, h) == PteOf(s, h);
    assert forall f: Frame :: Owner(t, f) == Owner(s, f);
  }

  lemma RetagKeeps(s: VM)
    requires Coherent(s) && s.crit.Some? && s.crit.value.pc.Retag?
    ensures Coherent(PagerStep(s))
  {
    var c := s.crit.value;
    var t := PagerStep(s);
    ServedPageIsAbsent(s);
    assert forall h :: PteOf(t, h) == PteOf(s, h);
    assert forall f: Frame :: Owner(t, f) == Owner(s, f);
    assert forall f: Frame :: f != c.frame ==> Owner(s, f) == s.tag[f];
  }

  lemma SetPteKeeps(s: VM)
    requires Coherent(s) && s.crit.Some? && s.crit.value.pc.SetPte?
    ensures Coherent(PagerStep(s))
  {
    var c := s.crit.value;
    var t := PagerStep(s);
    ServedPageIsAbsent(s);
    assert forall h :: PteOf(t, h) == if h == c.page then Pte(true, c.frame, true) else PteOf(s, h);
    assert forall f: Frame :: Owner(t, f) == if f == c.frame then Some(c.page) else Owner(s, f);
    SetPteFaults(s, t);
  }

  lemma SetPteFaults(s: VM, t: VM)
    requires FaultsPending(s) && s.crit.Some? && s.crit.value.pc.SetPte?
    requires t == PagerStep(s)
    ensures FaultsPending(t)
  {
    var g := s.crit.value.page;
    forall a | a in t.fault ensures
      PteOf(t, t.fault[a]).valid <==> t.crit.value.page == t.fault[a]
    {
      assert t.fault[a].asid == a;
    }
  }

  lemma SyncKeeps(s: VM)
    requires Coherent(s) && s.crit.Some? && s.crit.value.pc.SyncTlb?
    ensures Coherent(PagerStep(s))
  {
    var t := PagerStep(s);
    UpdateTlbMatches(s, s.crit.value.page);
    assert forall h :: PteOf(t, h) == PteOf(s, h);
    assert forall f: Frame :: Owner(t, f) == Owner(s, f);
    forall i | 0 <= i < |t.tlb| && t.tlb[i].Some?
      ensures EntryAllowed(t, t.tlb[i].value.page, t.tlb[i].value.pte)
    {
      if t.tlb[i].value.page != s.crit.value.page {
        assert EntryAllowed(s, s.tlb[i].value.page, s.tlb[i].value.pte);
      }
    }
  }

  lemma UnlockKeeps(s: VM)
    requires Coherent(s) && s.crit.Some? && s.crit.value.pc.Unlock?
    ensures Coherent(PagerStep(s))
  {
    var t := PagerStep(s);
    assert forall h :: PteOf(t, h) == PteOf(s, h);
    assert forall f: Frame :: Owner(t, f) == Owner(s, f);
    forall a | a in t.fault ensures !PteOf(t, t.fault[a]).valid {
      assert s.fault[a].asid == a && s.crit.value.page.asid != a;
    }
  }

  lemma PagerKeeps(s: VM)
    requires Coherent(s) && s.crit.Some?
    ensures Coherent(PagerStep(s))
  {
    hide Coherent, PagerStep;
    match s.crit.value.pc
    case PickVictim => PickKeeps(s);
    case ClearV => ClearKeeps(s);
    case FlushTlb => FlushKeeps(s);
    case WriteBack => CopyKeeps(s);
    case ReadIn => CopyKeeps(s);
    case Retag => RetagKeeps(s);
    case SetPte => SetPteKeeps(s);
    case SyncTlb => SyncKeeps(s);
    case Unlock => UnlockKeeps(s);
  }

  /** Coherence is kept by every step, in every interleaving. */
  lemma StepKeeps(s: VM, ev: Event)
    requires Coherent(s) && Enabled(s, ev)
    ensures Coherent(Next(s, ev))
  {
    hide Coherent;
    match ev
    case Load(g, off, v) => AccessKeeps(s, ev);
    case Store(g, off, v) => AccessKeeps(s, ev);
    case Refill(g, i) => RefillKeeps(s, g, i);
    case Fault(g) => FaultKeeps(s, g);
    case TlbMod(g) =>
    case Enter(asid) => EnterKeeps(s, asid);
    case Pager => PagerKeeps(s);
    case Launch(asid) => LaunchKeeps(s, asid);
  }

  // ------------------------------------------------------------------- the D bit

  /** Every initialised PTE and every TLB entry has its D bit, and nothing but initialised
      pages is ever cached, faulted on or held in a frame. */
  ghost predicate DirtyOn(s: VM) {
    && (forall g :: Known(s, g) ==> PteOf(s, g).dirty)
    && (forall g :: IsPage(g) ==> g in s.pt)
    && (forall i :: 0 <= i < |s.tlb| && s.tlb[i].Some? ==> Known(s, s.tlb[i].value.page) && s.tlb[i].value.pte.dirty)
    && (forall a :: a in s.fault ==> Known(s, s.fault[a]))
    && (s.crit.Some? ==> Known(s, s.crit.value.page))
    && (forall f: Frame :: s.tag[f].Some? ==> Known(s, s.tag[f].value))
  }

  lemma UpdateTlbDirty(s: VM, g: Page)
    requires DirtyOn(s) && Known(s, g)
    ensures DirtyOn(UpdateTlb(s, g))
  {
    var t := UpdateTlb(s, g);
    forall h ensures PteOf(t, h) == PteOf(s, h) { }
  }

  lemma DirtyAt(s: VM, pc: Pc)
    requires DirtyOn(s) && s.crit.Some?
    ensures DirtyOn(At(s, pc))
  {
    forall h ensures PteOf(At(s, pc), h) == PteOf(s, h) { }
  }

  lemma UpdateTlbCrit(s: VM, g: Page)
    ensures UpdateTlb(s, g).crit == s.crit
  {
  }

  lemma DirtyPager(s: VM)
    requires DirtyOn(s) && s.crit.Some?
    ensures DirtyOn(PagerStep(s))
  {
    var t, f := PagerStep(s), s.crit.value.frame;
    match s.crit.value.pc
    case FlushTlb =>
      if s.tag[f].Some? { DirtyUpdate(s, s.tag[f].value, WriteBack); }
    case SyncTlb => DirtyUpdate(s, s.crit.value.page, Unlock);
    case _ =>
      assert forall h :: Known(t, h) <==> Known(s, h);
      assert forall h :: PteOf(t, h) == PteOf(s, h) || PteOf(t, h).dirty || !Known(s, h);
  }

  lemma DirtyUpdate(s: VM, g: Page, pc: Pc)
    requires DirtyOn(s) && Known(s, g) && s.crit.Some?
    ensures UpdateTlb(s, g).crit.Some? && DirtyOn(At(UpdateTlb(s, g), pc))
  {
    UpdateTlbDirty(s, g);
    UpdateTlbCrit(s, g);
    hide UpdateTlb, DirtyOn;
    DirtyAt(UpdateTlb(s, g), pc);
  }

  lemma DirtySame(s: VM, t: VM)
    requires DirtyOn(s) && t.pt == s.pt && t.tlb == s.tlb && t.tag == s.tag && t.up == s.up
    requires forall a :: a in t.fault ==> Known(s, t.fault[a])
    requires t.crit.Some? ==> Known(s, t.crit.value.page)
    ensures DirtyOn(t)
  {
    assert forall h :: PteOf(t, h) == PteOf(s, h) && (Known(t, h) <==> Known(s, h));
  }

  lemma DirtyStep(s: VM, ev: Event)
    requires DirtyOn(s) && Enabled(s, ev)
    ensures DirtyOn(Next(s, ev))
  {
    match ev
    case Load(g, off, v) =>
    case Store(g, off, v) => DirtySame(s, Next(s, ev));
    case Refill(g, i) => DirtyRefill(s, g, i);
    case Fault(g) => DirtySame(s, Next(s, ev));
    case TlbMod(g) =>
    case Enter(asid) => DirtySame(s, Next(s, ev));
    case Pager => DirtyPager(s);
    case Launch(asid) => DirtyLaunch(s, asid);
  }

  lemma DirtyRefill(s: VM, g: Page, i: nat)
    requires DirtyOn(s) && Enabled(s, Refill(g, i))
    ensures DirtyOn(Next(s, Refill(g, i)))
  {
    var t := Next(s, Refill(g, i));
    assert forall h :: PteOf(t, h) == PteOf(s, h) && (Known(t, h) <==> Known(s, h));
  }

  lemma DirtyLaunch(s: VM, asid: nat)
    requires DirtyOn(s)
    ensures DirtyOn(PagesOff(s, asid))
  {
    var t := PagesOff(s, asid);
    forall g | Known(t, g) ensures PteOf(t, g).dirty {
      assert g in s.pt && t.pt[g] == if g.asid == asid then Pte(false, 0, true) else s.pt[g];
      if g.asid != asid { assert Known(s, g) && PteOf(s, g).dirty; }
    }
    assert forall g :: Known(s, g) ==> Known(t, g);
  }

  /** So no store is ever refused: what is mapped can be stored to. */
  lemma NoTlbModNow(s: VM, g: Page, off: nat, v: int)
    requires DirtyOn(s)
    ensures !Enabled(s, TlbMod(g))
    ensures Mapped(s, g, off) ==> Enabled(s, Store(g, off, v))
  {
  }

  /** Outside the critical section the occupied frames and the valid PTEs are in
      one-to-one correspondence and every TLB entry maps like its PTE. */
  lemma QuietIsExact(s: VM)
    requires Coherent(s) && s.crit.None?
    ensures forall f: Frame, g :: s.tag[f] == Some(g) <==> PteOf(s, g) == Pte(true, f, true)
    ensures forall f: Frame, h: Frame :: s.tag[f].Some? && s.tag[f] == s.tag[h] ==> f == h
    ensures forall i :: 0 <= i < |s.tlb| && s.tlb[i].Some? ==> SameMapping(s.tlb[i].value.pte, PteOf(s, s.tlb[i].value.page))
  {
    assert forall f: Frame :: Owner(s, f) == s.tag[f];
    forall i | 0 <= i < |s.tlb| && s.tlb[i].Some? ensures SameMapping(s.tlb[i].value.pte, PteOf(s, s.tlb[i].value.page)) {
      assert EntryAllowed(s, s.tlb[i].value.page, s.tlb[i].value.pte);
    }
  }
}
