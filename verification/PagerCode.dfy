/**
 The pager as it is written: private page tables, swap pool records with their pointers to
 PTEs, TLB entries as the hardware keeps them, flash blocks and frames, all updated in place.
 Each method is proved to be a step of module Paging on what these arrays mean.
 */
module PagerCode {
  import opened Processes
  import opened Paging

  const STACK_VPN := 0x3FFFF
  const EXC_MOD := 24

  /** SWAPPOOLSTART, counted in pages. */
  const POOLSTART := 0x20020

  /** The index into the private page table that the pager and the refill handler compute
      from the VPN relative to KUSEG. */
  function PageIndex(vpn: int): int {
    if vpn == STACK_VPN then MAXPAGES - 1 else vpn
  }

  /** The VPN `initPageTable` puts into entry `i`. */
  function EntryVpn(i: int): int {
    if i == MAXPAGES - 1 then 0xBFFFF else 0x80000 + i
  }

  /** What both handlers compute from the address: bits 29 to 12 of it, then the index. */
  function PageOf(a: nat): int { PageIndex(a / 0x1000 % 0x40000) }

  /** The index is inside the page table. */
  predicate InTable(a: nat) { 0 <= PageOf(a) < MAXPAGES }

  /** Entry `i` has the VPN of an address exactly when the address lies in page `i`: the 31
      pages of text and data from 0x80000000 on, and the page of the stack below 0xC0000000. */
  lemma EntryIsOfAddress(a: nat, i: nat)
    requires i < 32
    ensures a / 0x1000 == EntryVpn(i) <==>
            if i == 31 then 0xBFFF_F000 <= a < 0xC000_0000
            else 0x8000_0000 + i * 0x1000 <= a < 0x8000_0000 + (i + 1) * 0x1000
  {
  }

  /** Both handlers find the entry of an address exactly if the program may use the address. */
  lemma HandlersFindEntry(a: nat)
    requires InTable(a)
    ensures a / 0x1000 == EntryVpn(PageOf(a)) <==> 0x8000_0000 <= a < 0x8001_F000 || 0xBFFF_F000 <= a < 0xC000_0000
    ensures 0x8000_0000 <= a < 0x8001_F000 ==> PageOf(a) == (a - 0x8000_0000) / 0x1000
    ensures 0xBFFF_F000 <= a < 0xC000_0000 ==> PageOf(a) == 31
  {
    EntryIsOfAddress(a, PageOf(a));
    var v := a / 0x1000;
    if 0x8000_0000 <= a < 0x8001_F000 {
      assert 0x80000 <= v < 0x8001F;
      assert v % 0x40000 == v - 0x80000;
    }
    if 0xBFFF_F000 <= a < 0xC000_0000 { assert v == 0xBFFFF; }
  }

  /** From the VPN in any PTE both handlers find that very PTE; so no two pages of an ASID share
      a VPN. */
  lemma IndexRecoversEntry(i: int)
    requires 0 <= i < MAXPAGES
    ensures PageIndex(EntryVpn(i) % 0x40000) == i
  {
  }

  // ------------------------------------------------------------ what the fields mean

  /** A page table entry, or a TLB entry: EntryHi is (vpn, asid), EntryLo the rest. */
  datatype PteFields = PteFields(vpn: int, asid: nat, pfn: nat, dirty: bool, valid: bool)

  /** One row of 32 for each ASID. */
  predicate Shaped<T>(t: array2<T>) { t.Length0 == UPROCMAX && t.Length1 == MAXPAGES }

  /** Row asid - 1 belongs to that ASID: its sup_privatePgTbl, or the blocks of its flash device. */
  ghost function Rows<T>(t: array2<T>): map<Page, T>
    requires Shaped(t)
    reads t
  {
    map g | g in Pages() :: t[g.asid - 1, g.no]
  }

  /** A pointer to an entry of the private page table of ASID row + 1. */
  datatype PtePtr = Null | Entry(row: int, index: int)

  /** `swap_t`. */
  datatype Swap = Swap(sw_asid: int, sw_pageNo: int, sw_pte: PtePtr)

  const FreeFrame := Swap(-1, -1, Null)

  function AsPte(e: PteFields): Pte {
    Pte(e.valid, if POOLSTART <= e.pfn < POOLSTART + POOLSIZE then e.pfn - POOLSTART else 0, e.dirty)
  }

  /** EntryHi is that of page `g`. */
  predicate Names(e: PteFields, g: Page) { e.vpn == EntryVpn(g.no) && e.asid == g.asid }

  function AsPage(e: PteFields): Page
    requires 0 <= PageIndex(e.vpn % 0x40000)
  {
    Page(e.asid, PageIndex(e.vpn % 0x40000))
  }

  predicate TlbEntryOk(e: Option<PteFields>) {
    e.Some? ==> 0 <= PageIndex(e.value.vpn % 0x40000) < MAXPAGES && Names(e.value, AsPage(e.value))
  }

  function AsTlbEntry(e: Option<PteFields>): Option<TlbEntry>
    requires TlbEntryOk(e)
  {
    if e.None? then None else Some(TlbEntry(AsPage(e.value), AsPte(e.value)))
  }

  predicate TlbOk(t: seq<Option<PteFields>>) { forall i :: 0 <= i < |t| ==> TlbEntryOk(t[i]) }

  function AsTlb(t: seq<Option<PteFields>>): Tlb
    requires TlbOk(t)
  {
    seq(|t|, i requires 0 <= i < |t| => AsTlbEntry(t[i]))
  }

  predicate SwapOk(w: Swap) {
    w.sw_asid == -1 ||
    (1 <= w.sw_asid <= UPROCMAX && 0 <= w.sw_pageNo < MAXPAGES && w.sw_pte == Entry(w.sw_asid - 1, w.sw_pageNo))
  }

  function AsTag(w: Swap): Option<Page>
    requires SwapOk(w)
  {
    if w.sw_asid == -1 then None else Some(Page(w.sw_asid, w.sw_pageNo))
  }

  predicate PoolOk(p: seq<Swap>) { |p| == POOLSIZE && forall i :: 0 <= i < |p| ==> SwapOk(p[i]) }

  function AsTags(p: seq<Swap>): Tags
    requires PoolOk(p)
  {
    seq(POOLSIZE, i requires 0 <= i < POOLSIZE => AsTag(p[i]))
  }

  type PageTables = map<Page, PteFields>

  function AsPageTables(t: PageTables): map<Page, Pte> { map g | g in t :: AsPte(t[g]) }

  /** `initPageTable` has been called for this ASID. */
  ghost predicate Launched(t: PageTables, asid: nat) {
    1 <= asid <= UPROCMAX && forall g :: g in t && g.asid == asid ==> Names(t[g], g)
  }

  /** The page tables after `initPageTable`. */
  ghost function InitTable(t: PageTables, asid: nat): PageTables {
    map g | g in t :: if g.asid == asid then PteFields(EntryVpn(g.no), asid, 0, true, false) else t[g]
  }

  ghost predicate Tagged(t: PageTables, p: seq<Swap>) {
    PoolOk(p) && forall f :: 0 <= f < |p| && p[f].sw_asid > 0 ==> Launched(t, p[f].sw_asid)
  }

  // ------------------------------------------------------------------ small facts

  lemma TagsUpdate(p: seq<Swap>, f: Frame, w: Swap)
    requires PoolOk(p) && SwapOk(w)
    ensures PoolOk(p[f := w]) && AsTags(p[f := w]) == AsTags(p)[f := AsTag(w)]
  {
  }

  lemma TlbUpdate(t: seq<Option<PteFields>>, i: nat, e: PteFields, g: Page)
    requires TlbOk(t) && i < |t| && IsPage(g) && Names(e, g)
    ensures TlbOk(t[i := Some(e)]) && AsTlb(t[i := Some(e)]) == AsTlb(t)[i := Some(TlbEntry(g, AsPte(e)))]
  {
    IndexRecoversEntry(g.no);
  }

  lemma LaunchIs(s: VM, t: PageTables, asid: nat, p: seq<Swap>)
    requires s.pt == AsPageTables(t) && Tagged(t, p) && 1 <= asid <= UPROCMAX
    ensures Launched(InitTable(t, asid), asid) && Tagged(InitTable(t, asid), p)
    ensures PagesOff(s, asid) == s.(pt := AsPageTables(InitTable(t, asid)), up := s.up + {asid})
    ensures forall a :: Launched(t, a) ==> Launched(InitTable(t, asid), a)
  {
    forall f | 0 <= f < |p| && p[f].sw_asid > 0 ensures Launched(InitTable(t, asid), p[f].sw_asid) { }
    assert PagesOff(s, asid).pt == AsPageTables(InitTable(t, asid));
  }

  /** TLBP compares EntryHi: that is to compare pages. */
  lemma ProbeCompares(e: Option<PteFields>, g: Page, hi: PteFields)
    requires TlbEntryOk(e) && IsPage(g) && Names(hi, g)
    ensures e.Some? && e.value.vpn == hi.vpn && e.value.asid == hi.asid <==> AsTlbEntry(e).Some? && AsTlbEntry(e).value.page == g
  {
    IndexRecoversEntry(g.no);
  }

  lemma SelectsTagged(p: seq<Swap>, f: Frame)
    requires PoolOk(p)
    ensures AsTag(p[f]).Some? <==> p[f].sw_asid != -1
  {
  }

  lemma TagIs(p: seq<Swap>, f: Frame)
    requires PoolOk(p)
    ensures AsTags(p)[f] == AsTag(p[f])
    ensures p[f].sw_asid != -1 ==> AsTag(p[f]) == Some(Page(p[f].sw_asid, p[f].sw_pageNo)) && IsPage(AsTag(p[f]).value)
                                   && p[f].sw_pte == Entry(p[f].sw_asid - 1, p[f].sw_pageNo)
  {
    assert SwapOk(p[f]);
  }

  lemma InRows<T>(t: array2<T>, g: Page)
    requires Shaped(t) && IsPage(g)
    ensures g in Rows(t) && Rows(t)[g] == t[g.asid - 1, g.no]
  {
  }

  lemma ClearIs(s: VM, t: PageTables, g: Page, e: PteFields)
    requires s.crit.Some? && s.crit.value.pc.ClearV? && s.tag[s.crit.value.frame] == Some(g) && s.pt == AsPageTables(t)
    requires g in t && e == t[g].(valid := false)
    ensures PagerStep(s) == s.(pt := s.pt[g := AsPte(e)], crit := Some(s.crit.value.(pc := FlushTlb)))
  {
  }

  lemma PageIs(g: Page)
    ensures IsPage(g) <==> 1 <= g.asid <= UPROCMAX && g.no < MAXPAGES
    ensures MAXPAGES == 32 && POOLSTART == 0x20020
  {
  }

  lemma FlushIs(s: VM, g: Page)
    requires s.crit.Some? && s.crit.value.pc.FlushTlb? && s.tag[s.crit.value.frame] == Some(g)
    ensures PagerStep(s) == UpdateTlb(s, g).(crit := Some(s.crit.value.(pc := WriteBack)))
    ensures UpdateTlb(s, g) == s.(tlb := UpdateTlb(s, g).tlb)
  {
  }

  lemma SyncIs(s: VM, g: Page)
    requires s.crit.Some? && s.crit.value.pc.SyncTlb? && s.crit.value.page == g
    ensures PagerStep(s) == UpdateTlb(s, g).(crit := Some(s.crit.value.(pc := Unlock)))
    ensures UpdateTlb(s, g) == s.(tlb := UpdateTlb(s, g).tlb)
  {
  }

  lemma WriteIs(s: VM, g: Page)
    requires s.crit.Some? && s.crit.value.pc.WriteBack? && s.tag[s.crit.value.frame] == Some(g)
    ensures PagerStep(s) == s.(flash := s.flash[g := s.ram[s.crit.value.frame]], crit := Some(s.crit.value.(pc := ReadIn)))
  {
  }

  lemma TagLaunched(t: PageTables, p: seq<Swap>, f: Frame)
    requires Tagged(t, p) && p[f].sw_asid != -1
    ensures p[f].sw_asid > 0 && Launched(t, p[f].sw_asid)
  {
    assert SwapOk(p[f]);
  }

  lemma SetPteIs(s: VM, g: Page, e: PteFields)
    requires s.crit.Some? && s.crit.value.pc.SetPte? && s.crit.value.page == g
    requires e.valid && e.dirty && e.pfn == POOLSTART + s.crit.value.frame
    ensures PagerStep(s) == s.(pt := s.pt[g := AsPte(e)], crit := Some(s.crit.value.(pc := SyncTlb)))
  {
  }

  /** A PTE changes, EntryHi stays. */
  lemma PtesUpdate(t: PageTables, p: seq<Swap>, g: Page, e: PteFields)
    requires g in t && e.vpn == t[g].vpn && e.asid == t[g].asid && Tagged(t, p)
    ensures AsPageTables(t[g := e]) == AsPageTables(t)[g := AsPte(e)] && Tagged(t[g := e], p)
    ensures forall a: nat :: Launched(t, a) ==> Launched(t[g := e], a)
  {
    forall f | 0 <= f < |p| && p[f].sw_asid > 0 ensures Launched(t[g := e], p[f].sw_asid) { }
  }

  class VirtualMemory {
    const privatePgTbl: array2<PteFields>
    const flash: array2<Data>
    const swapPool: array<Swap>
    const frames: array<Data>
    const tlb: array<Option<PteFields>>
    var swapPoolSem: int
    var swapFrameClock: Frame
    // control state of the processes inside pager(), a count of selections, the ASIDs launched
    ghost var fault: map<nat, Page>
    ghost var crit: Option<Critical>
    ghost var picks: nat
    ghost var up: set<nat>

    ghost predicate Valid()
      reads this, privatePgTbl, swapPool, tlb
    {
      && Shaped(privatePgTbl) && Shaped(flash) && frames.Length == POOLSIZE
      && Tagged(Rows(privatePgTbl), swapPool[..]) && TlbOk(tlb[..])
      && (crit.None? <==> swapPoolSem == 1)
      && forall a :: a in up ==> Launched(Rows(privatePgTbl), a)
    }

    ghost function View(): VM
      requires Valid()
      reads this, privatePgTbl, flash, swapPool, frames, tlb
    {
      VM(frames[..], Rows(flash), AsPageTables(Rows(privatePgTbl)), AsTlb(tlb[..]), AsTags(swapPool[..]),
         swapFrameClock, fault, crit, picks, up)
    }

    /** What a valid state consists of ... */
    lemma Parts()
      requires Valid()
      ensures Shaped(privatePgTbl) && Shaped(flash) && frames.Length == POOLSIZE && swapPool.Length == POOLSIZE
      ensures Tagged(Rows(privatePgTbl), swapPool[..]) && PoolOk(swapPool[..]) && TlbOk(tlb[..])
      ensures crit.None? <==> swapPoolSem == 1
      ensures forall a :: a in up ==> Launched(Rows(privatePgTbl), a)
      ensures View() == VM(frames[..], Rows(flash), AsPageTables(Rows(privatePgTbl)), AsTlb(tlb[..]), AsTags(swapPool[..]),
                           swapFrameClock, fault, crit, picks, up)
    {
    }

    /** ... and what makes one. */
    lemma Whole()
      requires Shaped(privatePgTbl) && Shaped(flash) && frames.Length == POOLSIZE
      requires Tagged(Rows(privatePgTbl), swapPool[..]) && PoolOk(swapPool[..]) && TlbOk(tlb[..])
      requires crit.None? <==> swapPoolSem == 1
      requires forall a :: a in up ==> Launched(Rows(privatePgTbl), a)
      ensures Valid()
      ensures View() == VM(frames[..], Rows(flash), AsPageTables(Rows(privatePgTbl)), AsTlb(tlb[..]), AsTags(swapPool[..]),
                           swapFrameClock, fault, crit, picks, up)
    {
    }

    /** At boot the page tables are zeroed memory. */
    constructor (image: array2<Data>, ram: array<Data>, tlbSize: nat)
      requires ram.Length == POOLSIZE && Shaped(image)
      ensures Valid() && View() == Init(Rows(image), ram[..], tlbSize)
      ensures fresh(privatePgTbl) && fresh(swapPool) && fresh(tlb) && flash == image && frames == ram
    {
      frames, flash := ram, image;
      privatePgTbl := new PteFields[UPROCMAX, MAXPAGES]((i, j) => PteFields(0, 0, 0, false, false));
      swapPool := new Swap[POOLSIZE](i => Swap(0, 0, Null));
      tlb := new Option<PteFields>[tlbSize](i => None);
      swapPoolSem, swapFrameClock := 0, 0;
      fault, crit, picks, up := map[], None, 0, {};
      new;
      InitSwapStructs();
      assert AsPageTables(Rows(privatePgTbl)) == AllInvalid();
      assert AsTags(swapPool[..]) == seq(POOLSIZE, i => None);
      assert AsTlb(tlb[..]) == seq(tlbSize, i => None);
    }

    /** `initSwapStructs`. */
    method InitSwapStructs()
      requires swapPool.Length == POOLSIZE
      modifies this`swapPoolSem, this`swapFrameClock, swapPool
      ensures swapPoolSem == 1 && swapFrameClock == 0
      ensures forall f :: 0 <= f < POOLSIZE ==> swapPool[f] == FreeFrame
    {
      swapPoolSem, swapFrameClock := 1, 0;
      for i := 0 to swapPool.Length
        invariant swapPoolSem == 1 && swapFrameClock == 0
        invariant forall j :: 0 <= j < i ==> swapPool[j] == FreeFrame
      {
        swapPool[i] := FreeFrame;
      }
    }

    /** `initPageTable`. */
    method InitPageTable(asid: nat)
      requires Shaped(privatePgTbl) && 1 <= asid <= UPROCMAX
      modifies privatePgTbl
      ensures Rows(privatePgTbl) == InitTable(old(Rows(privatePgTbl)), asid)
    {
      for i := 0 to MAXPAGES - 1
        invariant forall a, j :: 0 <= a < UPROCMAX && 0 <= j < MAXPAGES ==>
          privatePgTbl[a, j] == if a == asid - 1 && j < i then PteFields(0x80000 + j, asid, 0, true, false) else old(privatePgTbl[a, j])
      {
        privatePgTbl[asid - 1, i] := PteFields(0x80000 + i, asid, 0, true, false);
      }
      privatePgTbl[asid - 1, MAXPAGES - 1] := PteFields(0xBFFFF, asid, 0, true, false);
    }

    /** The launch of an ASID, whatever is left of its last run: its PTEs go off. */
    method LaunchUproc(asid: nat)
      requires Valid() && 1 <= asid <= UPROCMAX
      modifies privatePgTbl, this`up
      ensures Valid() && asid in up && View() == PagesOff(old(View()), asid)
    {
      ghost var t := Rows(privatePgTbl);
      LaunchIs(View(), t, asid, swapPool[..]);
      InitPageTable(asid);
      up := up + {asid};
    }

    /** TLBP and, when it finds the entry, TLBWI, for the PTE at (row, index). */
    method UpdateTLBEntry(row: nat, index: nat)
      requires Valid() && Launched(Rows(privatePgTbl), row + 1) && index < MAXPAGES
      modifies tlb
      ensures Valid() && View() == UpdateTlb(old(View()), Page(row + 1, index))
    {
      ghost var s, g := View(), Page(row + 1, index);
      for i := 0 to tlb.Length
        invariant tlb[..] == old(tlb[..])
        invariant Probe(s.tlb, g) >= i
      {
        ProbeCompares(tlb[i], g, privatePgTbl[row, index]);
        assert s.tlb[i] == AsTlbEntry(tlb[i]);
        if tlb[i].Some? && tlb[i].value.vpn == privatePgTbl[row, index].vpn && tlb[i].value.asid == privatePgTbl[row, index].asid {
          assert Probe(s.tlb, g) == i;
          TlbUpdate(tlb[..], i, privatePgTbl[row, index], g);
          tlb[i] := Some(privatePgTbl[row, index]);
          return;
        }
      }
    }

    /** `uTLB_RefillHandler` for a miss of the running process `asid` at address `a`; the slot
        TLBWR overwrites is arbitrary. The retry hits the entry written exactly if the program
        may use the address. */
    method RefillHandler(asid: nat, a: nat, slot: nat)
      requires Valid() && InTable(a) && Enabled(View(), Refill(Page(asid, PageOf(a)), slot))
      modifies tlb
      ensures Valid() && View() == Next(old(View()), Refill(Page(asid, PageOf(a)), slot))
      ensures tlb[slot].Some? && tlb[slot].value.asid == asid
      ensures tlb[slot].value.vpn == a / 0x1000 <==> 0x8000_0000 <= a < 0x8001_F000 || 0xBFFF_F000 <= a < 0xC000_0000
    {
      var vpn := a / 0x1000 % 0x40000;
      var pageIndex := if vpn == STACK_VPN then MAXPAGES - 1 else vpn;
      HandlersFindEntry(a);
      TlbUpdate(tlb[..], slot, privatePgTbl[asid - 1, pageIndex], Page(asid, pageIndex));
      tlb[slot] := Some(privatePgTbl[asid - 1, pageIndex]);
    }

    // ------------------------------------------------- pager(), between two interruptions

    /** P on swapPoolSem, when it does not block. */
    method Enter(asid: nat)
      requires Valid() && Enabled(View(), Event.Enter(asid))
      modifies this`swapPoolSem, this`crit
      ensures Valid() && View() == Next(old(View()), Event.Enter(asid)) && swapPoolSem == 0
      ensures crit == Some(Critical(fault[asid], PickVictim, 0))
    {
      swapPoolSem := swapPoolSem - 1;
      crit := Some(Critical(fault[asid], PickVictim, 0));
    }

    /** The choice of the victim. */
    method Select() returns (frameIndex: Frame)
      requires Valid() && crit.Some? && crit.value.pc.PickVictim?
      modifies this`swapFrameClock, this`crit, this`picks
      ensures Valid() && View() == PagerStep(old(View())) && frameIndex == old(swapFrameClock)
      ensures crit == Some(Critical(old(crit).value.page, if swapPool[frameIndex].sw_asid != -1 then ClearV else ReadIn, frameIndex))
    {
      frameIndex := swapFrameClock;
      swapFrameClock := (swapFrameClock + 1) % POOLSIZE;
      picks := picks + 1;
      crit := Some(Critical(crit.value.page, if swapPool[frameIndex].sw_asid != -1 then ClearV else ReadIn, frameIndex));
    }

    /** The PTE the frame's record points to goes off. */
    method Invalidate(f: Frame)
      requires Valid() && At(ClearV, f) && swapPool[f].sw_asid != -1
      modifies privatePgTbl, this`crit
      ensures Valid() && View() == PagerStep(old(View()))
      ensures crit == Some(old(crit).value.(pc := FlushTlb))
      ensures forall a: nat :: old(Launched(Rows(privatePgTbl), a)) ==> Launched(Rows(privatePgTbl), a)
    {
      hide *;
      Parts();
      AtIs(ClearV, f);
      TagIs(swapPool[..], f);
      ghost var t, s, g := Rows(privatePgTbl), View(), AsTag(swapPool[f]).value;
      PageIs(g);
      var oldPte := swapPool[f].sw_pte;
      InRows(privatePgTbl, g);
      var e := privatePgTbl[oldPte.row, oldPte.index].(valid := false);
      PtesUpdate(t, swapPool[..], g, e);
      ClearIs(s, t, g, e);
      SetEntry(oldPte.row, oldPte.index, e);
      crit := Some(crit.value.(pc := FlushTlb));
      Whole();
    }

    method SetEntry(row: nat, index: nat, e: PteFields)
      requires Shaped(privatePgTbl) && row < UPROCMAX && index < MAXPAGES
      modifies privatePgTbl
      ensures Rows(privatePgTbl) == old(Rows(privatePgTbl))[Page(row + 1, index) := e] && privatePgTbl[row, index] == e
    {
      privatePgTbl[row, index] := e;
    }

    /** Its copy in the TLB follows. */
    method FlushVictim(f: Frame)
      requires Valid() && At(FlushTlb, f) && swapPool[f].sw_asid != -1
      modifies tlb, this`crit
      ensures Valid() && View() == PagerStep(old(View()))
      ensures crit == Some(old(crit).value.(pc := WriteBack))
    {
      hide *;
      Parts();
      AtIs(FlushTlb, f);
      TagIs(swapPool[..], f);
      TagLaunched(Rows(privatePgTbl), swapPool[..], f);
      PageIs(AsTag(swapPool[f]).value);
      FlushIs(View(), AsTag(swapPool[f]).value);
      UpdateTLBEntry(swapPool[f].sw_pte.row, swapPool[f].sw_pte.index);
      Parts();
      crit := Some(crit.value.(pc := WriteBack));
      Whole();
    }

    /** `flashIO(oldAsid, oldPageNo, .., FLASHWRITE)`, at the moment the device copies the frame. */
    method WriteFlash(f: Frame)
      requires Valid() && At(WriteBack, f) && swapPool[f].sw_asid != -1
      modifies flash, this`crit
      ensures Valid() && View() == PagerStep(old(View()))
      ensures crit == Some(old(crit).value.(pc := ReadIn))
    {
      hide *;
      Parts();
      AtIs(WriteBack, f);
      TagIs(swapPool[..], f);
      ghost var s, g := View(), AsTag(swapPool[f]).value;
      PageIs(g);
      WriteIs(s, g);
      SetBlock(swapPool[f].sw_asid - 1, swapPool[f].sw_pageNo, frames[f]);
      crit := Some(crit.value.(pc := ReadIn));
      Whole();
    }

    method SetBlock(row: nat, index: nat, data: Data)
      requires Shaped(flash) && row < UPROCMAX && index < MAXPAGES
      modifies flash
      ensures Rows(flash) == old(Rows(flash))[Page(row + 1, index) := data]
    {
      flash[row, index] := data;
    }

    /** `flashIO(asid, index, .., FLASHREAD)`, at the moment the device fills the frame. */
    method ReadFlash(asid: nat, index: nat, f: Frame)
      requires Valid() && IsPage(Page(asid, index)) && crit == Some(Critical(Page(asid, index), ReadIn, f))
      modifies frames, this`crit
      ensures Valid() && View() == PagerStep(old(View()))
      ensures crit == Some(old(crit).value.(pc := Retag))
    {
      assert Block(Rows(flash), Page(asid, index)) == flash[asid - 1, index];
      frames[f] := flash[asid - 1, index];
      crit := Some(crit.value.(pc := Retag));
    }

    /** The record of the frame, with its pointer. */
    method RetagFrame(asid: nat, index: nat, f: Frame)
      requires Valid() && IsPage(Page(asid, index)) && Launched(Rows(privatePgTbl), asid)
      requires crit == Some(Critical(Page(asid, index), Retag, f))
      modifies swapPool, this`crit
      ensures Valid() && View() == PagerStep(old(View()))
      ensures crit == Some(old(crit).value.(pc := SetPte))
    {
      TagsUpdate(swapPool[..], f, Swap(asid, index, Entry(asid - 1, index)));
      swapPool[f] := Swap(asid, index, Entry(asid - 1, index));
      crit := Some(crit.value.(pc := SetPte));
      assert swapPool[..] == old(swapPool[..])[f := Swap(asid, index, Entry(asid - 1, index))];
    }

    method MapPage(asid: nat, index: nat, f: Frame)
      requires Valid() && IsPage(Page(asid, index)) && crit == Some(Critical(Page(asid, index), SetPte, f))
      modifies privatePgTbl, this`crit
      ensures Valid() && View() == PagerStep(old(View()))
      ensures crit == Some(old(crit).value.(pc := SyncTlb))
      ensures var e := privatePgTbl[asid - 1, index]; e.pfn * 0x1000 == 0x2002_0000 + f * 0x1000 && e.dirty && e.valid
      ensures forall a: nat :: old(Launched(Rows(privatePgTbl), a)) ==> Launched(Rows(privatePgTbl), a)
    {
      hide *;
      Parts();
      ghost var t, s, g := Rows(privatePgTbl), View(), Page(asid, index);
      PageIs(g);
      InRows(privatePgTbl, g);
      var e := privatePgTbl[asid - 1, index].(pfn := POOLSTART + f, dirty := true, valid := true);
      SetPteIs(s, g, e);
      PtesUpdate(t, swapPool[..], g, e);
      SetEntry(asid - 1, index, e);
      crit := Some(crit.value.(pc := SyncTlb));
      Whole();
    }

    method SyncPage(asid: nat, index: nat, f: Frame)
      requires Valid() && IsPage(Page(asid, index)) && Launched(Rows(privatePgTbl), asid)
      requires crit == Some(Critical(Page(asid, index), SyncTlb, f))
      modifies tlb, this`crit
      ensures Valid() && View() == PagerStep(old(View()))
      ensures crit == Some(old(crit).value.(pc := Unlock))
    {
      hide *;
      Parts();
      PageIs(Page(asid, index));
      SyncIs(View(), Page(asid, index));
      UpdateTLBEntry(asid - 1, index);
      Parts();
      crit := Some(crit.value.(pc := Unlock));
      Whole();
    }

    /** V on swapPoolSem; the process leaves the pager, back to its program or to its end. */
    method Leave(asid: nat)
      requires Valid() && crit.Some? && swapPoolSem == 0 && crit.value.page.asid == asid
      modifies this`swapPoolSem, this`crit, this`fault
      ensures Valid() && View() == Abandon(old(View())) && swapPoolSem == 1
    {
      swapPoolSem := swapPoolSem + 1;
      fault := fault - {asid};
      crit := None;
    }

    lemma AtIs(pc: Pc, f: Frame)
      ensures At(pc, f) <==> crit.Some? && crit.value.pc == pc && crit.value.frame == f
    {
    }

    lemma ViewCrit()
      requires Valid()
      ensures View().crit == crit
    {
    }

    lemma ViewTag()
      requires Valid()
      ensures View().tag[View().clock].Some? <==> swapPool[swapFrameClock].sw_asid != -1
    {
      SelectsTagged(swapPool[..], swapFrameClock);
    }

    /** The eviction, from the second step of the pager on. */
    method Evict(f: Frame, writeOk: bool, ghost s: VM)
      requires Valid() && At(ClearV, f) && swapPool[f].sw_asid != -1 && View() == Steps(s, 1)
      modifies privatePgTbl, flash, tlb, this`crit
      ensures Valid() && View() == Steps(s, if writeOk then 4 else 3)
      ensures crit == Some(old(crit).value.(pc := if writeOk then ReadIn else WriteBack))
      ensures forall a: nat :: old(Launched(Rows(privatePgTbl), a)) ==> Launched(Rows(privatePgTbl), a)
    {
      hide PagerStep, View, Valid, Launched;
      ViewCrit();
      StepsOnce(s, 1);
      Invalidate(f);
      ViewCrit();
      StepsOnce(s, 2);
      FlushVictim(f);
      if writeOk {
        ViewCrit();
        StepsOnce(s, 3);
        WriteFlash(f);
      }
    }

    /** The loading of the page, from step `n` of the pager on. */
    method LoadPage(asid: nat, index: nat, f: Frame, ghost s: VM, ghost n: nat)
      requires Valid() && IsPage(Page(asid, index)) && Launched(Rows(privatePgTbl), asid)
      requires crit == Some(Critical(Page(asid, index), ReadIn, f)) && View() == Steps(s, n)
      modifies privatePgTbl, swapPool, frames, tlb, this`crit
      ensures Valid() && View() == Steps(s, n + 4)
      ensures crit == Some(old(crit).value.(pc := Unlock))
    {
      hide PagerStep, View, Valid, Launched;
      ViewCrit();
      StepsOnce(s, n);
      ReadFlash(asid, index, f);
      ViewCrit();
      StepsOnce(s, n + 1);
      RetagFrame(asid, index, f);
      ViewCrit();
      StepsOnce(s, n + 2);
      MapPage(asid, index, f);
      ViewCrit();
      StepsOnce(s, n + 3);
      SyncPage(asid, index, f);
    }

    /** The end of the critical section: with the page, or because the flash failed. */
    method Finish(asid: nat, index: nat, f: Frame, ok: bool, ghost s: VM, ghost n: nat)
      requires Valid() && IsPage(Page(asid, index)) && Launched(Rows(privatePgTbl), asid) && swapPoolSem == 0
      requires crit.Some? && crit.value.page == Page(asid, index) && View() == Steps(s, n)
      requires ok ==> crit.value == Critical(Page(asid, index), ReadIn, f)
      modifies this`swapPoolSem, this`crit, this`fault, privatePgTbl, swapPool, frames, tlb
      ensures Valid() && swapPoolSem == 1
      ensures View() == if ok then Steps(s, n + 5) else Abandon(Steps(s, n))
    {
      hide PagerStep, View, Valid, Launched, Steps, Abandon;
      if ok {
        LoadPage(asid, index, f, s, n);
        ViewCrit();
        UnlockIs(s, n + 4);
      }
      Leave(asid);
    }

    /** The critical section. */
    method Replace(asid: nat, index: nat, writeOk: bool, readOk: bool) returns (died: bool)
      requires Valid() && crit == Some(Critical(Page(asid, index), PickVictim, 0)) && swapPoolSem == 0
      requires IsPage(Page(asid, index)) && Launched(Rows(privatePgTbl), asid)
      modifies this`swapPoolSem, this`swapFrameClock, this`crit, this`picks, this`fault, privatePgTbl, flash, swapPool, frames, tlb
      ensures Valid() && swapPoolSem == 1
      ensures (View(), died) == Replaced(old(View()), writeOk, readOk)
    {
      ghost var s := View();
      ViewTag();
      hide *;
      StepsOnce(s, 0);
      ViewCrit();
      var f := Select();
      var done;
      ghost var n;
      done, n := EmptyFrame(f, writeOk, s);
      died := !done || !readOk;
      ReplacedIs(s, writeOk, readOk, done, n);
      Finish(asid, index, f, !died, s, n);
    }

    /** The eviction, if the frame is occupied. */
    method EmptyFrame(f: Frame, writeOk: bool, ghost s: VM) returns (done: bool, ghost n: nat)
      requires Valid() && View() == Steps(s, 1) && crit.Some? && crit.value.frame == f
      requires crit.value.pc == if swapPool[f].sw_asid != -1 then ClearV else ReadIn
      modifies privatePgTbl, flash, tlb, this`crit
      ensures Valid() && View() == Steps(s, n)
      ensures done <==> swapPool[f].sw_asid == -1 || writeOk
      ensures n == if swapPool[f].sw_asid == -1 then 1 else if writeOk then 4 else 3
      ensures crit == Some(old(crit).value.(pc := if done then ReadIn else WriteBack))
      ensures forall a: nat :: old(Launched(Rows(privatePgTbl), a)) ==> Launched(Rows(privatePgTbl), a)
    {
      hide *;
      Parts();
      AtIs(ClearV, f);
      done, n := true, 1;
      if swapPool[f].sw_asid != -1 {
        Evict(f, writeOk, s);
        done, n := writeOk, if writeOk then 4 else 3;
      }
    }

    ghost predicate At(pc: Pc, f: Frame)
      reads this
    {
      crit.Some? && crit.value.pc == pc && crit.value.frame == f
    }

    /** `pager()` for the fault of `asid` at address `a`, when nobody interferes;
        `writeOk` and `readOk` tell whether the device answers FLASHREADY. The result says
        whether the process is terminated. */
    method Pager(asid: nat, excCode: int, a: nat, writeOk: bool, readOk: bool) returns (died: bool)
      requires Valid() && crit.None? && asid in up && InTable(a)
      requires asid in fault && fault[asid] == Page(asid, PageOf(a))
      modifies this, privatePgTbl, flash, swapPool, frames, tlb
      ensures Valid() && swapPoolSem == 1
      ensures (View(), died) == Served(old(View()), asid, excCode == 24, writeOk, readOk)
      ensures var s := old(View());
              && (died <==> excCode == 24 || (s.tag[s.clock].Some? && !writeOk) || !readOk)
              && (excCode == 24 ==> View() == s.(fault := s.fault - {asid}))
    {
      ghost var s := View();
      FatalIff(s, asid, excCode == 24, writeOk, readOk);
      assert EXC_MOD == 24;
      hide *;
      if excCode == EXC_MOD {
        fault := fault - {asid};
        return true;
      }
      Enter(asid);
      died := Replace(asid, PageOf(a), writeOk, readOk);
    }
  }

  /** `n` steps of the pager in a row. */
  function Steps(s: VM, n: nat): VM {
    if n == 0 then s
    else var t := Steps(s, n - 1); if t.crit.Some? then PagerStep(t) else t
  }

  lemma StepsOnce(s: VM, n: nat)
    ensures Steps(s, n).crit.Some? ==> Steps(s, n + 1) == PagerStep(Steps(s, n))
    ensures Steps(s, 0) == s
  {
  }

  lemma UnlockIs(s: VM, n: nat)
    requires Steps(s, n).crit.Some? && Steps(s, n).crit.value.pc.Unlock?
    ensures Steps(s, n + 1) == Abandon(Steps(s, n))
  {
  }

  /** The process in the critical section leaves it, wherever it is. */
  function Abandon(s: VM): VM {
    if s.crit.None? then s else s.(crit := None, fault := s.fault - {s.crit.value.page.asid})
  }

  /** The pager from P to V: with an eviction or without, as far as the flash allows. */
  function Replaced(e: VM, writeOk: bool, readOk: bool): (VM, bool) {
    var evicts := e.tag[e.clock].Some?;
    if evicts && !writeOk then (Abandon(Steps(e, 3)), true)
    else if !readOk then (Abandon(Steps(e, if evicts then 4 else 1)), true)
    else (Steps(e, if evicts then 9 else 6), false)
  }

  lemma ReplacedIs(e: VM, writeOk: bool, readOk: bool, done: bool, n: nat)
    requires done <==> e.tag[e.clock].None? || writeOk
    requires n == if e.tag[e.clock].None? then 1 else if writeOk then 4 else 3
    ensures Replaced(e, writeOk, readOk)
         == if done && readOk then (Steps(e, n + 5), false) else (Abandon(Steps(e, n)), true)
  {
  }

  function Served(s: VM, asid: nat, mod: bool, writeOk: bool, readOk: bool): (VM, bool)
    requires s.crit.None? && asid in s.fault
  {
    if mod then (s.(fault := s.fault - {asid}), true)
    else Replaced(Next(s, Event.Enter(asid)), writeOk, readOk)
  }

  /** A fault ends its process exactly if it is a TLB-Mod fault or a transfer fails, and a TLB-Mod
      fault changes nothing else. */
  lemma FatalIff(s: VM, asid: nat, mod: bool, writeOk: bool, readOk: bool)
    requires s.crit.None? && asid in s.fault
    ensures Served(s, asid, mod, writeOk, readOk).1 <==> mod || (s.tag[s.clock].Some? && !writeOk) || !readOk
    ensures mod ==> Served(s, asid, mod, writeOk, readOk).0 == s.(fault := s.fault - {asid})
  {
  }
}
