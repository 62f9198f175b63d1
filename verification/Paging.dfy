/**
 Demand paging (phase3/vmSupport.c with the refill handler of phase2/exception.c) as
 an interleaved step machine. The pager runs with interrupts on, so between any two of
 its steps other processes load, store, refill the TLB and take faults. Flash transfers
 succeed and take effect at one moment. A process faults on one page at a time and does
 nothing else until its pager returns.
 */
module Paging {
  import opened Processes

  /** The number of frames of the swap pool; symbolic. */
  const POOLSIZE: Positive

  type Frame = n: nat | n < POOLSIZE witness 0

  const MAXPAGES := 32

  /** A logical page of the address space of an ASID. */
  datatype Page = Page(asid: nat, no: nat)

  predicate IsPage(g: Page) { 1 <= g.asid <= UPROCMAX && g.no < MAXPAGES }

  /** The pages that have a PTE and a block on a flash device. */
  ghost function Pages(): (ps: set<Page>)
    ensures forall g :: g in ps <==> IsPage(g)
  {
    var ps := set a: nat, i: nat | 1 <= a <= UPROCMAX && i < MAXPAGES :: Page(a, i);
    assert forall g :: IsPage(g) ==> g == Page(g.asid, g.no);
    ps
  }

  /** Page tables before their first initialisation: zeroed memory. */
  ghost function AllInvalid(): map<Page, Pte> { map g | g in Pages() :: Pte(false, 0, false) }

  /** The contents of a page, word by word. */
  type Data = seq<int>

  /** The V bit, the frame and the D bit, without which the hardware refuses a store. */
  datatype Pte = Pte(valid: bool, frame: Frame, dirty: bool)

  datatype TlbEntry = TlbEntry(page: Page, pte: Pte)

  type Tlb = seq<Option<TlbEntry>>
  type Ram = t: seq<Data> | |t| == POOLSIZE witness seq(POOLSIZE, i => [])
  type Tags = t: seq<Option<Page>> | |t| == POOLSIZE witness seq(POOLSIZE, i => None)

  /** The next thing the pager inside the critical section will do. */
  datatype Pc = PickVictim | ClearV | FlushTlb | WriteBack | ReadIn | Retag | SetPte | SyncTlb | Unlock

  /** The pager that holds swapPoolSem, serving the fault on `page` with `frame`. */
  datatype Critical = Critical(page: Page, pc: Pc, frame: Frame)

  /** `fault` tells for each process inside the pager, waiting or not, what it faulted
      on; `picks` counts the victim selections since boot, `up` has the ASIDs launched so far. */
  datatype VM = VM(ram: Ram, flash: map<Page, Data>, pt: map<Page, Pte>, tlb: Tlb,
                   tag: Tags, clock: Frame, fault: map<nat, Page>, crit: Option<Critical>,
                   picks: nat, up: set<nat>)

  datatype Event =
    | Load(page: Page, off: nat, value: int)
    | Store(page: Page, off: nat, value: int)
    | Refill(page: Page, index: nat)
    | Fault(page: Page)
    | TlbMod(page: Page)
    | Enter(asid: nat)
    | Pager
    | Launch(asid: nat)

  // -------------------------------------------------------------------- lookups

  /** A PTE; what has none counts as invalid. */
  function PteOf(s: VM, g: Page): Pte {
    if g in s.pt then s.pt[g] else Pte(false, 0, false)
  }

  function Block(flash: map<Page, Data>, g: Page): Data {
    if g in flash then flash[g] else []
  }

  /** TLBP: the first entry for page `g`, or the length if there is none. */
  function Probe(tlb: Tlb, g: Page): (i: nat)
    ensures i <= |tlb|
    ensures i < |tlb| ==> tlb[i].Some? && tlb[i].value.page == g
    ensures forall j :: 0 <= j < i ==> !(tlb[j].Some? && tlb[j].value.page == g)
  {
    if tlb == [] || (tlb[0].Some? && tlb[0].value.page == g) then 0 else 1 + Probe(tlb[1..], g)
  }

  predicate Hit(s: VM, g: Page) { Probe(s.tlb, g) < |s.tlb| }

  function HitPte(s: VM, g: Page): Pte
    requires Hit(s, g)
  {
    s.tlb[Probe(s.tlb, g)].value.pte
  }

  /** `updateTLBEntry`: an entry for `g`, if cached, is overwritten with its PTE. */
  function UpdateTlb(s: VM, g: Page): VM {
    if Hit(s, g) then s.(tlb := s.tlb[Probe(s.tlb, g) := Some(TlbEntry(g, PteOf(s, g)))]) else s
  }

  // ---------------------------------------------------------------------- steps

  /** The frame that the next access of a user to `g` goes to. */
  predicate Mapped(s: VM, g: Page, off: nat) {
    g.asid !in s.fault && Hit(s, g) && HitPte(s, g).valid && off < |s.ram[HitPte(s, g).frame]|
  }

  predicate Enabled(s: VM, ev: Event) {
    match ev
    case Load(g, off, v) => Mapped(s, g, off) && v == s.ram[HitPte(s, g).frame][off]
    case Store(g, off, v) => Mapped(s, g, off) && HitPte(s, g).dirty
    case Refill(g, i) => Known(s, g) && g.asid !in s.fault && !Hit(s, g) && i < |s.tlb|
    case Fault(g) => g.asid !in s.fault && Hit(s, g) && !HitPte(s, g).valid
    // a store to a page without the D bit: the pager ends the process
    case TlbMod(g) => g.asid !in s.fault && Hit(s, g) && HitPte(s, g).valid && !HitPte(s, g).dirty
    case Enter(asid) => s.crit.None? && asid in s.fault
    case Pager => s.crit.Some?
    case Launch(asid) => 1 <= asid <= UPROCMAX && Clean(s, asid)
  }

  /** No frame carries this ASID and none of its processes is in the pager. */
  predicate Clean(s: VM, asid: nat) { asid !in s.fault && NoFrameOf(s, asid) }

  predicate NoFrameOf(s: VM, asid: nat) {
    forall f: Frame :: s.tag[f].Some? ==> s.tag[f].value.asid != asid
  }

  /** The page has a PTE that has been initialised. */
  predicate Known(s: VM, g: Page) { IsPage(g) && g.asid in s.up }

  /** `initPageTable`: V off and D on in every PTE of the ASID; frames, TLB and flash stay. */
  function PagesOff(s: VM, asid: nat): VM {
    s.(pt := map g | g in s.pt :: if g.asid == asid then Pte(false, 0, true) else s.pt[g], up := s.up + {asid})
  }

  /** One step of the pager in the critical section. */
  function PagerStep(s: VM): VM
    requires s.crit.Some?
  {
    var c := s.crit.value;
    var f, g := c.frame, c.page;
    match c.pc
    case PickVictim =>
      var v := s.clock;
      s.(clock := (s.clock + 1) % POOLSIZE, picks := s.picks + 1,
         crit := Some(Critical(g, if s.tag[v].Some? then ClearV else ReadIn, v)))
    case ClearV =>
      if s.tag[f].None? then s
      else At(s.(pt := s.pt[s.tag[f].value := PteOf(s, s.tag[f].value).(valid := false)]), FlushTlb)
    case FlushTlb =>
      if s.tag[f].None? then s else At(UpdateTlb(s, s.tag[f].value), WriteBack)
    case WriteBack =>
      if s.tag[f].None? then s else At(s.(flash := s.flash[s.tag[f].value := s.ram[f]]), ReadIn)
    case ReadIn => At(s.(ram := s.ram[f := Block(s.flash, g)]), Retag)
    case Retag => At(s.(tag := s.tag[f := Some(g)]), SetPte)
    case SetPte => At(s.(pt := s.pt[g := Pte(true, f, true)]), SyncTlb)
    case SyncTlb => At(UpdateTlb(s, g), Unlock)
    case Unlock => s.(crit := None, fault := s.fault - {g.asid})
  }

  function At(s: VM, pc: Pc): VM
    requires s.crit.Some?
  {
    s.(crit := Some(s.crit.value.(pc := pc)))
  }

  function Next(s: VM, ev: Event): VM
    requires Enabled(s, ev)
  {
    match ev
    case Load(g, off, v) => s
    case Store(g, off, v) =>
      var f := HitPte(s, g).frame;
      s.(ram := s.ram[f := s.ram[f][off := v]])
    case Refill(g, i) => s.(tlb := s.tlb[i := Some(TlbEntry(g, PteOf(s, g)))])
    case TlbMod(g) => s
    case Fault(g) => s.(fault := s.fault[g.asid := g])
    case Enter(asid) => s.(crit := Some(Critical(s.fault[asid], PickVictim, 0)))
    case Pager => PagerStep(s)
    case Launch(asid) => PagesOff(s, asid)
  }

  /** The state after `initSwapStructs`, with an empty TLB of `n` entries and the given
      contents of the flash devices. */
  ghost function Init(image: map<Page, Data>, ram: Ram, n: nat): VM {
    VM(ram, image, AllInvalid(), seq(n, i => None), seq(POOLSIZE, i => None), 0, map[], None, 0, {})
  }

  // ------------------------------------------------------------------ coherence

  /** The page whose valid PTE points to frame `f`. The frame the pager is working on
      has none between the clearing of the old PTE and the setting of the new one. */
  function Owner(s: VM, f: Frame): Option<Page> {
    if s.crit.Some? && s.crit.value.frame == f && !s.crit.value.pc.PickVictim?
       && !s.crit.value.pc.ClearV? && !s.crit.value.pc.SyncTlb? && !s.crit.value.pc.Unlock?
    then None else s.tag[f]
  }

  /** The pager is past the choice of the victim. */
  predicate Working(s: VM) { s.crit.Some? && !s.crit.value.pc.PickVictim? }

  ghost predicate PtesMatchFrames(s: VM) {
    && (forall f: Frame, g {:trigger Owner(s, f), PteOf(s, g)} :: Owner(s, f) == Some(g) ==> PteOf(s, g) == Pte(true, f, true))
    && (forall g :: PteOf(s, g).valid ==> Owner(s, PteOf(s, g).frame) == Some(g))
  }

  ghost predicate TagsDistinct(s: VM) {
    forall f: Frame, h: Frame :: s.tag[f].Some? && s.tag[f] == s.tag[h] ==> f == h
  }

  ghost predicate TlbUnique(tlb: Tlb) {
    forall i, j :: 0 <= i < j < |tlb| && tlb[i].Some? && tlb[j].Some? ==>
      tlb[i].value.page != tlb[j].value.page
  }

  /** Both are off, or they are equal. */
  predicate SameMapping(e: Pte, p: Pte) { e == p || (!e.valid && !p.valid) }

  /** What a TLB entry for `g` may say. It maps like the PTE, except that the victim's entry
      may be one step behind its PTE, and so may the entry of the page just loaded. */
  ghost predicate EntryAllowed(s: VM, g: Page, e: Pte) {
    if s.crit.Some? && s.crit.value.pc.FlushTlb? && s.tag[s.crit.value.frame] == Some(g)
    then SameMapping(e, PteOf(s, g)) || e == PteOf(s, g).(valid := true)
    else if s.crit.Some? && s.crit.value.pc.SyncTlb? && s.crit.value.page == g
    then !e.valid
    else SameMapping(e, PteOf(s, g))
  }

  ghost predicate TlbMatchesPtes(s: VM) {
    forall i :: 0 <= i < |s.tlb| && s.tlb[i].Some? ==>
      EntryAllowed(s, s.tlb[i].value.page, s.tlb[i].value.pte)
  }

  /** A process in the pager waits for a page that is not there yet. */
  ghost predicate FaultsPending(s: VM) {
    && (forall a :: a in s.fault ==> s.fault[a].asid == a)
    && (forall a :: a in s.fault ==>
          (PteOf(s, s.fault[a]).valid <==>
             s.crit.Some? && s.crit.value.page == s.fault[a] && (s.crit.value.pc.SyncTlb? || s.crit.value.pc.Unlock?)))
    && (s.crit.Some? ==> var g := s.crit.value.page; g.asid in s.fault && s.fault[g.asid] == g)
  }

  /** What the position of the pager says about its frame. */
  ghost predicate VictimKnown(s: VM) {
    s.crit.Some? ==>
      var c := s.crit.value;
      && (c.pc.ClearV? || c.pc.FlushTlb? || c.pc.WriteBack? ==> s.tag[c.frame].Some?)
      && (c.pc.FlushTlb? ==> PteOf(s, s.tag[c.frame].value).frame == c.frame)
      && (c.pc.SetPte? || c.pc.SyncTlb? || c.pc.Unlock? ==> s.tag[c.frame] == Some(c.page))
  }

  ghost predicate Coherent(s: VM) {
    && PtesMatchFrames(s) && TagsDistinct(s) && TlbUnique(s.tlb)
    && TlbMatchesPtes(s) && FaultsPending(s) && VictimKnown(s)
  }
}
