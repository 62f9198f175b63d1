/**
 Paging refines flat private memory: to its users the machine of module Paging is a
 memory in which every page keeps what was last stored in it.
 */
module PagingRefines {
  import opened Processes
  import opened Paging
  import opened PagingKeeps

  /** The page whose current contents are in frame `f`. During a replacement this is the
      old page until it has been written back, nothing until the new page has been read
      in, and the new page from then on - whatever PTE, TLB and tag say meanwhile. */
  function Holds(s: VM, f: Frame): Option<Page> {
    if s.crit.Some? && s.crit.value.frame == f && s.crit.value.pc.ReadIn? then None
    else if s.crit.Some? && s.crit.value.frame == f && s.crit.value.pc.Retag? then Some(s.crit.value.page)
    else s.tag[f]
  }

  /** The concrete state represents the flat memory `mem`. */
  ghost predicate Represents(s: VM, mem: map<Page, Data>) {
    && (forall f: Frame, g {:trigger Holds(s, f), Block(mem, g)} :: Holds(s, f) == Some(g) ==> Block(mem, g) == s.ram[f])
    && (forall g :: Absent(s, g) ==> Block(mem, g) == Block(s.flash, g))
  }

  ghost predicate Absent(s: VM, g: Page) {
    forall f: Frame :: Holds(s, f) != Some(g)
  }

  /** The flat memory after an event: only stores change it. */
  function Flat(mem: map<Page, Data>, ev: Event): map<Page, Data> {
    if ev.Store? && ev.off < |Block(mem, ev.page)|
    then mem[ev.page := Block(mem, ev.page)[ev.off := ev.value]]
    else mem
  }

  lemma HoldsUnique(s: VM, f: Frame, h: Frame)
    requires Coherent(s) && Holds(s, f).Some? && Holds(s, f) == Holds(s, h)
    ensures f == h
  {
    if s.crit.Some? && s.crit.value.pc.Retag? {
      ServedPageUntagged(s, f);
      ServedPageUntagged(s, h);
    }
  }

  /** Until the frame is retagged, no other frame carries the page being served. */
  lemma ServedPageUntagged(s: VM, f: Frame)
    requires Coherent(s) && s.crit.Some? && (s.crit.value.pc.ReadIn? || s.crit.value.pc.Retag?)
    ensures f != s.crit.value.frame ==> s.tag[f] != Some(s.crit.value.page)
  {
    ServedPageIsAbsent(s);
    assert Owner(s, f) != Some(s.crit.value.page);
  }

  /** A mapped access goes to the frame that holds the current contents of the page. */
  lemma MappedHolds(s: VM, g: Page, off: nat)
    requires Coherent(s) && Mapped(s, g, off)
    ensures Holds(s, HitPte(s, g).frame) == Some(g)
  {
    var i := Probe(s.tlb, g);
    var e := s.tlb[i].value.pte;
    assert EntryAllowed(s, g, e);
    if PteOf(s, g).valid {
      assert Owner(s, PteOf(s, g).frame) == Some(g);
    }
  }

  lemma LoadRefines(s: VM, mem: map<Page, Data>, g: Page, off: nat, v: int)
    requires Coherent(s) && Represents(s, mem) && Enabled(s, Load(g, off, v))
    ensures off < |Block(mem, g)| && v == Block(mem, g)[off]
  {
    MappedHolds(s, g, off);
  }

  lemma StoreRefines(s: VM, mem: map<Page, Data>, g: Page, off: nat, v: int)
    requires Coherent(s) && Represents(s, mem) && Enabled(s, Store(g, off, v))
    ensures off < |Block(mem, g)|
    ensures Represents(Next(s, Store(g, off, v)), Flat(mem, Store(g, off, v)))
  {
    var ev := Store(g, off, v);
    var t, mem' := Next(s, ev), Flat(mem, ev);
    MappedHolds(s, g, off);
    var f0 := HitPte(s, g).frame;
    assert Block(mem, g) == s.ram[f0];
    assert forall f: Frame :: Holds(t, f) == Holds(s, f);
    forall f: Frame, h | Holds(t, f) == Some(h) ensures Block(mem', h) == t.ram[f] {
      if h == g { HoldsUnique(s, f, f0); }
      assert Block(mem, h) == s.ram[f];
    }
    forall h | Absent(t, h) ensures Block(mem', h) == Block(t.flash, h) {
      assert Holds(t, f0) != Some(h);
      assert Absent(s, h);
    }
  }

  /** Steps that move no data. */
  lemma QuietRefines(s: VM, t: VM, mem: map<Page, Data>)
    requires Represents(s, mem) && t.ram == s.ram && t.flash == s.flash
    requires forall f: Frame :: Holds(t, f) == Holds(s, f)
    ensures Represents(t, mem)
  {
    forall g | Absent(t, g) ensures Absent(s, g) {
      forall f: Frame ensures Holds(s, f) != Some(g) { assert Holds(t, f) != Some(g); }
    }
  }

  lemma WriteBackRefines(s: VM, mem: map<Page, Data>)
    requires Coherent(s) && Represents(s, mem) && s.crit.Some? && s.crit.value.pc.WriteBack?
    ensures Represents(PagerStep(s), mem)
  {
    var t, f0 := PagerStep(s), s.crit.value.frame;
    var v := s.tag[f0].value;
    assert Holds(s, f0) == Some(v) && Block(mem, v) == s.ram[f0];
    assert forall f: Frame :: Holds(t, f) == if f == f0 then None else Holds(s, f);
    forall g | Absent(t, g) ensures Block(mem, g) == Block(t.flash, g) {
      if g != v {
        forall f: Frame ensures Holds(s, f) != Some(g) { assert Holds(t, f) != Some(g); }
        assert Absent(s, g);
      }
    }
  }

  lemma ReadInRefines(s: VM, mem: map<Page, Data>)
    requires Coherent(s) && Represents(s, mem) && s.crit.Some? && s.crit.value.pc.ReadIn?
    ensures Represents(PagerStep(s), mem)
  {
    var t, f0, p := PagerStep(s), s.crit.value.frame, s.crit.value.page;
    forall f: Frame ensures Holds(s, f) != Some(p) { ServedPageUntagged(s, f); }
    assert Absent(s, p);
    assert forall f: Frame :: Holds(t, f) == if f == f0 then Some(p) else Holds(s, f);
    forall g | Absent(t, g) ensures Block(mem, g) == Block(t.flash, g) {
      forall f: Frame ensures Holds(s, f) != Some(g) { assert Holds(t, f) != Some(g); }
      assert Absent(s, g);
    }
  }

  lemma PagerRefines(s: VM, mem: map<Page, Data>)
    requires Coherent(s) && Represents(s, mem) && s.crit.Some?
    ensures Represents(PagerStep(s), mem)
  {
    if s.crit.value.pc.WriteBack? {
      WriteBackRefines(s, mem);
    } else if s.crit.value.pc.ReadIn? {
      ReadInRefines(s, mem);
    } else {
      QuietStep(s);
      hide *;
      QuietRefines(s, PagerStep(s), mem);
    }
  }

  /** The other steps of the pager move no data. */
  lemma QuietStep(s: VM)
    requires Coherent(s) && s.crit.Some? && !s.crit.value.pc.WriteBack? && !s.crit.value.pc.ReadIn?
    ensures var t := PagerStep(s); t.ram == s.ram && t.flash == s.flash && forall f: Frame :: Holds(t, f) == Holds(s, f)
  {
    assert VictimKnown(s);
    hide Coherent, UpdateTlb;
    UpdateTlbFrame(s);
  }

  lemma UpdateTlbFrame(s: VM)
    ensures forall g :: var t := UpdateTlb(s, g); t == s.(tlb := t.tlb)
  {
  }

  /** One step: the flat memory moves along, and a load returns what it contains. */
  lemma StepRefines(s: VM, mem: map<Page, Data>, ev: Event)
    requires Coherent(s) && Represents(s, mem) && Enabled(s, ev)
    ensures Represents(Next(s, ev), Flat(mem, ev))
    ensures ev.Load? ==> ev.off < |Block(mem, ev.page)| && ev.value == Block(mem, ev.page)[ev.off]
    ensures ev.Store? ==> ev.off < |Block(mem, ev.page)|
  {
    match ev
    case Load(g, off, v) => LoadRefines(s, mem, g, off, v);
    case Store(g, off, v) => StoreRefines(s, mem, g, off, v);
    case Refill(g, i) => QuietRefines(s, Next(s, ev), mem);
    case TlbMod(g) =>
    case Fault(g) => QuietRefines(s, Next(s, ev), mem);
    case Enter(asid) => QuietRefines(s, Next(s, ev), mem);
    case Pager => PagerRefines(s, mem);
    case Launch(asid) => QuietRefines(s, Next(s, ev), mem);
  }

  // ------------------------------------------------------------------------ runs

  ghost predicate Legal(s: VM, evs: seq<Event>)
    decreases |evs|
  {
    evs == [] || (Enabled(s, evs[0]) && Legal(Next(s, evs[0]), evs[1..]))
  }

  ghost function Exec(s: VM, evs: seq<Event>): VM
    requires Legal(s, evs)
    decreases |evs|
  {
    if evs == [] then s else Exec(Next(s, evs[0]), evs[1..])
  }

  /** What the address holds after a history: the last store to it, or the original image. */
  function LastStored(image: map<Page, Data>, evs: seq<Event>, g: Page, off: nat): int
    requires off < |Block(image, g)|
    decreases |evs|
  {
    if evs == [] then Block(image, g)[off]
    else
      var ev := evs[|evs| - 1];
      if ev.Store? && ev.page == g && ev.off == off then ev.value
      else LastStored(image, evs[..|evs| - 1], g, off)
  }

  /** `mem` is the memory reached from `image` by the history `evs`. */
  ghost predicate Remembers(image: map<Page, Data>, evs: seq<Event>, mem: map<Page, Data>) {
    && (forall g :: |Block(mem, g)| == |Block(image, g)|)
    && (forall g, off: nat :: off < |Block(image, g)| ==>
          Block(mem, g)[off] == LastStored(image, evs, g, off))
  }

  lemma RemembersNext(image: map<Page, Data>, evs: seq<Event>, mem: map<Page, Data>, ev: Event)
    requires Remembers(image, evs, mem)
    requires ev.Store? ==> ev.off < |Block(mem, ev.page)|
    ensures Remembers(image, evs + [ev], Flat(mem, ev))
  {
    var mem' := Flat(mem, ev);
    assert (evs + [ev])[..|evs|] == evs;
    forall g ensures |Block(mem', g)| == |Block(image, g)| {
      assert |Block(mem, g)| == |Block(image, g)|;
    }
    forall g, off: nat | off < |Block(image, g)|
      ensures Block(mem', g)[off] == LastStored(image, evs + [ev], g, off)
    {
      assert |Block(mem, g)| == |Block(image, g)|;
      assert Block(mem, g)[off] == LastStored(image, evs, g, off);
    }
  }

  /** Every load of `rest` after the history `done` returns what that address holds. */
  ghost predicate LoadsRight(image: map<Page, Data>, done: seq<Event>, rest: seq<Event>) {
    forall i :: 0 <= i < |rest| && rest[i].Load? ==>
      && rest[i].off < |Block(image, rest[i].page)|
      && rest[i].value == LastStored(image, done + rest[..i], rest[i].page, rest[i].off)
  }

  lemma LoadsCons(image: map<Page, Data>, done: seq<Event>, ev: Event, tail: seq<Event>)
    requires LoadsRight(image, done + [ev], tail)
    requires ev.Load? ==> ev.off < |Block(image, ev.page)| && ev.value == LastStored(image, done, ev.page, ev.off)
    ensures LoadsRight(image, done, [ev] + tail)
  {
    hide LastStored, Block;
    var rest := [ev] + tail;
    forall i | 0 <= i < |rest| && rest[i].Load?
      ensures rest[i].off < |Block(image, rest[i].page)|
      ensures rest[i].value == LastStored(image, done + rest[..i], rest[i].page, rest[i].off)
    {
      if i == 0 {
        assert done + rest[..0] == done;
      } else {
        assert tail[i - 1] == rest[i];
        assert (done + [ev]) + tail[..i - 1] == done + rest[..i];
      }
    }
  }

  lemma LoadRemembers(image: map<Page, Data>, done: seq<Event>, mem: map<Page, Data>, ev: Event)
    requires Remembers(image, done, mem) && ev.Load?
    requires ev.off < |Block(mem, ev.page)| && ev.value == Block(mem, ev.page)[ev.off]
    ensures ev.off < |Block(image, ev.page)| && ev.value == LastStored(image, done, ev.page, ev.off)
  {
    hide LastStored, Block;
    assert |Block(mem, ev.page)| == |Block(image, ev.page)|;
  }

  /** All of `rest`, starting after the history `done`, behaves like flat memory. */
  lemma {:induction false} RunRefines(image: map<Page, Data>, done: seq<Event>, s: VM,
                                      mem: map<Page, Data>, rest: seq<Event>)
    requires Coherent(s) && Represents(s, mem) && Remembers(image, done, mem) && Legal(s, rest)
    ensures Coherent(Exec(s, rest)) && LoadsRight(image, done, rest)
    decreases |rest|
  {
    if rest != [] {
      var ev, tail := rest[0], rest[1..];
      hide Coherent, Represents, Remembers, Enabled, Next, LoadsRight, Flat, Block;
      StepKeeps(s, ev);
      StepRefines(s, mem, ev);
      RemembersNext(image, done, mem, ev);
      if ev.Load? { LoadRemembers(image, done, mem, ev); }
      RunRefines(image, done + [ev], Next(s, ev), Flat(mem, ev), tail);
      LoadsCons(image, done, ev, tail);
      assert rest == [ev] + tail;
    }
  }

  lemma InitCoherent(image: map<Page, Data>, ram: Ram, n: nat)
    ensures Coherent(Init(image, ram, n)) && Represents(Init(image, ram, n), image)
  {
  }

  /**
   Paging refines flat memory. In every interleaving of loads, stores, TLB refills with
   arbitrary replacement, faults, launches of clean ASIDs and pager steps, each load by an
   ASID returns the value of its last store to that address, or the original flash image.
   */
  lemma PagingIsFlatMemory(image: map<Page, Data>, ram: Ram, n: nat, evs: seq<Event>)
    requires Legal(Init(image, ram, n), evs)
    ensures forall i :: 0 <= i < |evs| && evs[i].Load? ==>
              && evs[i].off < |Block(image, evs[i].page)|
              && evs[i].value == LastStored(image, evs[..i], evs[i].page, evs[i].off)
    ensures Coherent(Exec(Init(image, ram, n), evs))
  {
    hide Coherent, Represents;
    InitCoherent(image, ram, n);
    assert Remembers(image, [], image);
    RunRefines(image, [], Init(image, ram, n), image, evs);
    forall i | 0 <= i < |evs| && evs[i].Load?
      ensures evs[i].off < |Block(image, evs[i].page)|
      ensures evs[i].value == LastStored(image, evs[..i], evs[i].page, evs[i].off)
    {
      assert [] + evs[..i] == evs[..i];
    }
  }

  // ------------------------------------------------------------------- the D bit

  lemma {:induction false} RunKeepsDirty(s: VM, evs: seq<Event>)
    requires DirtyOn(s) && Legal(s, evs)
    ensures DirtyOn(Exec(s, evs))
    decreases |evs|
  {
    hide DirtyOn, Enabled, Next;
    if evs != [] {
      DirtyStep(s, evs[0]);
      RunKeepsDirty(Next(s, evs[0]), evs[1..]);
    }
  }

  lemma InitDirty(image: map<Page, Data>, ram: Ram, n: nat)
    ensures DirtyOn(Init(image, ram, n))
  {
  }

  /** In every run from boot each PTE of a launched ASID and each TLB entry has its D bit, and
      no TLB-Mod fault is ever raised: a program can store wherever it can load. */
  lemma NoTlbMod(image: map<Page, Data>, ram: Ram, n: nat, evs: seq<Event>, g: Page, off: nat, v: int)
    requires Legal(Init(image, ram, n), evs)
    ensures var s := Exec(Init(image, ram, n), evs);
            && (IsPage(g) && g.asid in s.up ==> PteOf(s, g).dirty)
            && (forall i :: 0 <= i < |s.tlb| && s.tlb[i].Some? ==> s.tlb[i].value.pte.dirty)
            && !Enabled(s, TlbMod(g)) && (Mapped(s, g, off) ==> Enabled(s, Store(g, off, v)))
  {
    InitDirty(image, ram, n);
    RunKeepsDirty(Init(image, ram, n), evs);
    hide Exec, Legal;
    NoTlbModNow(Exec(Init(image, ram, n), evs), g, off, v);
  }

  // ------------------------------------------------------------ FIFO residency

  /** How many more selections there are before the one that takes frame `f`. */
  function TurnsLeft(s: VM, f: Frame): nat {
    if s.clock <= f then f - s.clock else f + POOLSIZE - s.clock
  }

  /** The k-th selection takes frame k mod POOLSIZE, and until the pool has been filled
      once only empty frames are taken. */
  ghost predicate Fifo(s: VM) {
    && s.clock == s.picks % POOLSIZE
    && (forall f: Frame :: s.picks <= f ==> s.tag[f].None?)
    && (Working(s) ==> s.crit.value.frame < s.picks && s.crit.value.frame == (s.picks - 1) % POOLSIZE)
    && (forall f: Frame :: f < s.picks && !(Working(s) && s.crit.value.frame == f) ==> s.tag[f].Some?)
  }

  lemma MulAtLeast(n: nat, d: int)
    ensures d >= 1 ==> n * d >= n
    ensures d <= -1 ==> n * d <= -(n as int)
  {
  }

  lemma DivUnique(k: nat, n: nat, q: nat, r: nat)
    requires n > 0 && r < n && k == n * q + r
    ensures k % n == r
  {
    var d := k / n - q;
    assert n * d == n * (k / n) - n * q;
    assert n * d == r - k % n;
    MulAtLeast(n, d);
    assert d == 0;
  }

  lemma ModNext(k: nat, n: nat)
    requires n > 0
    ensures (k + 1) % n == if k % n + 1 < n then k % n + 1 else 0
    ensures k < n ==> k % n == k
    ensures k % n <= k
  {
    var q, r := k / n, k % n;
    assert k == n * q + r;
    if r + 1 < n {
      DivUnique(k + 1, n, q, r + 1);
    } else {
      assert n * (q + 1) == n * q + n;
      DivUnique(k + 1, n, q + 1, 0);
    }
    if k < n { DivUnique(k, n, 0, k); }
  }

  lemma ModStep(k: nat)
    ensures (k + 1) % POOLSIZE == (k % POOLSIZE + 1) % POOLSIZE
    ensures k < POOLSIZE ==> k % POOLSIZE == k
    ensures k % POOLSIZE <= k
  {
    ModNext(k, POOLSIZE);
    if k % POOLSIZE + 1 < POOLSIZE {
      ModNext(k % POOLSIZE + 1, POOLSIZE);
    }
  }

  lemma FifoPick(s: VM)
    requires Fifo(s) && s.crit.Some? && s.crit.value.pc.PickVictim?
    ensures Fifo(PagerStep(s))
  {
    var t := PagerStep(s);
    ModStep(s.picks);
    assert t.clock == t.picks % POOLSIZE;
    assert t.crit.value.frame == s.picks % POOLSIZE;
    forall f: Frame | f < t.picks && t.crit.value.frame != f ensures t.tag[f].Some? {
      assert f < s.picks;
    }
    forall f: Frame | t.picks <= f ensures t.tag[f].None? { }
  }

  lemma FifoSame(s: VM, t: VM)
    requires Fifo(s) && t.clock == s.clock && t.picks == s.picks && t.tag == s.tag
    requires Working(t) <==> Working(s)
    requires Working(s) ==> t.crit.value.frame == s.crit.value.frame
    ensures Fifo(t)
  {
  }

  lemma FifoRetag(s: VM)
    requires Fifo(s) && s.crit.Some? && (s.crit.value.pc.Retag? || s.crit.value.pc.Unlock?) && VictimKnown(s)
    ensures Fifo(PagerStep(s))
  {
  }

  lemma FifoPager(s: VM)
    requires VictimKnown(s) && Fifo(s) && s.crit.Some?
    ensures Fifo(PagerStep(s))
  {
    match s.crit.value.pc
    case PickVictim => FifoPick(s);
    case Retag => FifoRetag(s);
    case Unlock => FifoRetag(s);
    case _ =>
      hide UpdateTlb;
      UpdateTlbFrame(s);
      FifoSame(s, PagerStep(s));
  }

  lemma FifoKeeps(s: VM, ev: Event)
    requires VictimKnown(s) && Fifo(s) && Enabled(s, ev)
    ensures Fifo(Next(s, ev))
  {
    if ev.Pager? {
      FifoPager(s);
    } else {
      FifoSame(s, Next(s, ev));
    }
  }

  /** The victim of the k-th selection is frame k mod POOLSIZE; a page is evicted from
      the POOLSIZE-th selection on, and never before. */
  lemma VictimIsFifo(s: VM)
    requires Fifo(s) && s.crit.Some? && s.crit.value.pc.PickVictim?
    ensures var t := PagerStep(s);
            && t.crit.value.frame == s.picks % POOLSIZE
            && (t.crit.value.pc.ClearV? <==> s.picks >= POOLSIZE)
            && (t.crit.value.pc.ReadIn? <==> s.picks < POOLSIZE)
  {
    ModStep(s.picks);
    var v: Frame := s.clock;
    if s.picks < POOLSIZE {
      assert s.tag[v].None?;
    } else {
      assert s.tag[v].Some?;
    }
  }

  /** FIFO order holds in every run from `initSwapStructs` on. */
  lemma {:induction false} RunIsFifo(s: VM, evs: seq<Event>)
    requires Coherent(s) && Fifo(s) && Legal(s, evs)
    ensures Coherent(Exec(s, evs)) && Fifo(Exec(s, evs))
    decreases |evs|
  {
    hide PtesMatchFrames, TagsDistinct, TlbUnique, TlbMatchesPtes, FaultsPending, VictimKnown, Fifo, Enabled, Next;
    if evs != [] {
      StepKeeps(s, evs[0]);
      FifoKeeps(s, evs[0]);
      RunIsFifo(Next(s, evs[0]), evs[1..]);
    }
  }

  lemma InitFifo(image: map<Page, Data>, ram: Ram, n: nat)
    ensures Fifo(Init(image, ram, n))
  {
  }

  /** The event is a victim selection. */
  predicate Selects(s: VM, ev: Event) {
    ev.Pager? && s.crit.Some? && s.crit.value.pc.PickVictim?
  }

  /** The number of victim selections in a run. */
  ghost function Selections(s: VM, evs: seq<Event>): nat
    requires Legal(s, evs)
    decreases |evs|
  {
    if evs == [] then 0
    else (if Selects(s, evs[0]) then 1 else 0) + Selections(Next(s, evs[0]), evs[1..])
  }

  lemma {:induction false} PicksCount(s: VM, evs: seq<Event>)
    requires Legal(s, evs)
    ensures Exec(s, evs).picks == s.picks + Selections(s, evs)
    decreases |evs|
  {
    hide Enabled, Next, Selects;
    if evs != [] {
      PicksStep(s, evs[0], 0);
      PicksCount(Next(s, evs[0]), evs[1..]);
    }
  }

  /** From `initSwapStructs` on, in every run: the selection with number k, counted from 0,
      takes frame k mod POOLSIZE, and it evicts a page exactly when k >= POOLSIZE. */
  lemma SelectionsAreFifo(image: map<Page, Data>, ram: Ram, n: nat, evs: seq<Event>)
    requires Legal(Init(image, ram, n), evs)
    requires Selects(Exec(Init(image, ram, n), evs), Pager)
    ensures var k, c := Selections(Init(image, ram, n), evs), Next(Exec(Init(image, ram, n), evs), Pager).crit;
            && c.Some? && c.value.frame == k % POOLSIZE
            && (c.value.pc.ClearV? <==> k >= POOLSIZE) && (c.value.pc.ReadIn? <==> k < POOLSIZE)
  {
    hide Coherent, Represents, Fifo;
    InitCoherent(image, ram, n);
    InitFifo(image, ram, n);
    RunIsFifo(Init(image, ram, n), evs);
    PicksCount(Init(image, ram, n), evs);
    VictimIsFifo(Exec(Init(image, ram, n), evs));
  }

  /** Page `g` is in frame `f` and has not been chosen for eviction. */
  ghost predicate Resident(s: VM, g: Page, f: Frame) {
    PteOf(s, g) == Pte(true, f, true) && !(s.crit.Some? && s.crit.value.pc.ClearV? && s.crit.value.frame == f)
  }

  /** Page `g` has been chosen, or its PTE is already off and nobody is bringing it back. */
  ghost predicate Leaving(s: VM, g: Page, f: Frame) {
    || (s.crit.Some? && s.crit.value.pc.ClearV? && s.crit.value.frame == f && s.tag[f] == Some(g))
    || (!PteOf(s, g).valid && (s.crit.Some? && s.crit.value.page == g ==> s.crit.value.pc.PickVictim?))
  }

  lemma ResidentTagged(s: VM, g: Page, f: Frame)
    requires Coherent(s) && Resident(s, g, f)
    ensures s.tag[f] == Some(g)
    ensures forall h: Frame :: s.tag[h] == Some(g) ==> h == f
    ensures s.crit.Some? && s.crit.value.page == g ==> s.crit.value.pc.SyncTlb? || s.crit.value.pc.Unlock?
  {
    assert Owner(s, f) == Some(g);
    if s.crit.Some? && s.crit.value.page == g {
      assert s.fault[g.asid] == g;
    }
  }

  lemma ResidentStays(s: VM, ev: Event, g: Page, f: Frame)
    requires Coherent(s) && Enabled(s, ev) && Resident(s, g, f)
    requires Selects(s, ev) ==> s.clock != f
    ensures Resident(Next(s, ev), g, f)
  {
    ResidentTagged(s, g, f);
    hide Coherent, UpdateTlb;
    if ev.Pager? { UpdateTlbFrame(s); }
  }

  lemma ResidentChosen(s: VM, ev: Event, g: Page, f: Frame)
    requires Coherent(s) && Enabled(s, ev) && Resident(s, g, f) && Selects(s, ev) && s.clock == f
    ensures Leaving(Next(s, ev), g, f)
  {
    ResidentTagged(s, g, f);
  }

  lemma LeavingStays(s: VM, ev: Event, g: Page, f: Frame)
    requires Coherent(s) && Enabled(s, ev) && Leaving(s, g, f) && !Selects(s, ev)
    ensures Leaving(Next(s, ev), g, f)
  {
    if s.crit.Some? && s.crit.value.pc.ClearV? && s.crit.value.frame == f && s.tag[f] == Some(g) {
      assert Owner(s, f) == Some(g) && PteOf(s, g).valid;
      assert s.crit.value.page != g by { assert s.fault[s.crit.value.page.asid] == s.crit.value.page; }
    }
    hide Coherent, UpdateTlb;
    if ev.Pager? { UpdateTlbFrame(s); }
  }

  lemma PicksStep(s: VM, ev: Event, f: Frame)
    requires Enabled(s, ev)
    ensures Next(s, ev).picks == s.picks + (if Selects(s, ev) then 1 else 0)
    ensures TurnsLeft(Next(s, ev), f) ==
              if !Selects(s, ev) then TurnsLeft(s, f)
              else if TurnsLeft(s, f) == 0 then POOLSIZE - 1 else TurnsLeft(s, f) - 1
    ensures TurnsLeft(s, f) == 0 <==> s.clock == f
  {
    if Selects(s, ev) {
      ModNext(s.clock, POOLSIZE);
      if s.clock + 1 == POOLSIZE { DivUnique(s.clock + 1, POOLSIZE, 1, 0); } else { ModNext(s.clock + 1, POOLSIZE); }
    } else if ev.Pager? {
      hide UpdateTlb;
      UpdateTlbFrame(s);
    }
  }

  lemma {:induction false} PicksGrow(s: VM, evs: seq<Event>)
    requires Legal(s, evs)
    ensures s.picks <= Exec(s, evs).picks
    decreases |evs|
  {
    hide Enabled, Next;
    if evs != [] {
      PicksStep(s, evs[0], 0);
      PicksGrow(Next(s, evs[0]), evs[1..]);
    }
  }

  lemma {:induction false} LeavingRun(s: VM, evs: seq<Event>, g: Page, f: Frame)
    requires Coherent(s) && Legal(s, evs) && Leaving(s, g, f) && Exec(s, evs).picks == s.picks
    ensures Leaving(Exec(s, evs), g, f)
    decreases |evs|
  {
    hide Coherent, Leaving, Enabled, Next;
    if evs != [] {
      PicksStep(s, evs[0], f);
      PicksGrow(Next(s, evs[0]), evs[1..]);
      LeavingStays(s, evs[0], g, f);
      StepKeeps(s, evs[0]);
      LeavingRun(Next(s, evs[0]), evs[1..], g, f);
    }
  }

  /**
   FIFO residency: a resident page keeps its valid PTE in every run that makes no more
   victim selections than there are frames before its own in clock order, and it is
   being evicted, or gone, as soon as there has been one more.
   */
  lemma {:induction false} Residency(s: VM, evs: seq<Event>, g: Page, f: Frame)
    requires Coherent(s) && Legal(s, evs) && Resident(s, g, f)
    ensures var n := Exec(s, evs).picks - s.picks;
            && (n <= TurnsLeft(s, f) ==> Resident(Exec(s, evs), g, f))
            && (n == TurnsLeft(s, f) + 1 ==> Leaving(Exec(s, evs), g, f))
    decreases |evs|
  {
    hide Coherent, Resident, Leaving, Enabled, Next;
    if evs != [] {
      var ev, t, rest := evs[0], Next(s, evs[0]), evs[1..];
      PicksStep(s, ev, f);
      PicksGrow(t, rest);
      StepKeeps(s, ev);
      if Selects(s, ev) && s.clock == f {
        ResidentChosen(s, ev, g, f);
        if Exec(t, rest).picks == t.picks {
          LeavingRun(t, rest, g, f);
        }
      } else {
        ResidentStays(s, ev, g, f);
        Residency(t, rest, g, f);
      }
    }
  }

  /** A page that has just been loaded has all the other frames before it in clock order:
      it survives POOLSIZE - 1 selections and falls to the POOLSIZE-th. */
  lemma JustLoaded(s: VM)
    requires Coherent(s) && Fifo(s) && s.crit.Some? && (s.crit.value.pc.SyncTlb? || s.crit.value.pc.Unlock?)
    ensures Resident(s, s.crit.value.page, s.crit.value.frame)
    ensures TurnsLeft(s, s.crit.value.frame) == POOLSIZE - 1
  {
    var c := s.crit.value;
    assert Owner(s, c.frame) == Some(c.page);
    ModNext(s.picks - 1, POOLSIZE);
  }
}
