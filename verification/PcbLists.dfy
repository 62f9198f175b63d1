/**
 phase1/pcb.c on the linked lists of module ListX: the PCB free list, the process queues
 and the tree links. A PCB owns a node in a process queue, a node in the child list of its
 parent and the head of its own child list. Every routine is proved to change exactly one
 list, as the sequence operations of ProcQueue and ProcTree say, and to leave all others alone.
 */
module PcbLists {
  import opened Processes
  import opened ProcQueue
  import opened ListX
  import Tree = ProcTree

  class Pcb {
    const slot: Proc
    const p_list: ListHead
    const p_child: ListHead
    const p_sib: ListHead
    var p_parent: Pcb?
    var p_semAdd: Addr
    var p_prio: int
    var p_pid: int
    var p_time: int
    var p_supportStruct: bool
    var p_s: Regs

    constructor (slot: Proc)
      ensures this.slot == slot && p_parent == null && p_pid == 0 && p_prio == 0 && p_semAdd == NULL
      ensures p_time == 0 && !p_supportStruct && p_s == Regs(0, 0)
      ensures p_list.kind == PList && p_list.slot == slot
      ensures p_child.kind == PChild && p_child.slot == slot
      ensures p_sib.kind == PSib && p_sib.slot == slot
      ensures fresh(p_list) && fresh(p_child) && fresh(p_sib)
    {
      this.slot := slot;
      p_list := new ListHead(PList, slot);
      p_child := new ListHead(PChild, slot);
      p_sib := new ListHead(PSib, slot);
      p_parent, p_semAdd, p_prio, p_pid, p_time, p_supportStruct := null, NULL, 0, 0, 0, false;
      p_s := Regs(0, 0);
    }
  }

  /** The heads whose lists run through the p_list fields. */
  predicate HoldsProcs(k: Kind) { k == QueueHead || k == SProcQ }

  /** Which nodes may stand in a list with which head. */
  predicate Fits(head: Kind, member: Kind) {
    || (HoldsProcs(head) && member == PList)
    || (head == PChild && member == PSib)
    || (head == SemdHead && member == SLink)
  }

  ghost predicate AllFit(rings: Rings) {
    forall h, x :: h in rings && x in rings[h] ==> Fits(h.kind, x.kind)
  }

  function SlotOf(x: ListHead): Proc {
    if x.slot < MAXPROC then x.slot else 0
  }

  ghost function Slots(s: seq<ListHead>): (r: seq<Proc>)
    ensures |r| == |s|
  {
    seq(|s|, i requires 0 <= i < |s| => SlotOf(s[i]))
  }

  /** The contents of every process queue, the free list included. */
  ghost function QueuesOf(rings: Rings): map<ListHead, seq<Proc>> {
    map h | h in rings && HoldsProcs(h.kind) :: Slots(rings[h])
  }

  /** The lists of semaphore descriptors. */
  ghost function LinksOf(rings: Rings): map<ListHead, seq<ListHead>> {
    map h | h in rings && h.kind == SemdHead :: rings[h]
  }

  /** The child-list heads that have been initialised. */
  ghost function HeadsOf(rings: Rings): set<ListHead> {
    set h | h in rings && h.kind == PChild
  }

  ghost function KidsOf(rings: Rings, h: ListHead): seq<Proc> {
    if h in rings then Slots(rings[h]) else []
  }

  /** In one list different members lie in different structures. */
  ghost predicate OneToOne(s: seq<ListHead>) {
    forall x, y :: x in s && y in s && SlotOf(x) == SlotOf(y) ==> x == y
  }

  lemma SlotsRemove(s: seq<ListHead>, x: ListHead)
    requires OneToOne(s) && x in s
    ensures Slots(Remove(s, x)) == Remove(Slots(s), SlotOf(x))
  {
    var i := IndexOf(s, x);
    var k := IndexOf(Slots(s), SlotOf(x));
    assert Slots(s)[i] == SlotOf(x) && k <= i;
    assert SlotOf(s[k]) == SlotOf(x) && s[k] in s;
    assert k == i;
    assert Slots(s[..i] + s[i + 1..]) == Slots(s)[..i] + Slots(s)[i + 1..];
  }

  lemma RemoveFirst(q: seq<Proc>)
    requires q != []
    ensures Remove(q, q[0]) == q[1..]
  {
  }

  lemma InsertAt(q: seq<Proc>, prio: Prios, p: Proc)
    ensures var i := Slot(q, prio, prio[p]); i <= |q| && Insert(q, prio, p) == q[..i] + [p] + q[i..]
    ensures q == [] ==> Slot(q, prio, prio[p]) == 0
  {
  }

  lemma EndsOf(h: ListHead, s: seq<ListHead>)
    ensures Before(h, s, 0) == h && |Slots(s)| == |s|
  {
  }

  /** A slot in the middle of a sorted walk is the one `insertProcQ` is looking for. */
  lemma SlotIs(q: seq<Proc>, prio: Prios, k: int, i: nat)
    requires i <= |q| && forall j :: 0 <= j < i ==> prio[q[j]] >= k
    requires i < |q| ==> prio[q[i]] < k
    ensures Slot(q, prio, k) == i
  {
  }

  // ----------------------------------------------- one list changes, no other does

  /** The same rings but for the ring of `h` and the node `x`. */
  ghost predicate OnlyRing(rings: Rings, r: Rings, h: ListHead, x: ListHead) {
    && h in rings && h in r && x.kind in {PList, PSib, SLink}
    && (forall k :: k in r && k != h && k != x ==> k in rings && r[k] == rings[k])
    && (forall k :: k in rings && k != h && k != x ==> k in r)
  }

  lemma OnlyQueue(rings: Rings, r: Rings, h: ListHead, x: ListHead)
    requires OnlyRing(rings, r, h, x)
    ensures QueuesOf(r) == if HoldsProcs(h.kind) then QueuesOf(rings)[h := Slots(r[h])] else QueuesOf(rings)
  {
    hide Slots;
  }

  lemma OnlyLinks(rings: Rings, r: Rings, h: ListHead, x: ListHead)
    requires OnlyRing(rings, r, h, x)
    ensures LinksOf(r) == if h.kind == SemdHead then LinksOf(rings)[h := r[h]] else LinksOf(rings)
  {
  }

  lemma OnlyKids(rings: Rings, r: Rings, h: ListHead, x: ListHead)
    requires OnlyRing(rings, r, h, x)
    ensures forall k: ListHead :: k.kind == PChild ==> KidsOf(r, k) == if k == h then Slots(r[h]) else KidsOf(rings, k)
  {
    hide Slots;
  }

  lemma OnlyHeads(rings: Rings, r: Rings, h: ListHead, x: ListHead)
    requires OnlyRing(rings, r, h, x)
    ensures HeadsOf(r) == HeadsOf(rings)
  {
  }

  lemma LinkinFits(rings: Rings, h: ListHead, i: nat, x: ListHead)
    requires h in rings && i <= |rings[h]| && AllFit(rings) && Fits(h.kind, x.kind)
    ensures AllFit(Linkin(rings, h, i, x)) && OnlyRing(rings, Linkin(rings, h, i, x), h, x)
  {
    forall y | y in rings[h][..i] + [x] + rings[h][i..] ensures y == x || y in rings[h] { }
  }

  lemma UnlinkFits(rings: Rings, h: ListHead, x: ListHead)
    requires h in rings && AllFit(rings) && Fits(h.kind, x.kind)
    ensures AllFit(Unlink(rings, h, x)) && OnlyRing(rings, Unlink(rings, h, x), h, x)
    ensures Unlink(rings, h, x)[h] == Remove(rings[h], x)
  {
    hide Remove;
    RemoveIn(rings[h], x);
  }

  lemma RemoveIn(s: seq<ListHead>, x: ListHead)
    ensures forall y :: y in Remove(s, x) ==> y in s
  {
  }

  lemma SlotsInsert(s: seq<ListHead>, i: nat, x: ListHead)
    requires i <= |s|
    ensures Slots(s[..i] + [x] + s[i..]) == Slots(s)[..i] + [SlotOf(x)] + Slots(s)[i..]
  {
  }

  lemma QueueLinkin(rings: Rings, h: ListHead, i: nat, x: ListHead)
    requires h in rings && i <= |rings[h]| && AllFit(rings) && HoldsProcs(h.kind) && x.kind == PList
    ensures var q := Slots(rings[h]);
            QueuesOf(Linkin(rings, h, i, x)) == QueuesOf(rings)[h := q[..i] + [SlotOf(x)] + q[i..]]
    ensures LinksOf(Linkin(rings, h, i, x)) == LinksOf(rings) && HeadsOf(Linkin(rings, h, i, x)) == HeadsOf(rings)
    ensures AllFit(Linkin(rings, h, i, x))
    ensures forall k: ListHead :: k.kind == PChild ==> KidsOf(Linkin(rings, h, i, x), k) == KidsOf(rings, k)
  {
    hide AllFit, OnlyRing, QueuesOf, LinksOf, HeadsOf, KidsOf, Slots;
    var r := Linkin(rings, h, i, x);
    LinkinFits(rings, h, i, x);
    OnlyQueue(rings, r, h, x);
    OnlyLinks(rings, r, h, x);
    OnlyHeads(rings, r, h, x);
    OnlyKids(rings, r, h, x);
    SlotsInsert(rings[h], i, x);
  }

  lemma QueueUnlink(rings: Rings, h: ListHead, x: ListHead)
    requires h in rings && x in rings[h] && OneToOne(rings[h]) && AllFit(rings) && HoldsProcs(h.kind) && x.kind == PList
    ensures QueuesOf(Unlink(rings, h, x)) == QueuesOf(rings)[h := Remove(Slots(rings[h]), SlotOf(x))]
    ensures LinksOf(Unlink(rings, h, x)) == LinksOf(rings) && HeadsOf(Unlink(rings, h, x)) == HeadsOf(rings)
    ensures AllFit(Unlink(rings, h, x))
    ensures forall k: ListHead :: k.kind == PChild ==> KidsOf(Unlink(rings, h, x), k) == KidsOf(rings, k)
  {
    hide AllFit, OnlyRing, QueuesOf, LinksOf, HeadsOf, KidsOf, Slots, Unlink, Remove;
    var r := Unlink(rings, h, x);
    UnlinkFits(rings, h, x);
    OnlyQueue(rings, r, h, x);
    OnlyLinks(rings, r, h, x);
    OnlyHeads(rings, r, h, x);
    OnlyKids(rings, r, h, x);
    SlotsRemove(rings[h], x);
  }

  lemma KidLinkin(rings: Rings, h: ListHead, x: ListHead)
    requires h in rings && AllFit(rings) && h.kind == PChild && x.kind == PSib
    ensures var r := Linkin(rings, h, |rings[h]|, x);
            && QueuesOf(r) == QueuesOf(rings) && AllFit(r)
            && LinksOf(r) == LinksOf(rings) && HeadsOf(r) == HeadsOf(rings)
            && forall k: ListHead :: k.kind == PChild ==>
                 KidsOf(r, k) == KidsOf(rings, k) + if k == h then [SlotOf(x)] else []
  {
    hide AllFit, OnlyRing, QueuesOf, LinksOf, HeadsOf, Slots;
    var s, r := rings[h], Linkin(rings, h, |rings[h]|, x);
    LinkinFits(rings, h, |s|, x);
    OnlyQueue(rings, r, h, x);
    OnlyLinks(rings, r, h, x);
    OnlyHeads(rings, r, h, x);
    OnlyKids(rings, r, h, x);
    SlotsInsert(s, |s|, x);
    assert Slots(s)[..|s|] + [SlotOf(x)] + Slots(s)[|s|..] == Slots(s) + [SlotOf(x)];
  }

  lemma KidUnlink(rings: Rings, h: ListHead, x: ListHead)
    requires h in rings && x in rings[h] && OneToOne(rings[h]) && AllFit(rings) && h.kind == PChild && x.kind == PSib
    ensures var r := Unlink(rings, h, x);
            && QueuesOf(r) == QueuesOf(rings) && AllFit(r)
            && LinksOf(r) == LinksOf(rings) && HeadsOf(r) == HeadsOf(rings)
            && forall k: ListHead :: k.kind == PChild ==>
                 KidsOf(r, k) == if k == h then Remove(KidsOf(rings, k), SlotOf(x)) else KidsOf(rings, k)
  {
    hide AllFit, OnlyRing, QueuesOf, LinksOf, HeadsOf, Slots, Unlink, Remove;
    var r := Unlink(rings, h, x);
    UnlinkFits(rings, h, x);
    OnlyQueue(rings, r, h, x);
    OnlyLinks(rings, r, h, x);
    OnlyHeads(rings, r, h, x);
    OnlyKids(rings, r, h, x);
    SlotsRemove(rings[h], x);
  }

  lemma InitViews(rings: Rings, x: ListHead)
    requires AllFit(rings) && (x in rings ==> rings[x] == [])
    ensures var r := rings[x := []];
            && AllFit(r) && QueuesOf(r) == (if HoldsProcs(x.kind) then QueuesOf(rings)[x := []] else QueuesOf(rings))
            && LinksOf(r) == (if x.kind == SemdHead then LinksOf(rings)[x := []] else LinksOf(rings))
            && HeadsOf(r) == (if x.kind == PChild then HeadsOf(rings) + {x} else HeadsOf(rings))
            && forall k: ListHead :: KidsOf(r, k) == KidsOf(rings, k)
  {
    hide QueuesOf, LinksOf;
    InitQueues(rings, x);
    InitLists(rings, x);
  }

  lemma InitQueues(rings: Rings, x: ListHead)
    ensures QueuesOf(rings[x := []]) == if HoldsProcs(x.kind) then QueuesOf(rings)[x := []] else QueuesOf(rings)
  {
    hide LinksOf;
    assert Slots([]) == [];
  }

  lemma InitLists(rings: Rings, x: ListHead)
    ensures LinksOf(rings[x := []]) == if x.kind == SemdHead then LinksOf(rings)[x := []] else LinksOf(rings)
  {
  }

  // ------------------------------------------------------------------------ pcb.c

  /** The parent pointers and the child lists say the same. */
  ghost predicate Families(table: seq<Pcb>, home: Homes)
    reads table`p_parent
  {
    forall c :: c in table ==>
      if c.p_parent == null then c.p_sib !in home
      else c.p_parent in table && c.p_sib in home && home[c.p_sib] == c.p_parent.p_child
  }

  /** Where the nodes of PCB number `p` are. */
  ghost predicate Within(c: Pcb, p: Proc, nodes: set<ListHead>) {
    && c.slot == p
    && c.p_list in nodes && c.p_list.kind == PList && c.p_list.slot == p
    && c.p_sib in nodes && c.p_sib.kind == PSib && c.p_sib.slot == p
    && c.p_child in nodes && c.p_child.kind == PChild && c.p_child.slot == p
  }

  /** A PCB as the loader leaves it. */
  ghost predicate Unused(c: Pcb)
    reads c
  {
    c.p_parent == null && c.p_pid == 0 && c.p_prio == 0 && c.p_semAdd == NULL && c.p_time == 0 && !c.p_supportStruct && c.p_s == Regs(0, 0)
  }

  class PcbTable {
    const mem: Memory
    const table: seq<Pcb>
    const pcbFree_h: ListHead
    var next_pid: int

    /** The static layout of memory, from which `container_of` gets its answers. */
    ghost predicate Layout() {
      && |table| == MAXPROC
      && pcbFree_h in mem.nodes && pcbFree_h.kind == QueueHead
      && (forall p: Proc :: Within(table[p], p, mem.nodes))
      && (forall x :: x in mem.nodes && x.kind == PList ==> x.slot < MAXPROC && table[x.slot].p_list == x)
      && (forall x :: x in mem.nodes && x.kind == PSib ==> x.slot < MAXPROC && table[x.slot].p_sib == x)
    }

    /** A free PCB has neither parent nor children. */
    ghost predicate FreeAreBare(rings: Rings)
      requires Layout()
      reads table`p_parent
    {
      pcbFree_h in rings &&
      forall p :: p in Slots(rings[pcbFree_h]) ==> Bare(rings, table[p])
    }

    ghost predicate Bare(rings: Rings, p: Pcb)
      reads p`p_parent
    {
      p.p_parent == null && KidsOf(rings, p.p_child) == []
    }

    ghost predicate Valid()
      reads mem, mem.nodes, table`p_parent
    {
      && Layout() && mem.Valid() && AllFit(mem.rings)
      && Families(table, mem.home) && FreeAreBare(mem.rings)
    }

    ghost function Queues(): map<ListHead, seq<Proc>>
      reads mem
    {
      QueuesOf(mem.rings)
    }

    ghost function Links(): map<ListHead, seq<ListHead>>
      reads mem
    {
      LinksOf(mem.rings)
    }

    /** The child-list heads of all PCBs that were ever allocated. */
    ghost function Heads(): set<ListHead>
      reads mem
    {
      HeadsOf(mem.rings)
    }

    ghost function QueuedIn(home: Homes): set<Proc>
      requires Layout()
    {
      set p: Proc | table[p].p_list in home
    }

    /** The PCBs that stand in some process queue or in the free list. */
    ghost function Queued(): set<Proc>
      requires Layout()
      reads mem
    {
      QueuedIn(mem.home)
    }

    ghost function FreeList(): seq<Proc>
      requires Valid()
      reads mem, mem.nodes, table`p_parent
    {
      Queues()[pcbFree_h]
    }

    ghost function PriosBelow(n: nat): (r: seq<int>)
      requires Layout() && n <= MAXPROC
      ensures |r| == n && forall p :: 0 <= p < n ==> r[p] == table[p].p_prio
      reads table`p_prio
    {
      if n == 0 then [] else PriosBelow(n - 1) + [table[n - 1].p_prio]
    }

    ghost function Prio(): (r: Prios)
      requires Layout()
      ensures forall p: Proc :: r[p] == table[p].p_prio
      reads table`p_prio
    {
      PriosBelow(MAXPROC)
    }

    ghost function SemAddsBelow(n: nat): (r: seq<Addr>)
      requires Layout() && n <= MAXPROC
      ensures |r| == n && forall p :: 0 <= p < n ==> r[p] == table[p].p_semAdd
      reads table`p_semAdd
    {
      if n == 0 then [] else SemAddsBelow(n - 1) + [table[n - 1].p_semAdd]
    }

    ghost function SemAdds(): (r: seq<Addr>)
      requires Layout()
      ensures |r| == MAXPROC && forall p: Proc :: r[p] == table[p].p_semAdd
      reads table`p_semAdd
    {
      SemAddsBelow(MAXPROC)
    }

    ghost function DataOf(c: Pcb): PcbData
      reads c`p_time, c`p_supportStruct, c`p_s
    {
      PcbData(c.p_time, c.p_supportStruct, c.p_s)
    }

    ghost function DataBelow(n: nat): (r: seq<PcbData>)
      requires Layout() && n <= MAXPROC
      ensures |r| == n && forall p :: 0 <= p < n ==> r[p] == DataOf(table[p])
      reads table`p_time, table`p_supportStruct, table`p_s
    {
      if n == 0 then [] else DataBelow(n - 1) + [DataOf(table[n - 1])]
    }

    /** The fields that are neither links nor scheduling data. */
    ghost function Data(): (r: seq<PcbData>)
      requires Layout()
      ensures |r| == MAXPROC && forall p: Proc :: r[p] == DataOf(table[p])
      reads table`p_time, table`p_supportStruct, table`p_s
    {
      DataBelow(MAXPROC)
    }

    ghost function NodeOf(c: Pcb): Tree.Node
      reads mem, c`p_parent, c`p_pid
    {
      Tree.Node(if c.p_parent == null then None else Some(c.p_parent.slot), KidsOf(mem.rings, c.p_child), c.p_pid)
    }

    ghost function NodesBelow(n: nat): (r: seq<Tree.Node>)
      requires Layout() && n <= MAXPROC
      ensures |r| == n && forall p :: 0 <= p < n ==> r[p] == NodeOf(table[p])
      reads mem, table`p_parent, table`p_pid
    {
      if n == 0 then [] else NodesBelow(n - 1) + [NodeOf(table[n - 1])]
    }

    /** The process tree; rootProcess is not known to pcb.c, so its place holds 0. */
    ghost function Forest(): Tree.Forest
      requires Layout()
      reads this, mem, table`p_parent, table`p_pid
    {
      Tree.Forest(NodesBelow(MAXPROC), 0, next_pid)
    }

    // ------------------------------------------------------------- consequences

    lemma MembersFit(h: ListHead)
      requires mem.Valid() && AllFit(mem.rings) && h in mem.rings
      ensures forall x :: x in mem.rings[h] ==> x in mem.nodes && Fits(h.kind, x.kind)
    {
      mem.RingOf(h);
      hide WellFormed, NoDup, Fits;
      var s := mem.rings[h];
      forall x | x in s ensures x in mem.nodes {
        assert s[IndexOf(s, x)] in mem.nodes;
      }
    }

    lemma QueueMembers(h: ListHead)
      requires Layout() && mem.Valid() && AllFit(mem.rings) && h in mem.rings && HoldsProcs(h.kind)
      ensures OneToOne(mem.rings[h])
      ensures forall x :: x in mem.rings[h] ==> x.slot < MAXPROC && x == table[x.slot].p_list
      ensures forall i :: 0 <= i < |mem.rings[h]| ==> mem.rings[h][i] == table[Slots(mem.rings[h])[i]].p_list
    {
      hide WellFormed, AllFit;
      MembersFit(h);
      var s := mem.rings[h];
      forall x | x in s ensures x.slot < MAXPROC && x == table[x.slot].p_list { }
      forall i | 0 <= i < |s| ensures s[i] == table[Slots(s)[i]].p_list {
        assert s[i] in s;
      }
    }

    lemma KidMembers(h: ListHead)
      requires Layout() && mem.Valid() && AllFit(mem.rings) && h in mem.rings && h.kind == PChild
      ensures OneToOne(mem.rings[h])
      ensures forall x :: x in mem.rings[h] ==> x.slot < MAXPROC && x == table[x.slot].p_sib
    {
      hide WellFormed, AllFit;
      MembersFit(h);
      forall x | x in mem.rings[h] ensures x.slot < MAXPROC && x == table[x.slot].p_sib { }
    }

    /** A PCB may be linked into a queue exactly when it stands in none. */
    lemma LooseIff(p: Pcb)
      requires Valid() && p in table
      ensures Loose(mem.rings, mem.home, p.p_list) <==> p.slot !in Queued()
    {
      hide WellFormed, AllFit, Families, FreeAreBare;
      PcbAt(p);
      NoMembersOf(p.p_list);
    }

    lemma QueuedMore(home: Homes, x: ListHead, h: ListHead)
      requires Layout() && mem.home == home[x := h] && x in mem.nodes
      ensures Queued() == if x.kind == PList then QueuedIn(home) + {SlotOf(x)} else QueuedIn(home)
    {
      forall p: Proc ensures Within(table[p], p, mem.nodes) { }
    }

    lemma QueuedLess(home: Homes, x: ListHead)
      requires Layout() && mem.home == home - {x} && x in mem.nodes
      ensures Queued() == if x.kind == PList then QueuedIn(home) - {SlotOf(x)} else QueuedIn(home)
    {
      forall p: Proc ensures Within(table[p], p, mem.nodes) { }
    }

    lemma QueuedHasHome(p: Pcb, h: ListHead)
      requires Valid() && p in table && h in Queues() && p.slot in Queues()[h]
      ensures p.p_list in mem.home
    {
      PcbAt(p);
      QueueMembers(h);
      mem.RingOf(h);
      hide WellFormed, AllFit;
      var i := IndexOf(Queues()[h], p.slot);
      assert mem.rings[h][i] == p.p_list;
    }

    lemma PcbAt(p: Pcb)
      requires Layout() && p in table
      ensures p == table[p.slot] && Within(p, p.slot, mem.nodes)
    {
      var i := IndexOf(table, p);
      assert Within(table[i], i, mem.nodes);
    }

    /** Nothing is ever linked behind a node that is not a list head. */
    lemma NoMembersOf(h: ListHead)
      requires AllFit(mem.rings) && h.kind in {PList, PSib, SLink}
      ensures h in mem.rings ==> mem.rings[h] == []
    {
      if h in mem.rings && mem.rings[h] != [] { FirstFits(h); }
    }

    lemma FirstFits(h: ListHead)
      requires AllFit(mem.rings) && h in mem.rings && mem.rings[h] != []
      ensures Fits(h.kind, mem.rings[h][0].kind)
    {
      assert mem.rings[h][0] in mem.rings[h];
    }

    // ---------------------------------------------------------------- routines

    /** The static storage of pcb.c, next to whatever other list heads there are. */
    constructor (ghost heads: set<ListHead>)
      requires forall x :: x in heads ==> x.kind !in {PList, PSib, PChild}
      ensures Layout() && mem.Valid() && heads <= mem.nodes && mem.rings == map[] && mem.home == map[]
      ensures fresh(mem) && fresh(mem.nodes - heads) && pcbFree_h !in heads && (forall c :: c in table ==> fresh(c) && Unused(c))
      ensures next_pid == 1 && forall x :: x in mem.nodes - heads ==> x.kind in {PList, PSib, PChild, QueueHead}
    {
      hide *;
      ghost var nodes;
      var t;
      t, nodes := Allocate(heads);
      var h := new ListHead(QueueHead, 0);
      pcbFree_h := h;
      mem := new Memory(nodes + {h});
      table, next_pid := t, 1;
      new;
      LaidOut(nodes);
    }

    lemma LaidOut(nodes: set<ListHead>)
      requires |table| == MAXPROC && forall p: Proc :: Within(table[p], p, nodes)
      requires mem.nodes == nodes + {pcbFree_h} && pcbFree_h.kind == QueueHead
      requires forall x :: x in nodes && x.kind in {PList, PSib, PChild} ==> x.slot < MAXPROC
      requires forall x :: x in nodes && x.kind == PList ==> x.slot < MAXPROC && table[x.slot].p_list == x
      requires forall x :: x in nodes && x.kind == PSib ==> x.slot < MAXPROC && table[x.slot].p_sib == x
      ensures Layout()
    {
      forall p: Proc ensures Within(table[p], p, mem.nodes) { assert Within(table[p], p, nodes); }
    }

    static method Allocate(ghost heads: set<ListHead>) returns (t: seq<Pcb>, ghost nodes: set<ListHead>)
      requires forall x :: x in heads ==> x.kind !in {PList, PSib, PChild}
      ensures |t| == MAXPROC && heads <= nodes && fresh(nodes - heads)
      ensures forall p: Proc :: fresh(t[p]) && Unused(t[p]) && Within(t[p], p, nodes)
      ensures forall c :: c in t ==> fresh(c) && Unused(c)
      ensures forall x :: x in nodes - heads ==> x.kind in {PList, PSib, PChild}
      ensures forall x :: x in nodes && x.kind in {PList, PSib, PChild} ==> x.slot < MAXPROC
      ensures forall x :: x in nodes && x.kind == PList ==> t[x.slot].p_list == x
      ensures forall x :: x in nodes && x.kind == PSib ==> t[x.slot].p_sib == x
    {
      t, nodes := [], heads;
      while |t| < MAXPROC
        invariant |t| <= MAXPROC
        invariant heads <= nodes && fresh(nodes - heads)
        invariant forall p: Proc :: p < |t| ==> fresh(t[p]) && Unused(t[p]) && Within(t[p], p, nodes)
        invariant forall x :: x in nodes - heads ==> x.kind in {PList, PSib, PChild}
        invariant forall x :: x in nodes && x.kind in {PList, PSib, PChild} ==> x.slot < |t|
        invariant forall x :: x in nodes && x.kind == PList ==> t[x.slot].p_list == x
        invariant forall x :: x in nodes && x.kind == PSib ==> t[x.slot].p_sib == x
      {
        var c := new Pcb(|t|);
        nodes := nodes + {c.p_list, c.p_child, c.p_sib};
        t := t + [c];
      }
    }

    /** `initPcbs`. */
    method InitPcbs()
      requires Layout() && mem.Valid() && mem.rings == map[] && mem.home == map[]
      requires forall c :: c in table ==> c.p_parent == null
      modifies mem, mem.nodes
      ensures Valid() && Queues() == map[pcbFree_h := FreeSlots(MAXPROC)]
      ensures mem.rings.Keys == {pcbFree_h} && Heads() == {} && forall y :: y in mem.home ==> y.kind == PList
    {
      hide WellFormed, QueuesOf;
      mem.InitListHead(pcbFree_h);
      for x := 0 to MAXPROC
        invariant mem.Valid() && FreeListOf(mem.rings, mem.home, x)
      {
        var c := table[x];
        assert Within(c, x, mem.nodes);
        FreeListGrows(mem.rings, mem.home, x, c.p_list);
        mem.ListAdd(c.p_list, pcbFree_h, pcbFree_h, 0);
      }
      FreeListDone(mem.rings, mem.home);
    }

    /** The first `n` PCBs are linked in, and nothing else is. */
    ghost predicate FreeListOf(rings: Rings, home: Homes, n: nat)
      requires n <= MAXPROC
    {
      && AllFit(rings) && rings.Keys == {pcbFree_h}
      && Slots(rings[pcbFree_h]) == FreeSlots(n)
      && forall y :: y in home ==> y.kind == PList && y.slot < n
    }

    lemma NextFree(n: Proc)
      ensures [n] + FreeSlots(n) == FreeSlots(n + 1)
    {
    }

    lemma FreeListGrows(rings: Rings, home: Homes, n: Proc, x: ListHead)
      requires FreeListOf(rings, home, n) && x.kind == PList && x.slot == n && pcbFree_h.kind == QueueHead
      ensures FreeListOf(Linkin(rings, pcbFree_h, 0, x), home[x := pcbFree_h], n + 1)
      ensures Loose(rings, home, x) && x != pcbFree_h
    {
      hide QueuesOf, LinksOf, KidsOf, FreeSlots;
      QueueLinkin(rings, pcbFree_h, 0, x);
      var s := rings[pcbFree_h];
      SlotsInsert(s, 0, x);
      NextFree(n);
      assert FreeSlots(n)[..0] + [SlotOf(x)] + FreeSlots(n)[0..] == [n] + FreeSlots(n);
    }

    lemma FreeListDone(rings: Rings, home: Homes)
      requires Layout() && FreeListOf(rings, home, MAXPROC)
      requires forall c :: c in table ==> c.p_parent == null
      ensures Families(table, home) && FreeAreBare(rings)
      ensures QueuesOf(rings) == map[pcbFree_h := FreeSlots(MAXPROC)]
    {
      forall c | c in table ensures c.p_sib.kind == PSib && c.p_child.kind == PChild { PcbAt(c); }
    }

    lemma ForestSame(rings: Rings)
      requires Layout()
      requires forall k: ListHead :: k.kind == PChild ==> KidsOf(mem.rings, k) == KidsOf(rings, k)
      ensures forall p: Proc :: KidsOf(mem.rings, table[p].p_child) == KidsOf(rings, table[p].p_child)
    {
      forall p: Proc ensures table[p].p_child.kind == PChild { assert Within(table[p], p, mem.nodes); }
    }

    /** What holds after a process queue has changed. */
    lemma QueueChanged(home: Homes)
      requires Layout() && mem.Valid() && AllFit(mem.rings)
      requires Families(table, home) && FreeAreBare(mem.rings)
      requires forall x: ListHead :: x.kind == PSib ==> (x in mem.home <==> x in home) && (x in home ==> mem.home[x] == home[x])
      ensures Valid()
    {
      forall c | c in table ensures c.p_sib.kind == PSib { PcbAt(c); }
    }

    lemma FreeSame(rings: Rings)
      requires Layout() && FreeAreBare(rings)
      requires pcbFree_h in mem.rings && mem.rings[pcbFree_h] == rings[pcbFree_h]
      requires forall k: ListHead :: k.kind == PChild ==> KidsOf(mem.rings, k) == KidsOf(rings, k)
      ensures FreeAreBare(mem.rings)
    {
      ForestSame(rings);
    }

    /** Linking `p` in front of member number `i` of the process queue of `head`. */
    method LinkProc(p: Pcb, prev: ListHead, next: ListHead, ghost head: ListHead, ghost i: nat)
      requires Valid() && head in mem.rings && HoldsProcs(head.kind) && head != pcbFree_h
      requires p in table && Loose(mem.rings, mem.home, p.p_list)
      requires i <= |mem.rings[head]| && prev == Before(head, mem.rings[head], i) && next == Nth(head, mem.rings[head], i)
      modifies mem, mem.nodes
      ensures Valid() && Forest() == old(Forest()) && Links() == old(Links()) && Heads() == old(Heads())
      ensures var q := old(Slots(mem.rings[head])); Queues() == old(Queues())[head := q[..i] + [p.slot] + q[i..]]
      ensures mem.home == old(mem.home)[p.p_list := head] && Queued() == old(Queued()) + {p.slot}
    {
      hide WellFormed, AllFit, QueuesOf, LinksOf, HeadsOf, Families, Forest;
      ghost var f := Forest();
      ForestsAt();
      ghost var rings, home := mem.rings, mem.home;
      PcbAt(p);
      mem.PlaceOf(head, i);
      QueueLinkin(rings, head, i, p.p_list);
      mem.AddBetween(p.p_list, prev, next, head, i);
      assert mem.rings == Linkin(rings, head, i, p.p_list);
      FreeSame(rings);
      QueuedMore(home, p.p_list, head);
      QueueChanged(home);
      ForestSame(rings);
      ForestIs(f);
    }

    lemma QueueAt(h: ListHead)
      requires h in mem.rings && HoldsProcs(h.kind)
      ensures h in Queues() && Queues()[h] == Slots(mem.rings[h])
    {
    }

    /** The walk of `insertProcQ`: the first process of lower priority, or the head. */
    method FirstLower(head: ListHead, k: int) returns (pos: ListHead, ghost i: nat)
      requires Valid() && head in mem.rings && HoldsProcs(head.kind)
      ensures i <= |mem.rings[head]| && i == Slot(Slots(mem.rings[head]), Prio(), k)
      ensures pos == Nth(head, mem.rings[head], Slot(Slots(mem.rings[head]), Prio(), k))
    {
      hide WellFormed, AllFit, Families, FreeAreBare, NoDup;
      ghost var s := mem.rings[head];
      QueueMembers(head);
      mem.RingOf(head);
      pos, i := head.next, 0;
      while pos != head
        invariant i <= |s| && pos == Nth(head, s, i)
        invariant forall j :: 0 <= j < i ==> Prio()[Slots(s)[j]] >= k
        decreases |s| - i
      {
        var current := table[pos.slot];
        if k > current.p_prio {
          break;
        }
        pos, i := pos.next, i + 1;
      }
      SlotIs(Slots(s), Prio(), k, i);
    }

    /** `insertProcQ`. */
    method InsertProcQ(head: ListHead, p: Pcb)
      requires Valid() && head in mem.rings && HoldsProcs(head.kind) && head != pcbFree_h
      requires p in table && Loose(mem.rings, mem.home, p.p_list)
      modifies mem, mem.nodes
      ensures Valid() && Forest() == old(Forest()) && Links() == old(Links()) && Heads() == old(Heads())
      ensures Queues() == old(Queues()[head := Insert(Queues()[head], Prio(), p.slot)])
      ensures mem.home == old(mem.home)[p.p_list := head] && Queued() == old(Queued()) + {p.slot}
    {
      hide *;
      Laid();
      QueueAt(head);
      InsertAt(Slots(mem.rings[head]), Prio(), p.slot);
      PrioAt(p);
      EndsOf(head, mem.rings[head]);
      var empty := mem.ListEmpty(head);
      if empty {
        mem.PlaceOf(head, 0);
        LinkProc(p, head, head.next, head, 0);
      } else {
        ghost var i;
        var pos;
        pos, i := FirstLower(head, p.p_prio);
        mem.PlaceOf(head, i);
        LinkProc(p, pos.prev, pos, head, i);
      }
    }

    lemma PrioAt(p: Pcb)
      requires Layout() && p in table
      ensures Prio()[p.slot] == p.p_prio
    {
      PcbAt(p);
    }

    method EmptyProcQ(head: ListHead) returns (empty: bool)
      requires Valid() && head in mem.rings && HoldsProcs(head.kind)
      ensures empty <==> Queues()[head] == []
    {
      empty := mem.ListEmpty(head);
    }

    /** `mkEmptyProcQ`. */
    method MkEmptyProcQ(head: ListHead)
      requires Valid() && head in mem.nodes && HoldsProcs(head.kind) && head != pcbFree_h
      requires Loose(mem.rings, mem.home, head)
      modifies mem, head
      ensures Valid() && Forest() == old(Forest()) && Links() == old(Links()) && Heads() == old(Heads())
      ensures Queues() == old(Queues())[head := []] && mem.home == old(mem.home) && Queued() == old(Queued())
    {
      hide WellFormed, AllFit, QueuesOf, LinksOf, HeadsOf, Families, Forest;
      ghost var f := Forest();
      ForestsAt();
      ghost var rings, home := mem.rings, mem.home;
      InitViews(rings, head);
      mem.InitListHead(head);
      assert mem.rings == rings[head := []];
      FreeSame(rings);
      QueueChanged(home);
      ForestSame(rings);
      ForestIs(f);
    }

    /** `headProcQ`. */
    method HeadProcQ(head: ListHead) returns (p: Pcb?)
      requires Valid() && head in mem.rings && HoldsProcs(head.kind)
      ensures var q := Queues()[head]; p == if q == [] then null else table[q[0]]
    {
      hide WellFormed, AllFit, Families, FreeAreBare, NoDup;
      QueueMembers(head);
      mem.RingOf(head);
      var empty := mem.ListEmpty(head);
      if empty {
        p := null;
      } else {
        p := table[head.next.slot];
      }
    }

    lemma FreeFewer(rings: Rings, h: ListHead, x: ListHead)
      requires Layout() && FreeAreBare(rings) && h in rings && x != pcbFree_h && mem.rings == Unlink(rings, h, x)
      requires forall k: ListHead :: k.kind == PChild ==> KidsOf(mem.rings, k) == KidsOf(rings, k)
      ensures FreeAreBare(mem.rings)
    {
      ForestSame(rings);
      RemoveIn(rings[h], x);
      var s, r := rings[pcbFree_h], mem.rings[pcbFree_h];
      forall p | p in Slots(r) ensures p in Slots(s) {
        var i := IndexOf(Slots(r), p);
        assert r[i] in r;
        assert r[i] in s;
        assert Slots(s)[IndexOf(s, r[i])] == p;
      }
    }

    /** Taking member number `i` out of the process queue of `head`. */
    method UnlinkProc(x: ListHead, ghost head: ListHead, ghost i: nat)
      requires Valid() && head in mem.rings && HoldsProcs(head.kind)
      requires i < |mem.rings[head]| && x == mem.rings[head][i]
      modifies mem, mem.nodes
      ensures Valid() && Forest() == old(Forest()) && Links() == old(Links()) && Heads() == old(Heads())
      ensures var q := old(Slots(mem.rings[head])); Queues() == old(Queues())[head := Remove(q, SlotOf(x))]
      ensures mem.home == old(mem.home) - {x} && Queued() == old(Queued()) - {SlotOf(x)}
    {
      hide WellFormed, AllFit, QueuesOf, LinksOf, HeadsOf, Families, Forest;
      ghost var f := Forest();
      ForestsAt();
      ghost var rings, home := mem.rings, mem.home;
      QueueMembers(head);
      MembersFit(head);
      assert x in rings[head];
      QueueUnlink(rings, head, x);
      mem.ListDel(x, head, i);
      assert mem.rings == Unlink(rings, head, x);
      FreeFewer(rings, head, x);
      QueueChanged(home);
      QueuedLess(home, x);
      ForestSame(rings);
      ForestIs(f);
    }

    /** `removeProcQ`. */
    method RemoveProcQ(head: ListHead) returns (p: Pcb?)
      requires Valid() && head in mem.rings && HoldsProcs(head.kind) && head != pcbFree_h
      modifies mem, mem.nodes
      ensures Valid() && Forest() == old(Forest()) && Links() == old(Links()) && Heads() == old(Heads())
      ensures var q := old(Queues()[head]);
              if q == [] then p == null && Queues() == old(Queues()) && Queued() == old(Queued())
              else p == table[q[0]] && Queues() == old(Queues())[head := q[1..]] && mem.home == old(mem.home) - {p.p_list}
                   && Queued() == old(Queued()) - {p.slot} && p in table
    {
      hide WellFormed, AllFit, Families, FreeAreBare, NoDup, QueuesOf, LinksOf, HeadsOf, QueuedIn, Forest;
      QueueAt(head);
      QueueMembers(head);
      mem.PlaceOf(head, 0);
      var empty := mem.ListEmpty(head);
      if empty {
        p := null;
      } else {
        var first := head.next;
        UnlinkProc(first, head, 0);
        p := table[first.slot];
        RemoveFirst(old(Queues()[head]));
      }
    }

    /** `outProcQ`. */
    method OutProcQ(head: ListHead, p: Pcb?) returns (out: Pcb?)
      requires Valid() && head in mem.rings && HoldsProcs(head.kind) && head != pcbFree_h
      requires p != null ==> p in table
      modifies mem, mem.nodes
      ensures Valid() && Forest() == old(Forest()) && Links() == old(Links()) && Heads() == old(Heads())
      ensures var q := old(Queues()[head]);
              if p != null && p.slot in q
              then out == p && Queues() == old(Queues())[head := Remove(q, p.slot)] && mem.home == old(mem.home) - {p.p_list}
                   && Queued() == old(Queued()) - {p.slot}
              else out == null && Queues() == old(Queues()) && mem.home == old(mem.home) && Queued() == old(Queued())
    {
      hide WellFormed, AllFit, Families, FreeAreBare, NoDup, QueuesOf, LinksOf, HeadsOf, QueuedIn, Forest;
      ghost var s := mem.rings[head];
      QueueAt(head);
      QueueMembers(head);
      mem.RingOf(head);
      var empty := mem.ListEmpty(head);
      if empty {
        return null;
      }
      var pos: ListHead := head.next;
      ghost var i := 0;
      while pos != head
        invariant i <= |s| && pos == Nth(head, s, i)
        invariant forall j :: 0 <= j < i ==> table[Slots(s)[j]] != p
        decreases |s| - i
      {
        var current := table[pos.slot];
        if current == p {
          UnlinkProc(p.p_list, head, i);
          return p;
        }
        pos, i := pos.next, i + 1;
      }
      out := null;
    }

    /** `freePcb`. */
    method FreePcb(p: Pcb)
      requires Valid() && p in table && Loose(mem.rings, mem.home, p.p_list) && Bare(mem.rings, p)
      modifies mem, mem.nodes
      ensures Valid() && Forest() == old(Forest()) && Links() == old(Links()) && Heads() == old(Heads())
      ensures Queues() == old(Queues()[pcbFree_h := [p.slot] + Queues()[pcbFree_h]])
      ensures mem.home == old(mem.home)[p.p_list := pcbFree_h] && Queued() == old(Queued()) + {p.slot}
    {
      hide WellFormed, AllFit, QueuesOf, LinksOf, HeadsOf, Families, Forest;
      ghost var f := Forest();
      ForestsAt();
      ghost var rings, home := mem.rings, mem.home;
      ghost var q := Slots(rings[pcbFree_h]);
      PcbAt(p);
      QueueAt(pcbFree_h);
      QueueLinkin(rings, pcbFree_h, 0, p.p_list);
      mem.ListAdd(p.p_list, pcbFree_h, pcbFree_h, 0);
      assert mem.rings == Linkin(rings, pcbFree_h, 0, p.p_list);
      QueuedMore(home, p.p_list, pcbFree_h);
      ForestSame(rings);
      ForestIs(f);
      assert q[..0] + [p.slot] + q[0..] == [p.slot] + q;
      QueueAt(pcbFree_h);
      assert FreeAreBare(mem.rings);
      QueueChanged(home);
    }

    lemma FirstOnce(s: seq<ListHead>)
      requires OneToOne(s) && NoDup(s) && s != []
      ensures Slots(s)[0] !in Slots(s)[1..]
    {
      forall i | 1 <= i < |s| ensures Slots(s)[i] != Slots(s)[0] {
        assert s[0] in s && s[i] in s;
      }
    }

    lemma HeadIsLoose(x: ListHead)
      requires mem.Valid() && AllFit(mem.rings) && x.kind !in {PList, PSib, SLink}
      ensures x !in mem.home
    {
      if x in mem.home {
        ghost var h := mem.home[x];
        assert h in mem.rings && x in mem.rings[h];
        NotFitting(h, x);
      }
    }

    lemma NotFitting(h: ListHead, x: ListHead)
      requires AllFit(mem.rings) && h in mem.rings && x in mem.rings[h]
      ensures x.kind in {PList, PSib, SLink}
    {
      assert Fits(h.kind, x.kind);
    }

    /** The two empty lists every allocated PCB starts with. */
    method InitLinks(p: Pcb)
      requires Valid() && p in table && Bare(mem.rings, p)
      modifies mem, mem.nodes
      ensures Valid() && Forest() == old(Forest()) && Queues() == old(Queues())
      ensures mem.home == old(mem.home) && p.p_child in mem.rings
      ensures Links() == old(Links()) && Heads() == old(Heads()) + {p.p_child}
    {
      hide WellFormed, AllFit, QueuesOf, LinksOf, HeadsOf, Families, FreeAreBare, KidsOf;
      PcbAt(p);
      KidsEmpty(mem.rings, p.p_child);
      HeadIsLoose(p.p_child);
      InitNode(p.p_child);
      NoMembersOf(p.p_sib);
      NoParent(p);
      InitNode(p.p_sib);
    }

    lemma NoParent(p: Pcb)
      requires Valid() && p in table && p.p_parent == null
      ensures p.p_sib !in mem.home
    {
    }

    /** `INIT_LIST_HEAD` on a node of a PCB. */
    method InitNode(x: ListHead)
      requires Valid() && x in mem.nodes && x.kind in {PChild, PSib} && Loose(mem.rings, mem.home, x)
      modifies mem`rings, x
      ensures Valid() && Forest() == old(Forest()) && Queues() == old(Queues())
      ensures mem.rings == old(mem.rings)[x := []] && Links() == old(Links())
      ensures Heads() == if x.kind == PChild then old(Heads()) + {x} else old(Heads())
    {
      hide WellFormed, AllFit, QueuesOf, LinksOf, HeadsOf, Families, Forest;
      ghost var f := Forest();
      ForestsAt();
      ghost var rings := mem.rings;
      InitViews(rings, x);
      mem.InitListHead(x);
      ForestSame(rings);
      ForestIs(f);
      FreeSame(rings);
      QueueChanged(mem.home);
    }

    lemma KidsEmpty(rings: Rings, h: ListHead)
      requires KidsOf(rings, h) == []
      ensures h in rings ==> rings[h] == []
    {
    }

    lemma ForestsAt()
      requires Layout()
      ensures forall p: Proc :: Forest().t[p] == NodeOf(table[p])
      ensures Forest().root == 0 && Forest().next == next_pid
    {
    }

    lemma ForestIs(f: Tree.Forest)
      requires Layout() && f.root == 0 && f.next == next_pid
      requires forall p: Proc :: f.t[p] == NodeOf(table[p])
      ensures Forest() == f
    {
    }

    lemma PrioIs(prio: Prios)
      requires Layout() && forall p: Proc :: prio[p] == table[p].p_prio
      ensures Prio() == prio
    {
    }

    lemma DataIs(data: seq<PcbData>)
      requires Layout() && |data| == MAXPROC && forall p: Proc :: data[p] == DataOf(table[p])
      ensures Data() == data
    {
    }

    lemma SemAddsAre(adds: seq<Addr>)
      requires Layout() && |adds| == MAXPROC && forall p: Proc :: adds[p] == table[p].p_semAdd
      ensures SemAdds() == adds
    {
    }

    lemma QueueMissing(h: ListHead)
      requires mem.Valid() && AllFit(mem.rings) && HoldsProcs(h.kind) && h !in Queues()
      ensures Loose(mem.rings, mem.home, h)
    {
      HeadIsLoose(h);
    }

    /** The tree before the first allocation. */
    lemma NoTree()
      requires Layout() && Heads() == {} && next_pid == 1 && forall c :: c in table ==> Unused(c)
      ensures Forest() == Tree.Forest(seq(MAXPROC, i => Tree.Node(None, [], 0)), 0, 1)
      ensures Prio() == seq(MAXPROC, i => 0) && SemAdds() == seq(MAXPROC, i => NULL) && Data() == seq(MAXPROC, i => NoData)
    {
      hide Forest, Prio, SemAdds, Data;
      forall p: Proc ensures Unused(table[p]) && table[p].p_child !in mem.rings {
        assert Within(table[p], p, mem.nodes) && table[p] in table;
        assert table[p].p_child !in Heads();
      }
      ForestIs(Tree.Forest(seq(MAXPROC, i => Tree.Node(None, [], 0)), 0, 1));
      PrioIs(seq(MAXPROC, i => 0));
      SemAddsAre(seq(MAXPROC, i => NULL));
      DataIs(seq(MAXPROC, i => NoData));
    }

    lemma KidsHeadThere(p: Pcb)
      requires p.p_child in Heads()
      ensures p.p_child in mem.rings
    {
    }

    /** Who is in a queue or in the free list is queued. */
    lemma MembersQueued(h: ListHead)
      requires Valid() && h in Queues()
      ensures forall p: Proc :: p in Queues()[h] ==> p in Queued()
    {
      hide WellFormed, AllFit, Families, FreeAreBare, QueuesOf;
      forall p: Proc | p in Queues()[h] ensures p in Queued() {
        assert Within(table[p], p, mem.nodes);
        QueuedHasHome(table[p], h);
      }
    }

    lemma PcbsDiffer(p: Pcb)
      requires Layout() && p in table
      ensures forall x: Proc :: table[x] == p <==> x == p.slot
    {
      PcbAt(p);
      forall x: Proc ensures table[x] == p <==> x == p.slot { assert Within(table[x], x, mem.nodes); }
    }

    method ClearParent(p: Pcb)
      requires Valid() && p in table && p.p_parent == null
      modifies p`p_parent
      ensures Valid() && Forest() == old(Forest()) && p.p_parent == null
    {
      hide WellFormed, AllFit, Forest, QueuesOf;
      ghost var f := Forest();
      ForestsAt();
      p.p_parent := null;
      ForestIs(f);
    }

    /** The scheduling fields at the start of a process's life. */
    method InitSchedule(p: Pcb)
      requires Valid() && p in table
      modifies p`p_s, p`p_time, p`p_semAdd, p`p_supportStruct, p`p_prio
      ensures Valid() && Forest() == old(Forest()) && Prio() == old(Prio())[p.slot := 0]
      ensures SemAdds() == old(SemAdds())[p.slot := NULL] && Data() == old(Data())[p.slot := NoData]
    {
      hide WellFormed, AllFit, Forest, Prio, SemAdds, Data, Families, FreeAreBare, QueuesOf;
      ghost var prio, adds, data := Prio(), SemAdds(), Data();
      PcbsDiffer(p);
      p.p_s := Regs(0, 0);
      p.p_time := 0;
      p.p_semAdd := NULL;
      p.p_supportStruct := false;
      p.p_prio := 0;
      PrioIs(prio[p.slot := 0]);
      SemAddsAre(adds[p.slot := NULL]);
      DataIs(data[p.slot := NoData]);
    }

    method InitPid(p: Pcb)
      requires Valid() && p in table && Bare(mem.rings, p)
      modifies this`next_pid, p`p_pid
      ensures Valid() && Forest() == Tree.Spawn(old(Forest()), p.slot)
    {
      hide WellFormed, AllFit, Forest, Prio, Families, FreeAreBare, QueuesOf;
      ghost var f := Forest();
      PcbsDiffer(p);
      ForestsAt();
      p.p_pid := next_pid;
      next_pid := next_pid + 1;
      ForestIs(Tree.Spawn(f, p.slot));
    }

    /** The `list_del` in `allocPcb`. */
    method PopFree() returns (p: Pcb)
      requires Valid() && FreeList() != []
      modifies mem, mem.nodes
      ensures Valid() && Forest() == old(Forest()) && Links() == old(Links()) && Heads() == old(Heads())
      ensures p == table[old(FreeList())[0]] && Bare(mem.rings, p) && mem.home == old(mem.home) - {p.p_list}
      ensures Queues() == old(Queues()[pcbFree_h := FreeList()[1..]]) && p.slot !in FreeList()
      ensures Queued() == old(Queued()) - {p.slot}
    {
      hide WellFormed, AllFit, QueuesOf, LinksOf, HeadsOf, QueuedIn, Families, Forest, Prio, SemAdds, Data, KidsOf;
      ghost var q := FreeList();
      QueueAt(pcbFree_h);
      FirstIsBare();
      mem.PlaceOf(pcbFree_h, 0);
      var first := pcbFree_h.next;
      RemoveFirst(q);
      p := table[first.slot];
      BareIff(p);
      UnlinkProc(first, pcbFree_h, 0);
      BareIff(p);
    }

    /** `allocPcb` when there is a free PCB. */
    method TakePcb() returns (p: Pcb)
      requires Valid() && FreeList() != []
      modifies this`next_pid, mem, mem.nodes, table[FreeList()[0]]
      ensures Valid()
      ensures p == table[old(FreeList())[0]]
      ensures Queues() == old(Queues()[pcbFree_h := FreeList()[1..]]) && p.slot !in FreeList()
      ensures Forest() == Tree.Spawn(old(Forest()), p.slot)
      ensures Prio() == old(Prio())[p.slot := 0]
      ensures mem.home == old(mem.home) - {p.p_list} && p.p_child in mem.rings
      ensures Links() == old(Links()) && Heads() == old(Heads()) + {p.p_child} && Queued() == old(Queued()) - {p.slot}
      ensures SemAdds() == old(SemAdds())[p.slot := NULL] && Data() == old(Data())[p.slot := NoData]
      ensures p.p_parent == null
    {
      hide WellFormed, AllFit, QueuesOf, LinksOf, HeadsOf, QueuedIn, Families, Forest, Prio, SemAdds, Data, KidsOf, FreeAreBare;
      p := PopFree();
      InitPcb(p);
    }

    /** The initialisation in `allocPcb`. */
    method InitPcb(p: Pcb)
      requires Valid() && p in table && Bare(mem.rings, p)
      modifies this`next_pid, mem, mem.nodes, p
      ensures Valid() && Queues() == old(Queues())
      ensures Forest() == Tree.Spawn(old(Forest()), p.slot)
      ensures Prio() == old(Prio())[p.slot := 0]
      ensures mem.home == old(mem.home) && p.p_child in mem.rings
      ensures Links() == old(Links()) && Heads() == old(Heads()) + {p.p_child}
      ensures SemAdds() == old(SemAdds())[p.slot := NULL] && Data() == old(Data())[p.slot := NoData]
      ensures p.p_parent == null
    {
      hide *;
      Laid();
      BareIff(p);
      ClearParent(p);
      Laid();
      BareIff(p);
      InitLinks(p);
      Laid();
      BareIff(p);
      InitSchedule(p);
      Laid();
      BareIff(p);
      InitPid(p);
    }

    lemma Laid()
      requires Valid()
      ensures Layout() && mem.Valid() && AllFit(mem.rings)
    {
    }

    lemma BareIff(p: Pcb)
      requires Layout() && p in table
      ensures Bare(mem.rings, p) <==> Forest().t[p.slot].parent.None? && Forest().t[p.slot].children == []
      ensures Bare(mem.rings, p) ==> p.p_parent == null
    {
      PcbAt(p);
    }

    lemma FirstIsBare()
      requires Valid() && FreeList() != []
      ensures var q := FreeList(); var s := mem.rings[pcbFree_h];
              && s != [] && Bare(mem.rings, table[q[0]]) && q[0] !in q[1..]
              && s[0] == table[q[0]].p_list && s[0].slot == q[0]
    {
      QueueAt(pcbFree_h);
      QueueMembers(pcbFree_h);
      mem.RingOf(pcbFree_h);
      FirstOnce(mem.rings[pcbFree_h]);
      assert FreeList()[0] in FreeList();
      assert mem.rings[pcbFree_h][0] in mem.rings[pcbFree_h];
    }

    /** `allocPcb`: nothing, or the first free PCB, unlinked, bare and with the next PID. */
    method AllocPcb() returns (p: Pcb?)
      requires Valid()
      modifies this`next_pid, mem, mem.nodes, if FreeList() == [] then {} else {table[FreeList()[0]]}
      ensures Valid()
      ensures p == if old(FreeList()) == [] then null else table[old(FreeList())[0]]
      ensures Queues() == if p == null then old(Queues()) else old(Queues()[pcbFree_h := FreeList()[1..]])
      ensures Forest() == if p == null then old(Forest()) else Tree.Spawn(old(Forest()), p.slot)
      ensures Prio() == if p == null then old(Prio()) else old(Prio())[p.slot := 0]
      ensures Links() == old(Links()) && Heads() == old(Heads()) + if p == null then {} else {p.p_child}
      ensures Queued() == old(Queued()) - if p == null then {} else {p.slot}
      ensures p != null ==>
        && mem.home == old(mem.home) - {p.p_list} && p.p_child in mem.rings && p.slot !in FreeList()
        && SemAdds() == old(SemAdds())[p.slot := NULL] && Data() == old(Data())[p.slot := NoData] && p.p_parent == null
    {
      hide WellFormed, AllFit, QueuesOf, LinksOf, HeadsOf, QueuedIn, Families, Forest, Prio, SemAdds, Data;
      QueueAt(pcbFree_h);
      var empty := mem.ListEmpty(pcbFree_h);
      if empty {
        p := null;
      } else {
        p := TakePcb();
      }
    }

    method EmptyChild(p: Pcb) returns (empty: bool)
      requires Valid() && p in table && p.p_child in mem.rings
      ensures empty <==> Forest().t[p.slot].children == []
    {
      PcbAt(p);
      HeadIsLoose(p.p_child);
      empty := mem.ListEmpty(p.p_child);
    }

    /** The child list of `prnt` grows at its end. */
    method LinkSib(prnt: Pcb, p: Pcb)
      requires Layout() && mem.Valid() && AllFit(mem.rings) && prnt in table && p in table
      requires prnt.p_child in mem.rings && p.p_sib !in mem.home
      modifies mem, mem.nodes
      ensures mem.Valid() && AllFit(mem.rings)
      ensures Links() == old(Links()) && Heads() == old(Heads())
      ensures Queued() == old(Queued())
      ensures Queues() == old(Queues()) && mem.home == old(mem.home)[p.p_sib := prnt.p_child]
      ensures forall x: Proc :: KidsOf(mem.rings, table[x].p_child)
                             == old(KidsOf(mem.rings, table[x].p_child)) + if x == prnt.slot then [p.slot] else []
      ensures pcbFree_h in old(mem.rings) ==> pcbFree_h in mem.rings && mem.rings[pcbFree_h] == old(mem.rings[pcbFree_h])
    {
      hide WellFormed, AllFit, QueuesOf, LinksOf, HeadsOf, KidsOf;
      ghost var rings, home := mem.rings, mem.home;
      PcbAt(p);
      PcbAt(prnt);
      NoMembersOf(p.p_sib);
      KidLinkin(rings, prnt.p_child, p.p_sib);
      mem.ListAddTail(p.p_sib, prnt.p_child);
      assert mem.rings == Linkin(rings, prnt.p_child, |rings[prnt.p_child]|, p.p_sib);
      QueuedMore(home, p.p_sib, prnt.p_child);
      forall x: Proc ensures table[x].p_child.kind == PChild && (table[x].p_child == prnt.p_child <==> x == prnt.slot) {
        assert Within(table[x], x, mem.nodes);
      }
    }

    /** `insertChild`, for processes that are not free. */
    method InsertChild(prnt: Pcb, p: Pcb)
      requires Valid() && prnt in table && p in table && p.p_parent == null && prnt.p_child in mem.rings
      requires prnt.slot !in FreeList() && p.slot !in FreeList()
      modifies p`p_parent, mem, mem.nodes
      ensures Valid() && Queues() == old(Queues()) && Queued() == old(Queued())
      ensures Links() == old(Links()) && Heads() == old(Heads())
      ensures Forest() == Tree.InsertChild(old(Forest()), prnt.slot, p.slot)
    {
      hide *;
      Pieces();
      FreeIs();
      ghost var f, home := Forest(), mem.home;
      PcbsDiffer(p);
      PcbsDiffer(prnt);
      ForestsAt();
      NodesAre();
      p.p_parent := prnt;
      LinkSib(prnt, p);
      NodesAre();
      ChildInserted(f, prnt.slot, p.slot);
      ForestIs(Tree.InsertChild(f, prnt.slot, p.slot));
      FamiliesGrow(home, prnt, p);
      Assembled();
    }

    lemma FreeIs()
      requires Valid()
      ensures FreeList() == Slots(mem.rings[pcbFree_h])
    {
    }

    lemma ChildInserted(f: Tree.Forest, parent: Proc, p: Proc)
      ensures var g := Tree.InsertChild(f, parent, p);
              && g.root == f.root && g.next == f.next
              && forall x: Proc :: g.t[x] == Tree.Node(if x == p then Some(parent) else f.t[x].parent,
                                                       f.t[x].children + if x == parent then [p] else [], f.t[x].pid)
    {
    }

    lemma FamiliesGrow(home: Homes, prnt: Pcb, p: Pcb)
      requires Layout() && prnt in table && p in table && p.p_parent == prnt
      requires forall c :: c in table && c != p ==>
                 if c.p_parent == null then c.p_sib !in home
                 else c.p_parent in table && c.p_sib in home && home[c.p_sib] == c.p_parent.p_child
      ensures Families(table, home[p.p_sib := prnt.p_child])
    {
      PcbAt(p);
      forall c | c in table && c != p ensures c.p_sib != p.p_sib { PcbAt(c); }
    }

    /** A sibling leaves the child list of `prnt`. */
    method UnlinkSib(prnt: Pcb, p: Pcb, ghost i: nat)
      requires Layout() && mem.Valid() && AllFit(mem.rings) && prnt in table && p in table
      requires prnt.p_child in mem.rings && i < |mem.rings[prnt.p_child]| && mem.rings[prnt.p_child][i] == p.p_sib
      modifies mem, mem.nodes
      ensures mem.Valid() && AllFit(mem.rings)
      ensures Links() == old(Links()) && Heads() == old(Heads())
      ensures Queued() == old(Queued())
      ensures Queues() == old(Queues()) && mem.home == old(mem.home) - {p.p_sib}
      ensures forall x: Proc :: KidsOf(mem.rings, table[x].p_child)
                             == var ks := old(KidsOf(mem.rings, table[x].p_child)); if x == prnt.slot then Remove(ks, p.slot) else ks
      ensures pcbFree_h in old(mem.rings) ==> pcbFree_h in mem.rings && mem.rings[pcbFree_h] == old(mem.rings[pcbFree_h])
    {
      hide WellFormed, AllFit, QueuesOf, LinksOf, HeadsOf, KidsOf;
      ghost var rings, home := mem.rings, mem.home;
      PcbAt(p);
      PcbAt(prnt);
      KidMembers(prnt.p_child);
      assert p.p_sib in rings[prnt.p_child];
      KidUnlink(rings, prnt.p_child, p.p_sib);
      mem.ListDel(p.p_sib, prnt.p_child, i);
      assert mem.rings == Unlink(rings, prnt.p_child, p.p_sib);
      QueuedLess(home, p.p_sib);
      forall x: Proc ensures table[x].p_child.kind == PChild && (table[x].p_child == prnt.p_child <==> x == prnt.slot) {
        assert Within(table[x], x, mem.nodes);
      }
    }

    /** The end of `outChild` and of `removeChild`: the link between `p` and its parent goes. */
    method Orphan(p: Pcb, prnt: Pcb, ghost i: nat)
      requires Valid() && p in table && p.p_parent == prnt && prnt in table && prnt.p_child in mem.rings
      requires i < |mem.rings[prnt.p_child]| && mem.rings[prnt.p_child][i] == p.p_sib
      modifies p`p_parent, mem, mem.nodes
      ensures Valid() && Queues() == old(Queues()) && Queued() == old(Queued())
      ensures Links() == old(Links()) && Heads() == old(Heads())
      ensures Forest() == Tree.OutChild(old(Forest()), p.slot)
    {
      hide *;
      Pieces();
      ghost var f, home, free := Forest(), mem.home, mem.rings[pcbFree_h];
      PcbsDiffer(p);
      ForestsAt();
      NodesAre();
      UnlinkSib(prnt, p, i);
      p.p_parent := null;
      NodesAre();
      ChildOut(f, prnt.slot, p.slot);
      ForestIs(Tree.OutChild(f, p.slot));
      FamiliesShrink(home, p);
      Assembled();
    }

    /** What a valid state consists of, and that its free PCBs are bare in the tree. */
    lemma Pieces()
      requires Valid()
      ensures Layout() && mem.Valid() && AllFit(mem.rings) && Families(table, mem.home) && pcbFree_h in mem.rings
      ensures forall x :: x in Slots(mem.rings[pcbFree_h]) ==> Forest().t[x].parent.None? && Forest().t[x].children == []
      ensures forall x: Proc :: table[x].slot == x
      ensures forall c :: c in table ==>
                if c.p_parent == null then c.p_sib !in mem.home
                else c.p_parent in table && c.p_sib in mem.home && mem.home[c.p_sib] == c.p_parent.p_child
    {
      forall x: Proc ensures table[x].slot == x { assert Within(table[x], x, mem.nodes); }
    }

    lemma Assembled()
      requires Layout() && mem.Valid() && AllFit(mem.rings) && Families(table, mem.home) && pcbFree_h in mem.rings
      requires forall x :: x in Slots(mem.rings[pcbFree_h]) ==> Forest().t[x].parent.None? && Forest().t[x].children == []
      ensures Valid()
    {
    }

    lemma NodesAre()
      requires Layout()
      ensures forall x: Proc :: NodeOf(table[x]) ==
                Tree.Node(if table[x].p_parent == null then None else Some(table[x].p_parent.slot),
                          KidsOf(mem.rings, table[x].p_child), table[x].p_pid)
    {
    }

    lemma ChildOut(f: Tree.Forest, parent: Proc, p: Proc)
      requires f.t[p].parent == Some(parent)
      ensures var g := Tree.OutChild(f, p);
              && g.root == f.root && g.next == f.next
              && (forall x: Proc :: g.t[x] == Tree.Node(if x == p then None else f.t[x].parent,
                                                        if x == parent then Remove(f.t[x].children, p) else f.t[x].children,
                                                        f.t[x].pid))
              && (forall x: Proc :: f.t[x].children == [] ==> g.t[x].children == [])
    {
    }

    lemma FamiliesShrink(home: Homes, p: Pcb)
      requires Layout() && p in table && p.p_parent == null
      requires forall c :: c in table && c != p ==>
                 if c.p_parent == null then c.p_sib !in home
                 else c.p_parent in table && c.p_sib in home && home[c.p_sib] == c.p_parent.p_child
      ensures Families(table, home - {p.p_sib})
    {
      PcbAt(p);
      forall c | c in table && c != p ensures c.p_sib != p.p_sib { PcbAt(c); }
    }

    /** `outChild`. */
    method OutChild(p: Pcb?) returns (out: Pcb?)
      requires Valid() && (p != null ==> p in table)
      modifies (if p == null then {} else {p})`p_parent, mem, mem.nodes
      ensures Valid() && Queues() == old(Queues()) && Queued() == old(Queued())
      ensures Links() == old(Links()) && Heads() == old(Heads())
      ensures out == if p == null || old(p.p_parent) == null then null else p
      ensures Forest() == if p == null then old(Forest()) else Tree.OutChild(old(Forest()), p.slot)
    {
      if p == null || p.p_parent == null {
        return null;
      }
      var prnt: Pcb := p.p_parent;
      assert mem.home[p.p_sib] == prnt.p_child;
      ghost var i := IndexOf(mem.rings[prnt.p_child], p.p_sib);
      Orphan(p, prnt, i);
      out := p;
    }

    lemma FirstKid(p: Pcb)
      requires Valid() && p in table && p.p_child in mem.rings && mem.rings[p.p_child] != []
      ensures var x := mem.rings[p.p_child][0];
              && p.p_child.next == x && x.slot < MAXPROC
              && var c := table[x.slot];
                 && c.p_sib == x && c.p_parent == p
                 && Forest().t[p.slot].children != [] && Forest().t[p.slot].children[0] == x.slot
                 && Forest().t[x.slot].parent == Some(p.slot)
    {
      var x := mem.rings[p.p_child][0];
      mem.RingOf(p.p_child);
      hide WellFormed;
      PcbAt(p);
      KidMembers(p.p_child);
      assert x in mem.rings[p.p_child];
      var c := table[x.slot];
      assert mem.home[c.p_sib] == p.p_child && c in table;
      PcbAt(c.p_parent);
    }

    /** `removeChild`. */
    method RemoveChild(p: Pcb) returns (child: Pcb?)
      requires Valid() && p in table && p.p_child in mem.rings
      modifies mem, mem.nodes, table`p_parent
      ensures Valid() && Queues() == old(Queues()) && Queued() == old(Queued())
      ensures Links() == old(Links()) && Heads() == old(Heads())
      ensures var kids := old(Forest()).t[p.slot].children;
              && child == (if kids == [] then null else table[kids[0]])
              && Forest() == if kids == [] then old(Forest()) else Tree.RemoveChild(old(Forest()), p.slot)
    {
      hide WellFormed, AllFit, QueuesOf, LinksOf, HeadsOf, QueuedIn, Forest, Families, FreeAreBare;
      var empty := EmptyChild(p);
      if empty {
        return null;
      }
      KidsThere(p);
      FirstKid(p);
      var first := p.p_child.next;
      child := table[first.slot];
      ghost var f := Forest();
      Orphan(child, p, 0);
      FirstOut(f, p.slot);
    }

    lemma KidsThere(p: Pcb)
      requires Layout() && p in table && Forest().t[p.slot].children != []
      ensures p.p_child in mem.rings && mem.rings[p.p_child] != []
    {
      PcbAt(p);
    }

    lemma FirstOut(f: Tree.Forest, p: Proc)
      requires f.t[p].children != [] && f.t[f.t[p].children[0]].parent == Some(p)
      ensures Tree.RemoveChild(f, p) == Tree.OutChild(f, f.t[p].children[0])
    {
      RemoveFirst(f.t[p].children);
    }
  }
}
