/**
 phase1/asl.c on the linked lists of module ListX: the free descriptors, the active
 semaphore list and the queue of each descriptor. The routines are proved to do what
 module SemList says; in particular nothing depends on the order of the active list,
 which the code does not keep sorted.
 */
module AslLists {
  import opened Processes
  import opened ProcQueue
  import opened ListX
  import opened PcbLists
  import SemList

  class Semd {
    const slot: nat
    const s_procq: ListHead
    const s_link: ListHead
    var s_key: Addr

    constructor (slot: nat)
      ensures this.slot == slot
      ensures s_procq.kind == SProcQ && s_procq.slot == slot && s_link.kind == SLink && s_link.slot == slot
      ensures fresh(s_procq) && fresh(s_link)
    {
      this.slot, s_key := slot, NULL;
      s_procq := new ListHead(SProcQ, slot);
      s_link := new ListHead(SLink, slot);
    }
  }

  // --------------------------------------------- a list of keyed queues as a map

  function AslMap(keys: seq<Addr>, queues: seq<seq<Proc>>): map<Addr, seq<Proc>>
    requires |keys| == |queues|
  {
    map a | a in keys :: queues[IndexOf(keys, a)]
  }

  lemma KeyAt(keys: seq<Addr>, i: nat)
    requires NoDup(keys) && i < |keys|
    ensures keys[i] in keys && IndexOf(keys, keys[i]) == i
  {
  }

  lemma MapAt(keys: seq<Addr>, queues: seq<seq<Proc>>, i: nat)
    requires |keys| == |queues| && NoDup(keys) && i < |keys|
    ensures keys[i] in AslMap(keys, queues) && AslMap(keys, queues)[keys[i]] == queues[i]
  {
    KeyAt(keys, i);
  }

  lemma MapIs(keys: seq<Addr>, queues: seq<seq<Proc>>, m: map<Addr, seq<Proc>>)
    requires |keys| == |queues| && NoDup(keys)
    requires forall i {:trigger keys[i]} :: 0 <= i < |keys| ==> keys[i] in m && m[keys[i]] == queues[i]
    requires forall a :: a in m ==> a in keys
    ensures AslMap(keys, queues) == m
  {
    var r := AslMap(keys, queues);
    MapKeys(keys, queues);
    forall a | a in keys ensures a in m && m[a] == r[a] {
      assert keys[IndexOf(keys, a)] == a;
    }
    assert forall a :: a in r <==> a in m;
    assert r.Keys == m.Keys;
  }

  lemma MapUpdate(keys: seq<Addr>, queues: seq<seq<Proc>>, i: nat, q: seq<Proc>)
    requires |keys| == |queues| && NoDup(keys) && i < |keys|
    ensures AslMap(keys, queues[i := q]) == AslMap(keys, queues)[keys[i] := q]
  {
    KeyAt(keys, i);
  }

  lemma InsertedIn(keys: seq<Addr>, i: nat, a: Addr)
    requires NoDup(keys) && i <= |keys| && a !in keys
    ensures var ks := keys[..i] + [a] + keys[i..];
            NoDup(ks) && forall b :: b in ks <==> b in keys || b == a
  {
    assert keys == keys[..i] + keys[i..];
  }

  /** Where a key is inserted does not matter. */
  lemma MapInsert(keys: seq<Addr>, queues: seq<seq<Proc>>, i: nat, a: Addr, q: seq<Proc>)
    requires |keys| == |queues| && NoDup(keys) && i <= |keys| && a !in keys
    ensures var ks := keys[..i] + [a] + keys[i..];
            NoDup(ks) && AslMap(ks, queues[..i] + [q] + queues[i..]) == AslMap(keys, queues)[a := q]
  {
    hide AslMap, NoDup;
    var ks, qs, m := keys[..i] + [a] + keys[i..], queues[..i] + [q] + queues[i..], AslMap(keys, queues)[a := q];
    InsertedIn(keys, i, a);
    MapKeys(keys, queues);
    forall j {:trigger ks[j]} | 0 <= j < |ks| ensures ks[j] in m && m[ks[j]] == qs[j] {
      if j < i {
        MapAt(keys, queues, j);
        assert ks[j] == keys[j] && keys[j] in keys;
      } else if j > i {
        MapAt(keys, queues, j - 1);
        assert ks[j] == keys[j - 1] && keys[j - 1] in keys;
      }
    }
    MapIs(ks, qs, m);
  }

  lemma MapKeys(keys: seq<Addr>, queues: seq<seq<Proc>>)
    requires |keys| == |queues|
    ensures forall a :: a in AslMap(keys, queues) <==> a in keys
  {
  }

  lemma RemovedFrom(keys: seq<Addr>, i: nat)
    requires NoDup(keys) && i < |keys|
    ensures var ks := keys[..i] + keys[i + 1..];
            NoDup(ks) && keys[i] !in ks && forall b :: b in keys && b != keys[i] ==> b in ks
  {
    assert keys == keys[..i] + [keys[i]] + keys[i + 1..];
  }

  lemma MapRemove(keys: seq<Addr>, queues: seq<seq<Proc>>, i: nat)
    requires |keys| == |queues| && NoDup(keys) && i < |keys|
    ensures var ks := keys[..i] + keys[i + 1..];
            NoDup(ks) && AslMap(ks, queues[..i] + queues[i + 1..]) == AslMap(keys, queues) - {keys[i]}
  {
    hide AslMap, NoDup;
    var ks, qs, m := keys[..i] + keys[i + 1..], queues[..i] + queues[i + 1..], AslMap(keys, queues) - {keys[i]};
    RemovedFrom(keys, i);
    MapKeys(keys, queues);
    forall j {:trigger ks[j]} | 0 <= j < |ks| ensures ks[j] in m && m[ks[j]] == qs[j] {
      assert ks[j] in ks;
      if j < i {
        MapAt(keys, queues, j);
        assert ks[j] == keys[j];
      } else {
        MapAt(keys, queues, j + 1);
        assert ks[j] == keys[j + 1];
      }
    }
    MapIs(ks, qs, m);
  }

  // ------------------------------------------------ where a new descriptor goes

  /** How many keys at the front are at most `a`. */
  function Leading(keys: seq<Addr>, a: Addr): (n: nat)
    ensures n <= |keys|
    ensures forall j :: 0 <= j < n ==> keys[j] <= a
    ensures n < |keys| ==> keys[n] > a
  {
    if keys == [] || keys[0] > a then 0 else 1 + Leading(keys[1..], a)
  }

  lemma LeadingIs(keys: seq<Addr>, a: Addr, n: nat)
    requires n <= |keys| && (forall j :: 0 <= j < n ==> keys[j] <= a) && (n < |keys| ==> keys[n] > a)
    ensures Leading(keys, a) == n
  {
  }

  /** The place `insertBlocked` chooses: in front of the last leading key that is not greater,
      and behind everything if there is none. */
  function NewPlace(keys: seq<Addr>, a: Addr): (i: nat)
    ensures i <= |keys|
  {
    var n := Leading(keys, a);
    if n == 0 then |keys| else n - 1
  }

  /** The keys of the active list after `insertBlocked` has put in a new one. */
  function KeysWith(keys: seq<Addr>, a: Addr): seq<Addr> {
    var i := NewPlace(keys, a);
    keys[..i] + [a] + keys[i..]
  }

  ghost predicate Ascending(keys: seq<Addr>) {
    forall i, j :: 0 <= i < j < |keys| ==> keys[i] < keys[j]
  }

  /** The active list is in ascending order after a new key has been put in exactly when it
      was empty before. */
  lemma SortedOnlyWhenFirst(keys: seq<Addr>, a: Addr)
    requires a !in keys
    ensures Ascending(KeysWith(keys, a)) <==> keys == []
  {
    var n, r := Leading(keys, a), KeysWith(keys, a);
    if keys != [] {
      if n == 0 {
        assert r[0] == keys[0] && r[|keys|] == a;
      } else {
        assert keys[n - 1] in keys;
        assert r[n - 1] == a && r[n] == keys[n - 1];
      }
    }
  }

  /** The queues that are not a semaphore's, the free list among them, are the same. */
  ghost predicate SameMain(was: map<ListHead, seq<Proc>>, now: map<ListHead, seq<Proc>>) {
    forall h :: h in was && h.kind == QueueHead ==> h in now && now[h] == was[h]
  }

  lemma SameAtFirst(queues: map<ListHead, seq<Proc>>)
    ensures SameMain(queues, queues)
  {
  }

  lemma SameTwice(a: map<ListHead, seq<Proc>>, b: map<ListHead, seq<Proc>>, c: map<ListHead, seq<Proc>>)
    requires SameMain(a, b) && SameMain(b, c)
    ensures SameMain(a, c)
  {
  }

  lemma SameBut(queues: map<ListHead, seq<Proc>>, h: ListHead, q: seq<Proc>)
    requires h.kind != QueueHead
    ensures SameMain(queues, queues[h := q])
  {
  }

  // ------------------------------------------------- module SemList, case by case

  lemma OutCases(v: SemList.Asl, a: Addr, p: Proc)
    ensures SemList.OutBlocked(v, a, p) ==
            if a in v.active && p in v.active[a] then (v.(active := v.active[a := Remove(v.active[a], p)]), true)
            else (v, false)
  {
    if a in v.active && p !in v.active[a] {
      assert Remove(v.active[a], p) == v.active[a];
      assert v.active[a := v.active[a]] == v.active;
    }
  }

  lemma RemoveCases(v: SemList.Asl, a: Addr)
    ensures SemList.RemoveBlocked(v, a) ==
            if a !in v.active then (v, None)
            else if v.active[a] == [] then (SemList.Asl(v.active - {a}, v.free + 1), None)
            else
              var p := v.active[a][0];
              var v1 := v.(active := v.active[a := Remove(v.active[a], p)]);
              (if v1.active[a] == [] then SemList.Asl(v1.active - {a}, v1.free + 1) else v1, Some(p))
  {
    if a in v.active && v.active[a] != [] {
      RemoveFirst(v.active[a]);
      assert v.active[a := []] - {a} == v.active - {a};
    }
  }

  lemma InsertCases(v: SemList.Asl, prio: Prios, a: Addr, p: Proc)
    ensures SemList.InsertBlocked(v, prio, a, p) ==
            if a in v.active then (v.(active := v.active[a := Insert(v.active[a], prio, p)]), false)
            else if v.free == 0 then (v, true)
            else
              var v1 := SemList.Asl(v.active[a := []], v.free - 1);
              (v1.(active := v1.active[a := Insert([], prio, p)]), false)
  {
    assert v.active[a := []][a := Insert([], prio, p)] == v.active[a := Insert([], prio, p)];
  }

  lemma QueueCases(v: SemList.Asl, a: Addr)
    ensures SemList.Queue(v, a) == if a in v.active then v.active[a] else []
  {
  }

  lemma NthCases(h: ListHead, s: seq<ListHead>, i: nat)
    requires i <= |s|
    ensures Nth(h, s, i) == if i < |s| then s[i] else h
    ensures i < |s| ==> Before(h, s, i + 1) == s[i]
  {
  }

  lemma BeforeFirst(h: ListHead, s: seq<ListHead>)
    ensures Before(h, s, 0) == h
  {
  }

  // -------------------------------------------- descriptor lists leave the rest alone

  /** A change of a descriptor list leaves queues and child lists alone. */
  lemma SemLinkin(rings: Rings, h: ListHead, i: nat, x: ListHead)
    requires h in rings && i <= |rings[h]| && AllFit(rings) && h.kind == SemdHead && x.kind == SLink
    ensures var r := Linkin(rings, h, i, x);
            && AllFit(r) && QueuesOf(r) == QueuesOf(rings)
            && LinksOf(r) == LinksOf(rings)[h := rings[h][..i] + [x] + rings[h][i..]] && HeadsOf(r) == HeadsOf(rings)
            && forall k: ListHead :: k.kind == PChild ==> KidsOf(r, k) == KidsOf(rings, k)
  {
    hide AllFit, OnlyRing, QueuesOf, LinksOf, HeadsOf, KidsOf;
    var r := Linkin(rings, h, i, x);
    LinkinFits(rings, h, i, x);
    OnlyQueue(rings, r, h, x);
    OnlyLinks(rings, r, h, x);
    OnlyHeads(rings, r, h, x);
    OnlyKids(rings, r, h, x);
  }

  lemma SemUnlink(rings: Rings, h: ListHead, x: ListHead)
    requires h in rings && x in rings[h] && AllFit(rings) && h.kind == SemdHead && x.kind == SLink
    ensures var r := Unlink(rings, h, x);
            && AllFit(r) && QueuesOf(r) == QueuesOf(rings)
            && LinksOf(r) == LinksOf(rings)[h := Remove(rings[h], x)] && HeadsOf(r) == HeadsOf(rings)
            && forall k: ListHead :: k.kind == PChild ==> KidsOf(r, k) == KidsOf(rings, k)
  {
    hide AllFit, OnlyRing, QueuesOf, LinksOf, HeadsOf, KidsOf, Unlink, Remove;
    var r := Unlink(rings, h, x);
    UnlinkFits(rings, h, x);
    OnlyQueue(rings, r, h, x);
    OnlyLinks(rings, r, h, x);
    OnlyHeads(rings, r, h, x);
    OnlyKids(rings, r, h, x);
  }

  class AslTable {
    const pcbs: PcbTable
    const semd_table: seq<Semd>
    const semdFree_h: ListHead
    const semd_h: ListHead

    ghost predicate Layout() {
      && |semd_table| == MAXPROC
      && semdFree_h in pcbs.mem.nodes && semdFree_h.kind == SemdHead
      && semd_h in pcbs.mem.nodes && semd_h.kind == SemdHead && semd_h != semdFree_h
      && (forall d: Proc :: Within(semd_table[d], d))
      && (forall x :: x in pcbs.mem.nodes && x.kind == SLink ==> x.slot < MAXPROC && semd_table[x.slot].s_link == x)
    }

    ghost predicate Within(d: Semd, i: Proc) {
      && d.slot == i
      && d.s_link in pcbs.mem.nodes && d.s_link.kind == SLink && d.s_link.slot == i
      && d.s_procq in pcbs.mem.nodes && d.s_procq.kind == SProcQ && d.s_procq.slot == i
    }

    /** `container_of` for a node in a descriptor list. */
    function Desc(x: ListHead): Semd
      requires Layout()
    {
      semd_table[SlotOf(x)]
    }

    ghost function Keys(s: seq<ListHead>): (r: seq<Addr>)
      requires Layout()
      reads semd_table
      ensures |r| == |s| && forall i :: 0 <= i < |s| ==> r[i] == Desc(s[i]).s_key
    {
      seq(|s|, i requires 0 <= i < |s| reads semd_table => Desc(s[i]).s_key)
    }

    ghost function Waiters(s: seq<ListHead>, queues: map<ListHead, seq<Proc>>): (r: seq<seq<Proc>>)
      requires Layout()
      ensures |r| == |s|
      ensures forall i :: 0 <= i < |s| ==> r[i] == var h := Desc(s[i]).s_procq; if h in queues then queues[h] else []
    {
      seq(|s|, i requires 0 <= i < |s| => var h := Desc(s[i]).s_procq; if h in queues then queues[h] else [])
    }

    /** Keys are unique, an active descriptor has a queue, a free one has nobody in its queue. */
    ghost predicate Descriptors(queues: map<ListHead, seq<Proc>>, links: map<ListHead, seq<ListHead>>)
      requires Layout()
      reads semd_table
    {
      && semd_h in links && semdFree_h in links
      && NoDup(Keys(links[semd_h]))
      && (forall x :: x in links[semd_h] ==> Desc(x).s_procq in queues)
      && (forall x :: x in links[semdFree_h] ==> Desc(x).s_procq in queues ==> queues[Desc(x).s_procq] == [])
    }

    ghost predicate Valid()
      reads pcbs, pcbs.mem, pcbs.mem.nodes, pcbs.table`p_parent, semd_table
    {
      Layout() && pcbs.Valid() && Descriptors(pcbs.Queues(), pcbs.Links())
    }

    ghost function ViewOf(queues: map<ListHead, seq<Proc>>, links: map<ListHead, seq<ListHead>>): SemList.Asl
      requires Layout() && semd_h in links && semdFree_h in links
      reads semd_table
    {
      var s := links[semd_h];
      SemList.Asl(AslMap(Keys(s), Waiters(s, queues)), |links[semdFree_h]|)
    }

    /** The active semaphore list as a map. */
    ghost function View(): SemList.Asl
      requires Valid()
      reads pcbs, pcbs.mem, pcbs.mem.nodes, pcbs.table`p_parent, semd_table
    {
      ViewOf(pcbs.Queues(), pcbs.Links())
    }

    lemma Parts()
      requires Valid()
      ensures Layout() && pcbs.Layout() && pcbs.Valid() && Descriptors(pcbs.Queues(), pcbs.Links())
      ensures semd_h in pcbs.Links() && semdFree_h in pcbs.Links() && semd_h != semdFree_h
      ensures View() == ViewOf(pcbs.Queues(), pcbs.Links()) && Active() == pcbs.Links()[semd_h]
    {
    }

    lemma Whole()
      requires Layout() && pcbs.Valid() && Descriptors(pcbs.Queues(), pcbs.Links())
      ensures Valid()
      ensures semd_h in pcbs.Links() && semdFree_h in pcbs.Links()
      ensures View() == ViewOf(pcbs.Queues(), pcbs.Links()) && Active() == pcbs.Links()[semd_h]
    {
    }

    /** A change of a queue that is not a semaphore's. */
    lemma Undisturbed(queues: map<ListHead, seq<Proc>>, links: map<ListHead, seq<ListHead>>, h: ListHead, q: seq<Proc>)
      requires Layout() && pcbs.Valid() && Descriptors(queues, links)
      requires pcbs.Queues() == queues[h := q] && pcbs.Links() == links && h.kind == QueueHead
      ensures Valid() && View() == ViewOf(queues, links)
    {
      NotProcqs(links, h);
      QueueIrrelevant(queues, links, h, q);
    }

    lemma NotProcqs(links: map<ListHead, seq<ListHead>>, h: ListHead)
      requires Layout() && semd_h in links && semdFree_h in links && h.kind == QueueHead
      ensures forall y :: y in links[semd_h] || y in links[semdFree_h] ==> Desc(y).s_procq != h
    {
      forall y | y in links[semd_h] || y in links[semdFree_h] ensures Desc(y).s_procq != h { DescAt(SlotOf(y)); }
    }

    ghost function Active(): seq<ListHead>
      requires Valid()
      reads pcbs, pcbs.mem, pcbs.mem.nodes, pcbs.table`p_parent, semd_table
    {
      pcbs.Links()[semd_h]
    }

    // ----------------------------------------------------------- consequences

    lemma DescAt(d: Proc)
      requires Layout()
      ensures Within(semd_table[d], d)
    {
    }

    lemma LinkMembers(h: ListHead)
      requires Layout() && pcbs.Valid() && h in pcbs.Links()
      ensures h in pcbs.mem.rings && pcbs.Links()[h] == pcbs.mem.rings[h]
      ensures NoDup(pcbs.Links()[h]) && OneToOne(pcbs.Links()[h])
      ensures forall x :: x in pcbs.Links()[h] ==>
                x in pcbs.mem.nodes && x.kind == SLink && x.slot < MAXPROC && Desc(x).s_link == x
    {
      hide WellFormed, AllFit;
      pcbs.mem.RingOf(h);
      pcbs.MembersFit(h);
      forall x | x in pcbs.Links()[h] ensures x.kind == SLink && x.slot < MAXPROC && Desc(x).s_link == x { }
    }

    // -------------------------------------------------------------- routines

    /** The static storage of asl.c and pcb.c, next to the heads of other process queues. */
    constructor (ghost heads: set<ListHead>)
      requires forall x :: x in heads ==> x.kind == QueueHead
      ensures Layout() && pcbs.Layout() && pcbs.mem.Valid() && heads <= pcbs.mem.nodes
      ensures fresh(pcbs) && fresh(pcbs.mem) && fresh(pcbs.mem.nodes - heads) && pcbs.pcbFree_h !in heads
      ensures pcbs.mem.rings == map[] && pcbs.mem.home == map[] && pcbs.next_pid == 1
      ensures forall c :: c in pcbs.table ==> fresh(c) && Unused(c)
      ensures forall d :: d in semd_table ==> fresh(d)
    {
      hide *;
      ghost var nodes: set<ListHead>;
      var t: seq<Semd>;
      t, nodes := Allocate();
      var f := new ListHead(SemdHead, 0);
      var h := new ListHead(SemdHead, 1);
      semd_table, semdFree_h, semd_h := t, f, h;
      pcbs := new PcbTable(nodes + {f, h} + heads);
      new;
      LaidOut(nodes);
    }

    lemma LaidOut(nodes: set<ListHead>)
      requires |semd_table| == MAXPROC && forall d: Proc :: OwnNodes(semd_table[d], d, nodes)
      requires forall x :: x in nodes && x.kind == SLink ==> x.slot < MAXPROC && semd_table[x.slot].s_link == x
      requires nodes + {semdFree_h, semd_h} <= pcbs.mem.nodes && semdFree_h.kind == semd_h.kind == SemdHead && semd_h != semdFree_h
      requires forall x :: x in pcbs.mem.nodes && x !in nodes ==> x.kind != SLink
      ensures Layout()
    {
      forall d: Proc ensures Within(semd_table[d], d) { assert OwnNodes(semd_table[d], d, nodes); }
    }

    /** `initPcbs` and `initASL`, as `initKernel` calls them. */
    method Init()
      requires Layout() && pcbs.Layout() && pcbs.mem.Valid() && pcbs.mem.rings == map[] && pcbs.mem.home == map[]
      requires forall c :: c in pcbs.table ==> c.p_parent == null
      modifies pcbs.mem, pcbs.mem.nodes
      ensures Valid() && View() == SemList.Asl(map[], MAXPROC)
      ensures pcbs.Queues() == map[pcbs.pcbFree_h := FreeSlots(MAXPROC)]
      ensures pcbs.Heads() == {}
    {
      pcbs.InitPcbs();
      InitASL();
    }

    static method Allocate() returns (t: seq<Semd>, ghost nodes: set<ListHead>)
      ensures |t| == MAXPROC && fresh(nodes)
      ensures forall d: Proc :: fresh(t[d]) && OwnNodes(t[d], d, nodes)
      ensures forall x :: x in nodes ==> x.kind in {SLink, SProcQ} && x.slot < MAXPROC
      ensures forall x :: x in nodes && x.kind == SLink ==> t[x.slot].s_link == x
    {
      t, nodes := [], {};
      while |t| < MAXPROC
        invariant |t| <= MAXPROC && fresh(nodes)
        invariant forall d: Proc :: d < |t| ==> fresh(t[d]) && OwnNodes(t[d], d, nodes)
        invariant forall x :: x in nodes ==> x.kind in {SLink, SProcQ} && x.slot < |t|
        invariant forall x :: x in nodes && x.kind == SLink ==> t[x.slot].s_link == x
      {
        var d := new Semd(|t|);
        nodes := nodes + {d.s_procq, d.s_link};
        t := t + [d];
      }
    }

    static ghost predicate OwnNodes(d: Semd, i: Proc, nodes: set<ListHead>) {
      && d.slot == i
      && d.s_link in nodes && d.s_link.kind == SLink && d.s_link.slot == i
      && d.s_procq in nodes && d.s_procq.kind == SProcQ && d.s_procq.slot == i
    }

    method InitHead(h: ListHead)
      requires Layout() && pcbs.Valid() && h in pcbs.mem.nodes && h.kind == SemdHead && h !in pcbs.mem.rings
      modifies pcbs.mem, pcbs.mem.nodes
      ensures pcbs.Valid() && pcbs.Queues() == old(pcbs.Queues()) && pcbs.Links() == old(pcbs.Links())[h := []]
      ensures pcbs.mem.home == old(pcbs.mem.home) && pcbs.mem.rings.Keys == old(pcbs.mem.rings.Keys) + {h}
      ensures pcbs.Heads() == old(pcbs.Heads())
    {
      hide WellFormed, AllFit, Families, QueuesOf, LinksOf;
      ghost var rings := pcbs.mem.rings;
      pcbs.HeadIsLoose(h);
      InitViews(rings, h);
      pcbs.mem.InitListHead(h);
      pcbs.FreeSame(rings);
      pcbs.QueueChanged(pcbs.mem.home);
    }

    /** `initASL`. */
    method InitASL()
      requires Layout() && pcbs.Valid() && pcbs.mem.rings.Keys == {pcbs.pcbFree_h}
      requires forall y :: y in pcbs.mem.home ==> y.kind == PList
      modifies pcbs.mem, pcbs.mem.nodes
      ensures Valid() && View() == SemList.Asl(map[], MAXPROC) && pcbs.Queues() == old(pcbs.Queues())
      ensures pcbs.Heads() == old(pcbs.Heads())
    {
      hide *;
      HeadsKnown();
      InitHeads();
      FillFree();
      EmptyView();
    }

    method InitHeads()
      requires Layout() && pcbs.Valid() && pcbs.mem.rings.Keys == {pcbs.pcbFree_h}
      modifies pcbs.mem, pcbs.mem.nodes
      ensures pcbs.Valid() && |semd_table| == MAXPROC
      ensures pcbs.Queues() == old(pcbs.Queues()) && pcbs.mem.home == old(pcbs.mem.home)
      ensures semdFree_h in pcbs.Links() && pcbs.Links()[semdFree_h] == []
      ensures semd_h in pcbs.Links() && pcbs.Links()[semd_h] == []
      ensures forall d: Proc :: semd_table[d].s_procq !in pcbs.Queues()
      ensures pcbs.Heads() == old(pcbs.Heads())
    {
      hide *;
      HeadsKnown();
      NoProcqs();
      InitHead(semdFree_h);
      InitHead(semd_h);
    }

    /** Its loop. */
    method FillFree()
      requires Layout() && pcbs.Valid() && semdFree_h in pcbs.Links() && pcbs.Links()[semdFree_h] == []
      requires forall y :: y in pcbs.mem.home ==> y.kind == PList
      modifies pcbs.mem, pcbs.mem.nodes
      ensures pcbs.Valid() && pcbs.Queues() == old(pcbs.Queues())
      ensures forall h :: h in old(pcbs.Links()) ==> h in pcbs.Links()
      ensures forall h :: h in old(pcbs.Links()) && h != semdFree_h ==> pcbs.Links()[h] == old(pcbs.Links()[h])
      ensures |pcbs.Links()[semdFree_h]| == MAXPROC
      ensures pcbs.Heads() == old(pcbs.Heads())
    {
      hide WellFormed, AllFit, Families, QueuesOf, pcbs.Valid, LinksOf, HeadsOf;
      for i := 0 to MAXPROC
        invariant pcbs.Valid() && pcbs.Queues() == old(pcbs.Queues()) && pcbs.Heads() == old(pcbs.Heads())
        invariant forall h :: h in old(pcbs.Links()) ==> h in pcbs.Links()
        invariant forall h :: h in old(pcbs.Links()) && h != semdFree_h ==> pcbs.Links()[h] == old(pcbs.Links()[h])
        invariant |pcbs.Links()[semdFree_h]| == i
        invariant forall y :: y in pcbs.mem.home && y.kind == SLink ==> y.slot < i
      {
        DescAt(i);
        LinkSemd(semd_table[i].s_link, semdFree_h, semdFree_h, 0);
      }
    }

    lemma EmptyView()
      requires Layout() && pcbs.Valid() && semdFree_h in pcbs.Links() && semd_h in pcbs.Links()
      requires pcbs.Links()[semd_h] == [] && |pcbs.Links()[semdFree_h]| == MAXPROC
      requires forall d: Proc :: semd_table[d].s_procq !in pcbs.Queues()
      ensures Valid() && View() == SemList.Asl(map[], MAXPROC)
    {
      hide WellFormed, AllFit, Families;
      NoKeys();
      assert NoDup(Keys(pcbs.Links()[semd_h]));
    }

    lemma NoKeys()
      ensures AslMap([], []) == map[]
    {
    }

    lemma NoProcqs()
      requires Layout() && pcbs.mem.rings.Keys == {pcbs.pcbFree_h} && pcbs.pcbFree_h.kind == QueueHead
      ensures forall d: Proc :: semd_table[d].s_procq !in pcbs.Queues()
    {
      forall d: Proc ensures semd_table[d].s_procq !in pcbs.Queues() { DescAt(d); }
    }

    lemma HeadsKnown()
      requires Layout() && pcbs.Valid()
      ensures semd_h in pcbs.mem.nodes && semd_h.kind == SemdHead
      ensures semdFree_h in pcbs.mem.nodes && semdFree_h.kind == SemdHead && semdFree_h != semd_h
      ensures pcbs.pcbFree_h.kind == QueueHead && |semd_table| == MAXPROC
    {
    }

    /** `list_add(x, prev)` on one of the descriptor lists. */
    method LinkSemd(x: ListHead, prev: ListHead, ghost h: ListHead, ghost i: nat)
      requires Layout() && pcbs.Valid() && h in pcbs.Links() && i <= |pcbs.Links()[h]|
      requires prev == Before(h, pcbs.Links()[h], i) && x in pcbs.mem.nodes && x.kind == SLink && x !in pcbs.mem.home
      modifies pcbs.mem, pcbs.mem.nodes
      ensures pcbs.Valid() && pcbs.Queues() == old(pcbs.Queues()) && pcbs.Forest() == old(pcbs.Forest()) && pcbs.Heads() == old(pcbs.Heads())
      ensures var s := old(pcbs.Links()[h]); pcbs.Links() == old(pcbs.Links())[h := s[..i] + [x] + s[i..]]
      ensures pcbs.mem.home == old(pcbs.mem.home)[x := h]
      ensures pcbs.Queued() == old(pcbs.Queued())
    {
      hide WellFormed, AllFit, QueuesOf, HeadsOf, Families, pcbs.Forest;
      ghost var rings, home, f := pcbs.mem.rings, pcbs.mem.home, pcbs.Forest();
      pcbs.ForestsAt();
      pcbs.NoMembersOf(x);
      SemLinkin(rings, h, i, x);
      pcbs.mem.ListAdd(x, prev, h, i);
      assert pcbs.mem.rings == Linkin(rings, h, i, x);
      pcbs.ForestSame(rings);
      pcbs.ForestIs(f);
      pcbs.FreeSame(rings);
      pcbs.QueueChanged(home);
      pcbs.QueuedMore(home, x, h);
    }

    /** `list_del` on one of the descriptor lists. */
    method UnlinkSemd(x: ListHead, ghost h: ListHead, ghost i: nat)
      requires Layout() && pcbs.Valid() && h in pcbs.Links() && i < |pcbs.Links()[h]| && x == pcbs.Links()[h][i]
      modifies pcbs.mem, pcbs.mem.nodes
      ensures pcbs.Valid() && pcbs.Queues() == old(pcbs.Queues()) && pcbs.Forest() == old(pcbs.Forest()) && pcbs.Heads() == old(pcbs.Heads())
      ensures pcbs.Links() == old(pcbs.Links())[h := Remove(old(pcbs.Links()[h]), x)]
      ensures pcbs.mem.home == old(pcbs.mem.home) - {x}
      ensures pcbs.Queued() == old(pcbs.Queued())
    {
      hide WellFormed, AllFit, QueuesOf, HeadsOf, Families, pcbs.Forest;
      ghost var rings, home, f := pcbs.mem.rings, pcbs.mem.home, pcbs.Forest();
      pcbs.ForestsAt();
      LinkMembers(h);
      assert x in pcbs.Links()[h];
      SemUnlink(rings, h, x);
      pcbs.mem.ListDel(x, h, i);
      assert pcbs.mem.rings == Unlink(rings, h, x);
      pcbs.ForestSame(rings);
      pcbs.ForestIs(f);
      pcbs.FreeSame(rings);
      pcbs.QueueChanged(home);
      pcbs.QueuedLess(home, x);
    }

    /** The loop with which every routine of asl.c starts. */
    method FindSemd(semAdd: Addr) returns (semd: Semd?, ghost i: nat)
      requires Valid()
      ensures semd == null <==> semAdd !in Keys(Active())
      ensures semd != null ==> i < |Active()| && semd == Desc(Active()[i]) && semd.s_key == semAdd
    {
      hide *;
      ghost var s := Active();
      Parts();
      LinkMembers(semd_h);
      pcbs.mem.PlaceOf(semd_h, 0);
      BeforeFirst(semd_h, s);
      semd := null;
      var pos := semd_h.next;
      i := 0;
      while pos != semd_h
        invariant i <= |s| && pos == Nth(semd_h, s, i)
        invariant forall j :: 0 <= j < i ==> Keys(s)[j] != semAdd
        decreases |s| - i
      {
        NthCases(semd_h, s, i);
        pcbs.mem.MemberOf(semd_h, i);
        var current := Desc(pos);
        if current.s_key == semAdd {
          assert Keys(s)[i] == semAdd;
          semd := current;
          return;
        }
        pos, i := pos.next, i + 1;
      }
      NthCases(semd_h, s, i);
      pcbs.mem.RingOf(semd_h);
    }

    /** What the invariant says about the descriptor of the `i`-th active node. */
    lemma ActiveAt(i: nat)
      requires Valid() && i < |Active()|
      ensures var d := Desc(Active()[i]);
              && d.s_procq in pcbs.mem.rings && d.s_procq in pcbs.Queues() && d.s_procq.kind == SProcQ && HoldsProcs(SProcQ)
              && d.s_procq != pcbs.pcbFree_h && d in semd_table && d.s_link == Active()[i]
              && d.s_key in View().active && View().active[d.s_key] == pcbs.Queues()[d.s_procq]
    {
      var s := Active();
      LinkMembers(semd_h);
      hide WellFormed, AllFit, LinksOf, Families;
      assert s[i] in s;
      DescAt(SlotOf(s[i]));
      MapAt(Keys(s), Waiters(s, pcbs.Queues()), i);
    }

    /** Different active or free descriptors have different queues. */
    ghost predicate Distinct(links: map<ListHead, seq<ListHead>>, x: ListHead)
      requires Layout() && semd_h in links && semdFree_h in links
    {
      && (forall y :: y in links[semd_h] && y != x ==> Desc(y).s_procq != Desc(x).s_procq)
      && (forall y :: y in links[semdFree_h] && y != x ==> Desc(y).s_procq != Desc(x).s_procq)
    }

    lemma LinksApart()
      requires Valid()
      ensures forall x :: x in pcbs.Links()[semd_h] ==> x !in pcbs.Links()[semdFree_h]
    {
      LinkMembers(semd_h);
      LinkMembers(semdFree_h);
      RingsShareNothing(pcbs.mem.rings, pcbs.mem.home, semdFree_h, semd_h);
    }

    lemma ProcqsDiffer(x: ListHead)
      requires Valid() && (x in Active() || x in pcbs.Links()[semdFree_h])
      ensures Distinct(pcbs.Links(), x) && x.kind == SLink && !(x in Active() && x in pcbs.Links()[semdFree_h])
      ensures NoDup(Active()) && NoDup(pcbs.Links()[semdFree_h])
    {
      hide *;
      Parts();
      LinksApart();
      LinkMembers(semd_h);
      LinkMembers(semdFree_h);
      DistinctIf(pcbs.Links(), x);
    }

    lemma DistinctIf(links: map<ListHead, seq<ListHead>>, x: ListHead)
      requires Layout() && semd_h in links && semdFree_h in links
      requires x in links[semd_h] || x in links[semdFree_h]
      requires forall y :: y in links[semd_h] || y in links[semdFree_h] ==> y.slot < MAXPROC && Desc(y).s_link == y
      ensures Distinct(links, x)
    {
      forall y | (y in links[semd_h] || y in links[semdFree_h]) && y != x ensures Desc(y).s_procq != Desc(x).s_procq {
        DescAt(SlotOf(x));
        DescAt(SlotOf(y));
      }
    }

    /** The queue of one active descriptor changes. */
    lemma QueueChange(queues: map<ListHead, seq<Proc>>, links: map<ListHead, seq<ListHead>>, i: nat, q: seq<Proc>)
      requires Layout() && Descriptors(queues, links) && i < |links[semd_h]|
      requires Distinct(links, links[semd_h][i]) && NoDup(links[semd_h])
      requires links[semd_h][i] !in links[semdFree_h]
      ensures var x := links[semd_h][i]; var k := Desc(x).s_key; var queues' := queues[Desc(x).s_procq := q];
              && Descriptors(queues', links)
              && ViewOf(queues', links) == ViewOf(queues, links).(active := ViewOf(queues, links).active[k := q])
    {
      var s, x := links[semd_h], links[semd_h][i];
      var queues' := queues[Desc(x).s_procq := q];
      assert x in s;
      forall j | 0 <= j < |s| && j != i ensures s[j] in s && s[j] != x { }
      assert Waiters(s, queues') == Waiters(s, queues)[i := q];
      assert Descriptors(queues', links);
      hide AslMap;
      MapUpdate(Keys(s), Waiters(s, queues), i, q);
    }

    method AddWaiter(semd: Semd, ghost i: nat, p: Pcb)
      requires Valid() && i < |Active()| && semd == Desc(Active()[i])
      requires p in pcbs.table && Loose(pcbs.mem.rings, pcbs.mem.home, p.p_list)
      modifies pcbs.mem, pcbs.mem.nodes
      ensures Valid() && pcbs.Forest() == old(pcbs.Forest()) && pcbs.Heads() == old(pcbs.Heads()) && SameMain(old(pcbs.Queues()), pcbs.Queues())
      ensures semd.s_key in old(View()).active
      ensures View() == old(View()).(active := old(View()).active[semd.s_key := Insert(old(View()).active[semd.s_key], pcbs.Prio(), p.slot)])
      ensures pcbs.mem.home == old(pcbs.mem.home)[p.p_list := semd.s_procq]
      ensures pcbs.Queued() == old(pcbs.Queued()) + {p.slot}
      ensures Active() == old(Active())
    {
      hide *;
      Parts();
      ActiveAt(i);
      ProcqsDiffer(Active()[i]);
      ghost var queues, links := pcbs.Queues(), pcbs.Links();
      var h := semd.s_procq;
      pcbs.InsertProcQ(h, p);
      QueueChange(queues, links, i, Insert(queues[h], pcbs.Prio(), p.slot));
      SameBut(queues, h, Insert(queues[h], pcbs.Prio(), p.slot));
      Whole();
    }

    /** `outProcQ` on the queue of an active descriptor. */
    method TakeWaiter(semd: Semd, ghost i: nat, p: Pcb?) returns (out: Pcb?)
      requires Valid() && i < |Active()| && semd == Desc(Active()[i]) && (p != null ==> p in pcbs.table)
      modifies pcbs.mem, pcbs.mem.nodes
      ensures Valid() && pcbs.Forest() == old(pcbs.Forest()) && pcbs.Heads() == old(pcbs.Heads()) && SameMain(old(pcbs.Queues()), pcbs.Queues())
      ensures Active() == old(Active()) && semd.s_key in old(View()).active
      ensures var q := old(View()).active[semd.s_key];
              && out == (if p != null && p.slot in q then p else null)
              && View() == if out == null then old(View()) else old(View()).(active := old(View()).active[semd.s_key := Remove(q, p.slot)])
      ensures pcbs.mem.home == if out == null then old(pcbs.mem.home) else old(pcbs.mem.home) - {p.p_list}
      ensures pcbs.Queued() == old(pcbs.Queued()) - if out == null then {} else {out.slot}
    {
      hide *;
      Parts();
      ActiveAt(i);
      ProcqsDiffer(Active()[i]);
      ghost var queues, links := pcbs.Queues(), pcbs.Links();
      var h := semd.s_procq;
      out := pcbs.OutProcQ(h, p);
      if out != null {
        QueueChange(queues, links, i, Remove(queues[h], p.slot));
        SameBut(queues, h, Remove(queues[h], p.slot));
      } else {
        SameAtFirst(queues);
      }
      Whole();
    }

    /** Who waits for a semaphore is queued. */
    lemma WaitersQueued(a: Addr)
      requires Valid() && a in View().active
      ensures forall p: Proc :: p in View().active[a] ==> p in pcbs.Queued()
    {
      hide *;
      Parts();
      ViewKeys(a);
      var i := KeyIndex(Keys(Active()), a);
      KeyOf(i);
      ActiveAt(i);
      pcbs.MembersQueued(Desc(Active()[i]).s_procq);
    }

    lemma KeyIndex(keys: seq<Addr>, a: Addr) returns (i: nat)
      requires a in keys
      ensures i < |keys| && keys[i] == a
    {
      i := IndexOf(keys, a);
    }

    lemma KeyOf(i: nat)
      requires Valid() && i < |Active()|
      ensures Keys(Active())[i] == Desc(Active()[i]).s_key
    {
    }

    lemma ViewKeys(a: Addr)
      requires Valid()
      ensures a in View().active <==> a in Keys(Active())
    {
    }

    /** `outBlocked`. */
    method OutBlocked(p: Pcb) returns (out: Pcb?)
      requires Valid() && p in pcbs.table
      modifies pcbs.mem, pcbs.mem.nodes
      ensures Valid() && pcbs.Forest() == old(pcbs.Forest()) && pcbs.Heads() == old(pcbs.Heads()) && SameMain(old(pcbs.Queues()), pcbs.Queues())
      ensures (View(), out != null) == SemList.OutBlocked(old(View()), p.p_semAdd, p.slot)
      ensures out != null ==> out == p && pcbs.mem.home == old(pcbs.mem.home) - {p.p_list}
      ensures pcbs.Queued() == old(pcbs.Queued()) - if out == null then {} else {out.slot}
    {
      hide *;
      SameAtFirst(pcbs.Queues());
      ViewKeys(p.p_semAdd);
      OutCases(View(), p.p_semAdd, p.slot);
      ghost var i;
      var semd;
      semd, i := FindSemd(p.p_semAdd);
      if semd == null {
        return null;
      }
      out := TakeWaiter(semd, i, p);
    }

    /** `headBlocked`. */
    method HeadBlocked(semAdd: Addr) returns (p: Pcb?)
      requires Valid()
      ensures var q := SemList.Queue(View(), semAdd); p == if q == [] then null else pcbs.table[q[0]]
    {
      hide *;
      ViewKeys(semAdd);
      QueueCases(View(), semAdd);
      ghost var i;
      var semd;
      semd, i := FindSemd(semAdd);
      if semd == null {
        return null;
      }
      Parts();
      ActiveAt(i);
      p := pcbs.HeadProcQ(semd.s_procq);
    }

    /** `blockedCount`. */
    method BlockedCount(semAdd: Addr) returns (count: nat)
      requires Valid()
      ensures count == |SemList.Queue(View(), semAdd)|
    {
      hide *;
      ViewKeys(semAdd);
      QueueCases(View(), semAdd);
      ghost var i;
      var semd;
      semd, i := FindSemd(semAdd);
      if semd == null {
        return 0;
      }
      Parts();
      ActiveAt(i);
      count := CountProcs(semd.s_procq);
    }

    /** Its loop. */
    method CountProcs(head: ListHead) returns (count: nat)
      requires pcbs.Valid() && head in pcbs.mem.rings && HoldsProcs(head.kind)
      ensures head in pcbs.Queues() && count == |pcbs.Queues()[head]|
    {
      pcbs.QueueAt(head);
      pcbs.mem.RingOf(head);
      ghost var q := pcbs.mem.rings[head];
      count := 0;
      var pos := head.next;
      while pos != head
        invariant count <= |q| && pos == Nth(head, q, count)
        decreases |q| - count
      {
        count := count + 1;
        pos := pos.next;
      }
    }

    // ---------------------------------------------- descriptors change lists

    lemma KeysSplit(s: seq<ListHead>, i: nat, queues: map<ListHead, seq<Proc>>)
      requires Layout() && i < |s|
      ensures Keys(s[..i] + s[i + 1..]) == Keys(s)[..i] + Keys(s)[i + 1..]
      ensures Waiters(s[..i] + s[i + 1..], queues) == Waiters(s, queues)[..i] + Waiters(s, queues)[i + 1..]
    {
    }

    lemma KeysInsert(s: seq<ListHead>, i: nat, x: ListHead, queues: map<ListHead, seq<Proc>>)
      requires Layout() && i <= |s| && Desc(x).s_procq in queues
      ensures Keys(s[..i] + [x] + s[i..]) == Keys(s)[..i] + [Desc(x).s_key] + Keys(s)[i..]
      ensures Waiters(s[..i] + [x] + s[i..], queues)
           == Waiters(s, queues)[..i] + [queues[Desc(x).s_procq]] + Waiters(s, queues)[i..]
    {
    }

    /** An active descriptor with an empty queue becomes a free one. */
    lemma Reclaimed(queues: map<ListHead, seq<Proc>>, links: map<ListHead, seq<ListHead>>, i: nat)
      requires Layout() && Descriptors(queues, links) && i < |links[semd_h]| && NoDup(links[semd_h]) && semd_h != semdFree_h
      requires Desc(links[semd_h][i]).s_procq in queues && queues[Desc(links[semd_h][i]).s_procq] == []
      ensures var s, x := links[semd_h], links[semd_h][i];
              var links' := links[semd_h := Remove(s, x)][semdFree_h := [x] + links[semdFree_h]];
              && Descriptors(queues, links')
              && Desc(x).s_key in ViewOf(queues, links).active
              && ViewOf(queues, links') == SemList.Asl(ViewOf(queues, links).active - {Desc(x).s_key}, ViewOf(queues, links).free + 1)
    {
      hide AslMap, Remove;
      var s, x := links[semd_h], links[semd_h][i];
      RemoveNth(s, i);
      KeysSplit(s, i, queues);
      MapAt(Keys(s), Waiters(s, queues), i);
      MapRemove(Keys(s), Waiters(s, queues), i);
      MembersSplit(s, i);
    }

    lemma MembersSplit(s: seq<ListHead>, i: nat)
      requires i < |s|
      ensures forall y :: y in s[..i] + s[i + 1..] ==> y in s
    {
    }

    /** A descriptor with an empty queue becomes active. */
    lemma Activated(queues: map<ListHead, seq<Proc>>, links: map<ListHead, seq<ListHead>>, i: nat, x: ListHead)
      requires Layout() && Descriptors(queues, links) && i <= |links[semd_h]| && semd_h != semdFree_h
      requires Desc(x).s_procq in queues && queues[Desc(x).s_procq] == [] && Desc(x).s_key !in Keys(links[semd_h])
      ensures var s, v := links[semd_h], ViewOf(queues, links);
              var links' := links[semd_h := s[..i] + [x] + s[i..]];
              && Descriptors(queues, links')
              && ViewOf(queues, links') == v.(active := v.active[Desc(x).s_key := []])
    {
      hide AslMap;
      var s := links[semd_h];
      KeysInsert(s, i, x, queues);
      MapInsert(Keys(s), Waiters(s, queues), i, Desc(x).s_key, []);
    }

    /** The `list_del` and `list_add` at the end of `removeBlocked`. */
    method Reclaim(semd: Semd, ghost i: nat)
      requires Valid() && i < |Active()| && semd == Desc(Active()[i])
      requires semd.s_key in View().active && View().active[semd.s_key] == []
      modifies pcbs.mem, pcbs.mem.nodes
      ensures Valid() && pcbs.Forest() == old(pcbs.Forest()) && pcbs.Heads() == old(pcbs.Heads()) && pcbs.Queues() == old(pcbs.Queues())
      ensures View() == SemList.Asl(old(View()).active - {semd.s_key}, old(View()).free + 1)
      ensures pcbs.Queued() == old(pcbs.Queued())
    {
      hide *;
      Parts();
      ActiveAt(i);
      ProcqsDiffer(Active()[i]);
      ghost var queues, links := pcbs.Queues(), pcbs.Links();
      LinkMembers(semd_h);
      assert links[semd_h][i] in links[semd_h];
      UnlinkSemd(semd.s_link, semd_h, i);
      BeforeFirst(semdFree_h, links[semdFree_h]);
      LinkSemd(semd.s_link, semdFree_h, semdFree_h, 0);
      Reclaimed(queues, links, i);
      assert links[semdFree_h][..0] + [semd.s_link] + links[semdFree_h][0..] == [semd.s_link] + links[semdFree_h];
      Whole();
    }

    /** `removeBlocked`. */
    method RemoveBlocked(semAdd: Addr) returns (p: Pcb?)
      requires Valid()
      modifies pcbs.mem, pcbs.mem.nodes
      ensures Valid() && pcbs.Forest() == old(pcbs.Forest()) && pcbs.Heads() == old(pcbs.Heads()) && SameMain(old(pcbs.Queues()), pcbs.Queues())
      ensures View() == SemList.RemoveBlocked(old(View()), semAdd).0
      ensures p == match SemList.RemoveBlocked(old(View()), semAdd).1 case None => null case Some(x) => pcbs.table[x]
      ensures pcbs.Queued() == old(pcbs.Queued()) - if p == null then {} else {p.slot}
      ensures p != null ==> p in pcbs.table && Loose(pcbs.mem.rings, pcbs.mem.home, p.p_list)
    {
      hide *;
      SameAtFirst(pcbs.Queues());
      ViewKeys(semAdd);
      RemoveCases(View(), semAdd);
      ghost var i;
      var semd;
      semd, i := FindSemd(semAdd);
      if semd == null {
        return null;
      }
      p := TakeFirst(semd, i);
      ReclaimIfEmpty(semd, i);
      Parts();
      TableSlots();
      if p != null { pcbs.LooseIff(p); }
    }

    method TakeFirst(semd: Semd, ghost i: nat) returns (p: Pcb?)
      requires Valid() && i < |Active()| && semd == Desc(Active()[i])
      modifies pcbs.mem, pcbs.mem.nodes
      ensures Valid() && pcbs.Forest() == old(pcbs.Forest()) && pcbs.Heads() == old(pcbs.Heads()) && SameMain(old(pcbs.Queues()), pcbs.Queues())
      ensures Active() == old(Active()) && semd.s_key in old(View()).active
      ensures var q := old(View()).active[semd.s_key];
              && p == (if q == [] then null else pcbs.table[q[0]])
              && View() == if q == [] then old(View()) else old(View()).(active := old(View()).active[semd.s_key := Remove(q, q[0])])
      ensures pcbs.Queued() == old(pcbs.Queued()) - if p == null then {} else {p.slot}
    {
      hide *;
      Parts();
      ActiveAt(i);
      TableSlots();
      var first := pcbs.HeadProcQ(semd.s_procq);
      p := TakeWaiter(semd, i, first);
    }

    lemma TableSlots()
      requires Valid()
      ensures pcbs.Valid() && |pcbs.table| == MAXPROC
      ensures forall x: Proc :: pcbs.table[x].slot == x && pcbs.table[x] in pcbs.table
    {
      forall x: Proc ensures pcbs.table[x].slot == x { assert PcbLists.Within(pcbs.table[x], x, pcbs.mem.nodes); }
    }

    method ReclaimIfEmpty(semd: Semd, ghost i: nat)
      requires Valid() && i < |Active()| && semd == Desc(Active()[i])
      modifies pcbs.mem, pcbs.mem.nodes
      ensures Valid() && pcbs.Forest() == old(pcbs.Forest()) && pcbs.Heads() == old(pcbs.Heads()) && pcbs.Queues() == old(pcbs.Queues())
      ensures semd.s_key in old(View()).active
      ensures View() == var v := old(View());
                        if v.active[semd.s_key] == [] then SemList.Asl(v.active - {semd.s_key}, v.free + 1) else v
      ensures pcbs.Queued() == old(pcbs.Queued())
    {
      hide *;
      Parts();
      ActiveAt(i);
      var empty := pcbs.EmptyProcQ(semd.s_procq);
      if empty {
        Reclaim(semd, i);
      }
    }

    // ------------------------------------------------------- insertBlocked

    /** The first free descriptor leaves the free list. */
    lemma FreeShrinks(queues: map<ListHead, seq<Proc>>, links: map<ListHead, seq<ListHead>>)
      requires Layout() && Descriptors(queues, links) && links[semdFree_h] != [] && semd_h != semdFree_h
      ensures var f, v := links[semdFree_h], ViewOf(queues, links); var links' := links[semdFree_h := Remove(f, f[0])];
              Descriptors(queues, links') && ViewOf(queues, links') == v.(free := v.free - 1)
    {
      hide AslMap;
      var f := links[semdFree_h];
      assert Remove(f, f[0]) == f[1..];
      assert forall y :: y in f[1..] ==> y in f;
    }

    /** The queue of a descriptor in neither list means nothing. */
    lemma QueueIrrelevant(queues: map<ListHead, seq<Proc>>, links: map<ListHead, seq<ListHead>>, h: ListHead, q: seq<Proc>)
      requires Layout() && Descriptors(queues, links)
      requires forall y :: y in links[semd_h] || y in links[semdFree_h] ==> Desc(y).s_procq != h
      ensures Descriptors(queues[h := q], links) && ViewOf(queues[h := q], links) == ViewOf(queues, links)
    {
      hide AslMap;
      var s := links[semd_h];
      assert forall i {:trigger s[i]} :: 0 <= i < |s| ==> s[i] in s;
      assert Waiters(s, queues[h := q]) == Waiters(s, queues);
    }

    /** An initialised or fresh queue head with nobody behind it. */
    lemma EmptyIsLoose(h: ListHead)
      requires pcbs.Valid() && h.kind == SProcQ && (h in pcbs.Queues() ==> pcbs.Queues()[h] == [])
      ensures Loose(pcbs.mem.rings, pcbs.mem.home, h)
    {
      pcbs.HeadIsLoose(h);
      if h in pcbs.mem.rings { pcbs.QueueAt(h); }
    }

    /** What is known of the first free descriptor. */
    lemma FirstFree()
      requires Valid() && 0 < View().free
      ensures var f := pcbs.Links()[semdFree_h];
              && f != [] && f[0] in f && semdFree_h.next == f[0] && f[0].slot < MAXPROC
              && f[0] in pcbs.mem.nodes && f[0] !in Remove(f, f[0]) && (forall y :: y in Remove(f, f[0]) ==> y in f)
              && Desc(f[0]) == semd_table[f[0].slot] && Desc(f[0]).s_link == f[0]
              && var h := Desc(f[0]).s_procq;
                 h in pcbs.mem.nodes && h.kind == SProcQ && (h in pcbs.Queues() ==> pcbs.Queues()[h] == [])
    {
      Parts();
      LinkMembers(semdFree_h);
      pcbs.mem.RingOf(semdFree_h);
      hide WellFormed, AllFit, LinksOf;
      var f := pcbs.Links()[semdFree_h];
      assert f[0] in f;
      DescAt(SlotOf(f[0]));
      RemoveNth(f, 0);
      MembersSplit(f, 0);
    }

    /** `semd` is in neither list. */
    ghost predicate Detached(links: map<ListHead, seq<ListHead>>, semd: Semd)
      requires Layout() && semd_h in links && semdFree_h in links
    {
      && semd.s_link in pcbs.mem.nodes && semd.s_link.kind == SLink && Desc(semd.s_link) == semd
      && semd.s_procq in pcbs.mem.nodes && semd.s_procq.kind == SProcQ
      && (forall y :: y in links[semd_h] ==> Desc(y) != semd && Desc(y).s_procq != semd.s_procq)
      && (forall y :: y in links[semdFree_h] ==> Desc(y) != semd && Desc(y).s_procq != semd.s_procq)
    }

    lemma DetachedIf(links: map<ListHead, seq<ListHead>>, now: map<ListHead, seq<ListHead>>, x: ListHead)
      requires Layout() && semd_h in links && semdFree_h in links && Distinct(links, x)
      requires semd_h in now && semdFree_h in now
      requires x in pcbs.mem.nodes && x.kind == SLink && Desc(x).s_link == x
      requires Desc(x).s_procq in pcbs.mem.nodes && Desc(x).s_procq.kind == SProcQ
      requires forall y :: y in now[semd_h] ==> y in links[semd_h] && y != x && Desc(y).s_link == y
      requires forall y :: y in now[semdFree_h] ==> y in links[semdFree_h] && y != x && Desc(y).s_link == y
      ensures Detached(now, Desc(x))
    {
    }

    /** The `list_del` of a free descriptor. */
    method TakeFreeSemd() returns (semd: Semd)
      requires Valid() && 0 < View().free
      modifies pcbs.mem, pcbs.mem.nodes
      ensures Valid() && pcbs.Forest() == old(pcbs.Forest()) && pcbs.Heads() == old(pcbs.Heads()) && pcbs.Queues() == old(pcbs.Queues())
      ensures Active() == old(Active()) && View() == old(View()).(free := old(View()).free - 1)
      ensures Detached(pcbs.Links(), semd) && pcbs.mem.home == old(pcbs.mem.home) - {semd.s_link} && semd in semd_table
      ensures semd.s_procq in pcbs.Queues() ==> pcbs.Queues()[semd.s_procq] == []
      ensures pcbs.Queued() == old(pcbs.Queued())
    {
      hide *;
      Parts();
      HeadsKnown();
      FirstFree();
      ghost var queues, links := pcbs.Queues(), pcbs.Links();
      var first := semdFree_h.next;
      semd := semd_table[first.slot];
      ProcqsDiffer(first);
      UnlinkSemd(first, semdFree_h, 0);
      FreeShrinks(queues, links);
      Whole();
      LinkMembers(semd_h);
      LinkMembers(semdFree_h);
      DetachedIf(links, pcbs.Links(), first);
    }

    method SetKey(semd: Semd, semAdd: Addr)
      requires Valid() && semd in semd_table && Detached(pcbs.Links(), semd)
      modifies semd
      ensures Valid() && View() == old(View()) && Active() == old(Active()) && Keys(Active()) == old(Keys(Active()))
      ensures Detached(pcbs.Links(), semd) && semd.s_key == semAdd
    {
      hide AslMap, WellFormed, AllFit, QueuesOf, LinksOf;
      ghost var s := Active();
      assert forall i {:trigger s[i]} :: 0 <= i < |s| ==> s[i] in s;
      ghost var ks := Keys(s);
      semd.s_key := semAdd;
      assert Keys(s) == ks;
    }

    method InitProcQ(semd: Semd)
      requires Valid() && Detached(pcbs.Links(), semd)
      requires semd.s_procq in pcbs.Queues() ==> pcbs.Queues()[semd.s_procq] == []
      modifies pcbs.mem, pcbs.mem.nodes
      ensures Valid() && pcbs.Forest() == old(pcbs.Forest()) && pcbs.Heads() == old(pcbs.Heads()) && SameMain(old(pcbs.Queues()), pcbs.Queues())
      ensures View() == old(View()) && Active() == old(Active())
      ensures Detached(pcbs.Links(), semd) && semd.s_procq in pcbs.Queues() && pcbs.Queues()[semd.s_procq] == []
      ensures pcbs.mem.home == old(pcbs.mem.home)
      ensures pcbs.Queued() == old(pcbs.Queued())
    {
      hide *;
      Parts();
      ghost var queues, links := pcbs.Queues(), pcbs.Links();
      DetachedParts(links, semd);
      EmptyIsLoose(semd.s_procq);
      pcbs.MkEmptyProcQ(semd.s_procq);
      DetachedParts(links, semd);
      QueueIrrelevant(queues, links, semd.s_procq, []);
      SameBut(queues, semd.s_procq, []);
      Whole();
    }

    lemma DetachedParts(links: map<ListHead, seq<ListHead>>, semd: Semd)
      requires Layout() && pcbs.Valid() && semd_h in links && semdFree_h in links && Detached(links, semd)
      ensures semd.s_procq in pcbs.mem.nodes && semd.s_procq.kind == SProcQ && HoldsProcs(SProcQ)
      ensures semd.s_link in pcbs.mem.nodes && semd.s_link.kind == SLink && Desc(semd.s_link) == semd
      ensures forall y :: y in links[semd_h] || y in links[semdFree_h] ==> Desc(y).s_procq != semd.s_procq && y != semd.s_link
      ensures semd.s_procq != pcbs.pcbFree_h
    {
    }

    /** The walk of `insertBlocked` to the place of a new descriptor. The walk remembers the
        last node whose key is not greater, and the descriptor goes in front of that node. */
    method FindPlace(semAdd: Addr) returns (prev: ListHead, ghost place: nat)
      requires Valid()
      ensures place == NewPlace(Keys(Active()), semAdd)
      ensures prev == Before(semd_h, Active(), NewPlace(Keys(Active()), semAdd))
    {
      Parts();
      LinkMembers(semd_h);
      prev, place := PlaceIn(semAdd);
    }

    /** Its walk. */
    method PlaceIn(semAdd: Addr) returns (prev: ListHead, ghost place: nat)
      requires Layout() && pcbs.mem.Valid() && semd_h in pcbs.mem.rings
      ensures place == NewPlace(Keys(pcbs.mem.rings[semd_h]), semAdd)
      ensures var s := pcbs.mem.rings[semd_h]; prev == Before(semd_h, s, NewPlace(Keys(s), semAdd))
    {
      hide *;
      ghost var s := pcbs.mem.rings[semd_h];
      ghost var i: nat := 0;
      pcbs.mem.PlaceOf(semd_h, 0);
      BeforeFirst(semd_h, s);
      var insert_pos: ListHead := semd_h;
      var pos: ListHead := semd_h.next;
      while pos != semd_h
        invariant i <= |s| && pos == Nth(semd_h, s, i) && insert_pos == Before(semd_h, s, i)
        invariant forall j :: 0 <= j < i ==> Keys(s)[j] <= semAdd
        decreases |s| - i
      {
        NthCases(semd_h, s, i);
        pcbs.mem.MemberOf(semd_h, i);
        var current := Desc(pos);
        if current.s_key > semAdd {
          break;
        }
        insert_pos := pos;
        pos, i := pos.next, i + 1;
      }
      NthCases(semd_h, s, i);
      pcbs.mem.RingOf(semd_h);
      LeadingIs(Keys(s), semAdd, i);
      place := if i == 0 then |s| else i - 1;
      PlaceIs(Keys(s), semAdd);
      PlaceBefore(s, i);
      prev := insert_pos.prev;
    }

    lemma KeysWithIs(keys: seq<Addr>, a: Addr)
      ensures var i := NewPlace(keys, a); KeysWith(keys, a) == keys[..i] + [a] + keys[i..]
    {
    }

    lemma PlaceIs(keys: seq<Addr>, a: Addr)
      ensures NewPlace(keys, a) == var n := Leading(keys, a); if n == 0 then |keys| else n - 1
    {
    }

    lemma PlaceBefore(s: seq<ListHead>, i: nat)
      requires pcbs.mem.Valid() && semd_h in pcbs.mem.rings && s == pcbs.mem.rings[semd_h] && i <= |s|
      ensures Before(semd_h, s, i).prev == Before(semd_h, s, if i == 0 then |s| else i - 1)
    {
      pcbs.mem.RingOf(semd_h);
    }

    /** A free descriptor, initialised for `semAdd`. */
    method FreshSemd(semAdd: Addr) returns (semd: Semd)
      requires Valid() && 0 < View().free
      modifies pcbs.mem, pcbs.mem.nodes, semd_table
      ensures Valid() && pcbs.Forest() == old(pcbs.Forest()) && pcbs.Heads() == old(pcbs.Heads()) && SameMain(old(pcbs.Queues()), pcbs.Queues())
      ensures View() == old(View()).(free := old(View()).free - 1)
      ensures Active() == old(Active()) && Keys(Active()) == old(Keys(Active()))
      ensures Detached(pcbs.Links(), semd) && semd.s_key == semAdd
      ensures semd.s_procq in pcbs.Queues() && pcbs.Queues()[semd.s_procq] == []
      ensures pcbs.mem.home == old(pcbs.mem.home) - {semd.s_link}
      ensures pcbs.Queued() == old(pcbs.Queued())
    {
      hide *;
      semd := TakeFreeSemd();
      SetKey(semd, semAdd);
      InitProcQ(semd);
    }

    /** The `list_add` that makes a descriptor active. */
    method Activate(semd: Semd) returns (ghost i: nat)
      requires Valid() && Detached(pcbs.Links(), semd) && semd.s_key !in Keys(Active()) && semd.s_link !in pcbs.mem.home
      requires semd.s_procq in pcbs.Queues() && pcbs.Queues()[semd.s_procq] == []
      modifies pcbs.mem, pcbs.mem.nodes
      ensures Valid() && pcbs.Forest() == old(pcbs.Forest()) && pcbs.Heads() == old(pcbs.Heads()) && pcbs.Queues() == old(pcbs.Queues())
      ensures i < |Active()| && semd == Desc(Active()[i])
      ensures View() == old(View()).(active := old(View()).active[semd.s_key := []])
      ensures semd.s_link.kind == SLink && pcbs.mem.home == old(pcbs.mem.home)[semd.s_link := semd_h]
      ensures pcbs.Queued() == old(pcbs.Queued())
      ensures Keys(Active()) == KeysWith(old(Keys(Active())), semd.s_key)
    {
      hide *;
      var prev;
      prev, i := FindPlace(semd.s_key);
      Parts();
      HeadsKnown();
      ghost var queues, links := pcbs.Queues(), pcbs.Links();
      DetachedParts(links, semd);
      LinkSemd(semd.s_link, prev, semd_h, i);
      Activated(queues, links, i, semd.s_link);
      KeysInsert(links[semd_h], i, semd.s_link, queues);
      KeysWithIs(Keys(links[semd_h]), semd.s_key);
      Whole();
    }

    /** The descriptor `insertBlocked` allocates for a key that has none. */
    method NewSemd(semAdd: Addr) returns (semd: Semd, ghost i: nat)
      requires Valid() && 0 < View().free && semAdd !in Keys(Active())
      modifies pcbs.mem, pcbs.mem.nodes, semd_table
      ensures Valid() && pcbs.Forest() == old(pcbs.Forest()) && pcbs.Heads() == old(pcbs.Heads()) && SameMain(old(pcbs.Queues()), pcbs.Queues())
      ensures i < |Active()| && semd == Desc(Active()[i]) && semd.s_key == semAdd
      ensures View() == SemList.Asl(old(View()).active[semAdd := []], old(View()).free - 1)
      ensures semd.s_link.kind == SLink && pcbs.mem.home == old(pcbs.mem.home)[semd.s_link := semd_h]
      ensures pcbs.Queued() == old(pcbs.Queued())
      ensures Keys(Active()) == KeysWith(old(Keys(Active())), semAdd)
    {
      hide *;
      semd := FreshSemd(semAdd);
      i := Activate(semd);
    }

    /** Linking a descriptor does not make a PCB any less loose. */
    lemma LooseAgain(p: Pcb, rings: Rings, home: Homes, x: ListHead)
      requires pcbs.Valid() && p in pcbs.table && Loose(rings, home, p.p_list)
      requires x.kind == SLink && pcbs.mem.home == home[x := semd_h]
      ensures Loose(pcbs.mem.rings, pcbs.mem.home, p.p_list)
    {
      pcbs.PcbAt(p);
      pcbs.NoMembersOf(p.p_list);
    }

    /** The descriptor for `semAdd`: the active one, a new one, or none. */
    method GetSemd(semAdd: Addr, ghost p: Pcb) returns (semd: Semd?, ghost i: nat)
      requires Valid() && p in pcbs.table && Loose(pcbs.mem.rings, pcbs.mem.home, p.p_list)
      modifies pcbs.mem, pcbs.mem.nodes, semd_table
      ensures Valid() && pcbs.Forest() == old(pcbs.Forest()) && pcbs.Heads() == old(pcbs.Heads()) && SameMain(old(pcbs.Queues()), pcbs.Queues())
      ensures semd == null <==> semAdd !in old(View()).active && old(View()).free == 0
      ensures semd != null ==> i < |Active()| && semd == Desc(Active()[i]) && semd.s_key == semAdd
      ensures View() == if semd == null || semAdd in old(View()).active then old(View())
                        else SemList.Asl(old(View()).active[semAdd := []], old(View()).free - 1)
      ensures Loose(pcbs.mem.rings, pcbs.mem.home, p.p_list)
      ensures pcbs.Queued() == old(pcbs.Queued())
      ensures Keys(Active()) == if semd == null || semAdd in old(View()).active then old(Keys(Active()))
                                else KeysWith(old(Keys(Active())), semAdd)
    {
      hide *;
      SameAtFirst(pcbs.Queues());
      ViewKeys(semAdd);
      semd, i := FindSemd(semAdd);
      if semd == null {
        var none := NoFreeSemd();
        if none {
          return;
        }
        ghost var rings, home := pcbs.mem.rings, pcbs.mem.home;
        semd, i := NewSemd(semAdd);
        Parts();
        LooseAgain(p, rings, home, semd.s_link);
      }
    }

    /** `insertBlocked`. */
    method InsertBlocked(semAdd: Addr, p: Pcb) returns (full: bool)
      requires Valid() && p in pcbs.table && Loose(pcbs.mem.rings, pcbs.mem.home, p.p_list)
      modifies p`p_semAdd, pcbs.mem, pcbs.mem.nodes, semd_table
      ensures Valid() && pcbs.Forest() == old(pcbs.Forest()) && pcbs.Heads() == old(pcbs.Heads()) && SameMain(old(pcbs.Queues()), pcbs.Queues())
      ensures (View(), full) == SemList.InsertBlocked(old(View()), pcbs.Prio(), semAdd, p.slot)
      ensures p.p_semAdd == if full then old(p.p_semAdd) else semAdd
      ensures pcbs.Queued() == old(pcbs.Queued()) + if full then {} else {p.slot}
      ensures Keys(Active()) == if full || semAdd in old(View()).active then old(Keys(Active()))
                                else KeysWith(old(Keys(Active())), semAdd)
    {
      hide *;
      Parts();
      InsertCases(View(), pcbs.Prio(), semAdd, p.slot);
      ghost var i, queues := 0, pcbs.Queues();
      var semd;
      semd, i := GetSemd(semAdd, p);
      if semd == null {
        return true;
      }
      ghost var queues1 := pcbs.Queues();
      AddWaiter(semd, i, p);
      SameTwice(queues, queues1, pcbs.Queues());
      p.p_semAdd := semAdd;
      full := false;
    }

    /** `list_empty(&semdFree_h)`. */
    method NoFreeSemd() returns (none: bool)
      requires Valid()
      ensures none <==> View().free == 0
    {
      LinkMembers(semdFree_h);
      none := pcbs.mem.ListEmpty(semdFree_h);
    }
  }
}
