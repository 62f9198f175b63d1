/**
 The intrusive circular lists of headers/listx.h on real nodes. `Memory` records which
 rings the nodes form: `rings` maps each list head to the nodes linked behind it, `home`
 maps each linked node to its head. A node that `list_del` has taken out points to itself,
 which makes it the head of an empty ring.
 */
module ListX {
  import opened ProcQueue

  /** Which field of which structure a node is. */
  datatype Kind = PList | PChild | PSib | SLink | SProcQ | QueueHead | SemdHead

  /** `struct list_head`; `kind` and `slot` stand for its address, from which
      `container_of` finds the structure around it. */
  class ListHead {
    var next: ListHead?
    var prev: ListHead?
    const kind: Kind
    const slot: nat

    constructor (kind: Kind, slot: nat)
      ensures this.kind == kind && this.slot == slot
    {
      this.kind, this.slot := kind, slot;
      next, prev := null, null;
    }
  }

  type Pointers = map<ListHead, ListHead?>
  type Rings = map<ListHead, seq<ListHead>>
  type Homes = map<ListHead, ListHead>

  /** No node is in two rings, or twice in one, and no head is inside a ring. */
  ghost predicate Apart(rings: Rings, home: Homes) {
    && (forall h :: h in rings ==> NoDup(rings[h]) && h !in home)
    && (forall h, x :: h in rings && x in rings[h] ==> x in home && home[x] == h)
    && (forall x :: x in home ==> home[x] in rings && x in rings[home[x]])
  }

  /** The pointers of the ring of `h`, in both directions. */
  ghost predicate Linked(next: Pointers, prev: Pointers, h: ListHead, s: seq<ListHead>) {
    && h in next && h in prev
    && (forall i {:trigger s[i]} :: 0 <= i < |s| ==> s[i] in next && s[i] in prev)
    && next[h] == (if s == [] then h else s[0])
    && prev[h] == (if s == [] then h else s[|s| - 1])
    && (forall i {:trigger next[s[i]]} :: 0 <= i < |s| ==> next[s[i]] == if i + 1 < |s| then s[i + 1] else h)
    && (forall i {:trigger prev[s[i]]} :: 0 <= i < |s| ==> prev[s[i]] == if i > 0 then s[i - 1] else h)
  }

  ghost predicate WellFormed(next: Pointers, prev: Pointers, rings: Rings, home: Homes) {
    Apart(rings, home) && forall h :: h in rings ==> Linked(next, prev, h, rings[h])
  }

  /** A node that may be linked: in no ring, and not the head of a ring with members. */
  ghost predicate Loose(rings: Rings, home: Homes, x: ListHead) {
    x !in home && (x in rings ==> rings[x] == [])
  }

  /** The node in front of member number `i`, or in front of the end of the ring. */
  ghost function Before(h: ListHead, s: seq<ListHead>, i: nat): ListHead
    requires i <= |s|
  {
    if i == 0 then h else s[i - 1]
  }

  /** Member number `i`, or the head if the members end there. */
  ghost function Nth(h: ListHead, s: seq<ListHead>, i: nat): ListHead {
    if i < |s| then s[i] else h
  }

  /** `rings` with `x` linked in as member number `i` of `h`. */
  ghost function Linkin(rings: Rings, h: ListHead, i: nat, x: ListHead): Rings
    requires h in rings && i <= |rings[h]|
  {
    (rings - {x})[h := rings[h][..i] + [x] + rings[h][i..]]
  }

  /** `rings` with `x` taken out of the ring of `h`. */
  ghost function Unlink(rings: Rings, h: ListHead, x: ListHead): Rings
    requires h in rings
  {
    rings[h := Remove(rings[h], x)][x := []]
  }

  // ------------------------------------------------------- the pointer assignments

  lemma LinkinApart(rings: Rings, home: Homes, h: ListHead, i: nat, x: ListHead)
    requires Apart(rings, home) && Loose(rings, home, x) && h in rings && i <= |rings[h]| && x != h
    ensures Apart(Linkin(rings, h, i, x), home[x := h])
  {
    assert x !in rings[h];
    WithMember(rings[h], i, x);
    hide NoDup;
  }

  lemma WithMember(s: seq<ListHead>, i: nat, x: ListHead)
    requires NoDup(s) && x !in s && i <= |s|
    ensures var t := s[..i] + [x] + s[i..]; NoDup(t) && forall y :: y in t <==> y in s || y == x
  {
    var t := s[..i] + [x] + s[i..];
    assert s == s[..i] + s[i..];
    assert forall j :: 0 <= j < |t| ==> t[j] == if j < i then s[j] else if j == i then x else s[j - 1];
  }

  lemma UnlinkApart(rings: Rings, home: Homes, x: ListHead)
    requires Apart(rings, home) && x in home
    ensures Apart(Unlink(rings, home[x], x), home - {x})
  {
    var s := rings[home[x]];
    RemoveMembers(s, x);
  }

  /** Two rings share no node, and a head or a loose node is in neither. */
  lemma RingsShareNothing(rings: Rings, home: Homes, h: ListHead, k: ListHead)
    requires Apart(rings, home) && h in rings && k in rings && h != k
    ensures k !in rings[h]
    ensures forall y :: y in rings[k] ==> y !in rings[h] && y != h
  {
    forall y | y in rings[k] ensures y !in rings[h] && y != h {
      assert y in home && home[y] == k;
    }
  }

  lemma LooseIsOutside(rings: Rings, home: Homes, k: ListHead, x: ListHead)
    requires Apart(rings, home) && k in rings && x !in home
    ensures x !in rings[k]
  {
  }

  lemma RingIs(rings: Rings, home: Homes, h: ListHead)
    requires Apart(rings, home) && h in rings
    ensures NoDup(rings[h]) && h !in rings[h] && h !in home
    ensures forall i {:trigger rings[h][i]} :: 0 <= i < |rings[h]| ==> rings[h][i] in home && home[rings[h][i]] == h
  {
    assert forall i {:trigger rings[h][i]} :: 0 <= i < |rings[h]| ==> rings[h][i] in rings[h];
  }

  /** A ring none of whose pointers was written is still a ring. */
  lemma Untouched(next: Pointers, prev: Pointers, next': Pointers, prev': Pointers, h: ListHead, s: seq<ListHead>)
    requires Linked(next, prev, h, s) && next.Keys <= next'.Keys && prev.Keys <= prev'.Keys
    requires next'[h] == next[h] && prev'[h] == prev[h]
    requires forall y {:trigger y in s} :: y in s ==> next'[y] == next[y] && prev'[y] == prev[y]
    ensures Linked(next', prev', h, s)
  {
    assert forall i {:trigger s[i]} :: 0 <= i < |s| ==> s[i] in s;
  }

  /** The next and prev fields after the four writes of `__list_add`. */
  ghost function NextsWith(next: Pointers, h: ListHead, s: seq<ListHead>, i: nat, x: ListHead): Pointers
    requires i <= |s|
  {
    next[x := Nth(h, s, i)][Before(h, s, i) := x]
  }

  ghost function PrevsWith(prev: Pointers, h: ListHead, s: seq<ListHead>, i: nat, x: ListHead): Pointers
    requires i <= |s|
  {
    prev[Nth(h, s, i) := x][x := Before(h, s, i)]
  }

  lemma WithIs(next: Pointers, prev: Pointers, h: ListHead, s: seq<ListHead>, i: nat, x: ListHead)
    requires i <= |s|
    ensures NextsWith(next, h, s, i, x) == next[x := Nth(h, s, i)][Before(h, s, i) := x]
    ensures PrevsWith(prev, h, s, i, x) == prev[Nth(h, s, i) := x][x := Before(h, s, i)]
  {
  }

  lemma WithoutIs(next: Pointers, prev: Pointers, h: ListHead, s: seq<ListHead>, i: nat)
    requires i < |s|
    ensures NextsWithout(next, h, s, i) == next[Before(h, s, i) := Nth(h, s, i + 1)][s[i] := s[i]]
    ensures PrevsWithout(prev, h, s, i) == prev[Nth(h, s, i + 1) := Before(h, s, i)][s[i] := s[i]]
  {
  }

  /** The next and prev fields after the writes of `list_del` on member number `i`. */
  ghost function NextsWithout(next: Pointers, h: ListHead, s: seq<ListHead>, i: nat): Pointers
    requires i < |s|
  {
    next[Before(h, s, i) := Nth(h, s, i + 1)][s[i] := s[i]]
  }

  ghost function PrevsWithout(prev: Pointers, h: ListHead, s: seq<ListHead>, i: nat): Pointers
    requires i < |s|
  {
    prev[Nth(h, s, i + 1) := Before(h, s, i)][s[i] := s[i]]
  }

  lemma NthDiffer(h: ListHead, s: seq<ListHead>, i: nat, j: nat)
    requires NoDup(s) && h !in s && i <= |s| && j < |s|
    ensures i != j ==> Nth(h, s, i) != s[j]
    ensures i != j + 1 ==> Before(h, s, i) != s[j]
  {
    assert s[j] in s;
  }

  lemma OpenedAt(next: Pointers, prev: Pointers, h: ListHead, s: seq<ListHead>, i: nat, x: ListHead, j: nat)
    requires Linked(next, prev, h, s) && NoDup(s) && h !in s
    requires x !in s && x != h && i <= |s| && j < |s|
    ensures s[j] in next && s[j] in prev
    ensures NextsWith(next, h, s, i, x)[s[j]] == if j + 1 == i then x else Nth(h, s, j + 1)
    ensures PrevsWith(prev, h, s, i, x)[s[j]] == if j == i then x else Before(h, s, j)
  {
    assert s[j] in s && next[s[j]] == Nth(h, s, j + 1) && prev[s[j]] == Before(h, s, j);
    NthDiffer(h, s, i, j);
  }

  /** The four writes of `__list_add` open the ring in front of member number `i` for `x`. */
  lemma Opened(next: Pointers, prev: Pointers, h: ListHead, s: seq<ListHead>, i: nat, x: ListHead)
    requires Linked(next, prev, h, s) && NoDup(s) && h !in s
    requires x !in s && x != h && x in next && x in prev && i <= |s|
    ensures Linked(NextsWith(next, h, s, i, x), PrevsWith(prev, h, s, i, x), h, s[..i] + [x] + s[i..])
  {
    var n, p := NextsWith(next, h, s, i, x), PrevsWith(prev, h, s, i, x);
    var t := s[..i] + [x] + s[i..];
    forall j | 0 <= j < |s|
      ensures s[j] in next && s[j] in prev
      ensures n[s[j]] == if j + 1 == i then x else Nth(h, s, j + 1)
      ensures p[s[j]] == if j == i then x else Before(h, s, j)
    {
      OpenedAt(next, prev, h, s, i, x, j);
    }
    hide NoDup;
    assert n[h] == t[0] && p[h] == t[|t| - 1];
    Relinked(n, p, h, s, i, x, t);
  }

  lemma Relinked(n: Pointers, p: Pointers, h: ListHead, s: seq<ListHead>, i: nat, x: ListHead, t: seq<ListHead>)
    requires i <= |s| && t == s[..i] + [x] + s[i..] && h in n && h in p && x in n && x in p
    requires n[h] == t[0] && p[h] == t[|t| - 1] && n[x] == Nth(h, s, i) && p[x] == Before(h, s, i)
    requires forall j :: 0 <= j < |s| ==> s[j] in n && s[j] in p
    requires forall j :: 0 <= j < |s| ==> n[s[j]] == if j + 1 == i then x else Nth(h, s, j + 1)
    requires forall j :: 0 <= j < |s| ==> p[s[j]] == if j == i then x else Before(h, s, j)
    ensures Linked(n, p, h, t)
  {
  }

  lemma ClosedAt(next: Pointers, prev: Pointers, h: ListHead, s: seq<ListHead>, i: nat, j: nat)
    requires Linked(next, prev, h, s) && NoDup(s) && h !in s && i < |s| && j < |s| && i != j
    ensures s[j] in next && s[j] in prev
    ensures NextsWithout(next, h, s, i)[s[j]] == Nth(h, s, if j + 1 == i then i + 1 else j + 1)
    ensures PrevsWithout(prev, h, s, i)[s[j]] == Before(h, s, if j == i + 1 then i else j)
  {
    assert s[j] in s && next[s[j]] == Nth(h, s, j + 1) && prev[s[j]] == Before(h, s, j);
    NthDiffer(h, s, i, j);
    NthDiffer(h, s, i + 1, j);
  }

  lemma ClosedHead(next: Pointers, prev: Pointers, h: ListHead, s: seq<ListHead>, i: nat)
    requires Linked(next, prev, h, s) && h !in s && i < |s|
    ensures h in next && h in prev
    ensures NextsWithout(next, h, s, i)[h] == Nth(h, s, if i == 0 then 1 else 0)
    ensures PrevsWithout(prev, h, s, i)[h] == Before(h, s, if i + 1 == |s| then i else |s|)
  {
    assert s[i] in s;
    if i > 0 { assert s[i - 1] in s; }
    if i + 1 < |s| { assert s[i + 1] in s; }
  }

  /** The writes of `list_del` close the ring over member number `i`. */
  lemma Closed(next: Pointers, prev: Pointers, h: ListHead, s: seq<ListHead>, i: nat)
    requires Linked(next, prev, h, s) && NoDup(s) && h !in s && i < |s|
    ensures Linked(NextsWithout(next, h, s, i), PrevsWithout(prev, h, s, i), h, s[..i] + s[i + 1..])
  {
    hide *;
    var n, p := NextsWithout(next, h, s, i), PrevsWithout(prev, h, s, i);
    forall j | 0 <= j < |s| && j != i
      ensures s[j] in n && s[j] in p
      ensures n[s[j]] == Nth(h, s, if j + 1 == i then i + 1 else j + 1)
      ensures p[s[j]] == Before(h, s, if j == i + 1 then i else j)
    {
      ClosedAt(next, prev, h, s, i, j);
      StillThere(next, prev, h, s, i, s[j]);
    }
    ClosedHead(next, prev, h, s, i);
    StillThere(next, prev, h, s, i, h);
    EndsWithout(h, s, i, s[..i] + s[i + 1..]);
    Rejoined(n, p, h, s, i, s[..i] + s[i + 1..]);
  }

  lemma EndsWithout(h: ListHead, s: seq<ListHead>, i: nat, t: seq<ListHead>)
    requires i < |s| && t == s[..i] + s[i + 1..]
    ensures Nth(h, s, if i == 0 then 1 else 0) == if t == [] then h else t[0]
    ensures Before(h, s, if i + 1 == |s| then i else |s|) == if t == [] then h else t[|t| - 1]
  {
  }

  lemma StillThere(next: Pointers, prev: Pointers, h: ListHead, s: seq<ListHead>, i: nat, y: ListHead)
    requires i < |s| && y in next && y in prev
    ensures y in NextsWithout(next, h, s, i) && y in PrevsWithout(prev, h, s, i)
  {
  }

  lemma Rejoined(n: Pointers, p: Pointers, h: ListHead, s: seq<ListHead>, i: nat, t: seq<ListHead>)
    requires i < |s| && t == s[..i] + s[i + 1..] && h in n && h in p
    requires n[h] == (if t == [] then h else t[0]) && p[h] == (if t == [] then h else t[|t| - 1])
    requires forall j :: 0 <= j < |s| && j != i ==> s[j] in n && s[j] in p
    requires forall j :: 0 <= j < |s| && j != i ==> n[s[j]] == Nth(h, s, if j + 1 == i then i + 1 else j + 1)
    requires forall j :: 0 <= j < |s| && j != i ==> p[s[j]] == Before(h, s, if j == i + 1 then i else j)
    ensures Linked(n, p, h, t)
  {
    forall j | 0 <= j < |t|
      ensures t[j] in n && t[j] in p && n[t[j]] == Nth(h, t, j + 1) && p[t[j]] == Before(h, t, j)
    {
      assert t[j] == if j < i then s[j] else s[j + 1];
    }
  }

  /** Linking `x` in changes the ring of `h` as wanted and leaves every other ring alone. */
  lemma AddKeeps(next: Pointers, prev: Pointers, rings: Rings, home: Homes, h: ListHead, i: nat, x: ListHead)
    requires WellFormed(next, prev, rings, home) && Loose(rings, home, x) && x in next && x in prev
    requires h in rings && i <= |rings[h]| && x != h
    ensures WellFormed(NextsWith(next, h, rings[h], i, x), PrevsWith(prev, h, rings[h], i, x),
                       Linkin(rings, h, i, x), home[x := h])
  {
    hide Linked, Apart, NextsWith, PrevsWith;
    var s := rings[h];
    LinkinApart(rings, home, h, i, x);
    RingIs(rings, home, h);
    LooseIsOutside(rings, home, h, x);
    Opened(next, prev, h, s, i, x);
    forall k | k in rings && k != h && k != x
      ensures Linked(NextsWith(next, h, s, i, x), PrevsWith(prev, h, s, i, x), k, rings[k])
    {
      RingsShareNothing(rings, home, h, k);
      LooseIsOutside(rings, home, k, x);
      AddElsewhere(next, prev, h, s, i, x, k, rings[k]);
    }
  }

  lemma AddElsewhere(next: Pointers, prev: Pointers, h: ListHead, s: seq<ListHead>, i: nat, x: ListHead,
                     k: ListHead, r: seq<ListHead>)
    requires Linked(next, prev, k, r) && i <= |s|
    requires k !in s && k != h && k != x && x !in r && forall y :: y in r ==> y !in s && y != h
    ensures Linked(NextsWith(next, h, s, i, x), PrevsWith(prev, h, s, i, x), k, r)
  {
    LinkedNodes(next, prev, k, r);
    assert i > 0 ==> s[i - 1] in s;
    assert i < |s| ==> s[i] in s;
    Untouched(next, prev, NextsWith(next, h, s, i, x), PrevsWith(prev, h, s, i, x), k, r);
  }

  lemma DelElsewhere(next: Pointers, prev: Pointers, h: ListHead, s: seq<ListHead>, i: nat,
                     k: ListHead, r: seq<ListHead>)
    requires Linked(next, prev, k, r) && i < |s|
    requires k !in s && k != h && forall y :: y in r ==> y !in s && y != h
    ensures Linked(NextsWithout(next, h, s, i), PrevsWithout(prev, h, s, i), k, r)
  {
    LinkedNodes(next, prev, k, r);
    assert i > 0 ==> s[i - 1] in s;
    assert i + 1 < |s| ==> s[i + 1] in s;
    assert s[i] in s;
    Untouched(next, prev, NextsWithout(next, h, s, i), PrevsWithout(prev, h, s, i), k, r);
  }

  /** Taking out member number `i` of `h` leaves every other ring alone. */
  lemma DelKeeps(next: Pointers, prev: Pointers, rings: Rings, home: Homes, h: ListHead, i: nat)
    requires WellFormed(next, prev, rings, home) && h in rings && i < |rings[h]|
    ensures var x := rings[h][i];
            && x in home && home[x] == h
            && WellFormed(NextsWithout(next, h, rings[h], i), PrevsWithout(prev, h, rings[h], i),
                          Unlink(rings, h, x), home - {x})
  {
    hide Linked, Apart, NextsWithout, PrevsWithout;
    var s := rings[h];
    var x := s[i];
    RingIs(rings, home, h);
    UnlinkApart(rings, home, x);
    RemoveNth(s, i);
    Closed(next, prev, h, s, i);
    DeletedIsAlone(next, prev, h, s, i);
    forall k | k in rings && k != h && k != x
      ensures Linked(NextsWithout(next, h, s, i), PrevsWithout(prev, h, s, i), k, rings[k])
    {
      RingsShareNothing(rings, home, h, k);
      DelElsewhere(next, prev, h, s, i, k, rings[k]);
    }
  }

  lemma RemoveNth(s: seq<ListHead>, i: nat)
    requires NoDup(s) && i < |s|
    ensures Remove(s, s[i]) == s[..i] + s[i + 1..]
  {
    assert s[i] in s && IndexOf(s, s[i]) == i;
  }

  lemma DeletedIsAlone(next: Pointers, prev: Pointers, h: ListHead, s: seq<ListHead>, i: nat)
    requires i < |s|
    ensures Linked(NextsWithout(next, h, s, i), PrevsWithout(prev, h, s, i), s[i], [])
  {
  }

  lemma LinkedNodes(next: Pointers, prev: Pointers, h: ListHead, s: seq<ListHead>)
    requires Linked(next, prev, h, s)
    ensures h in next && h in prev
    ensures forall y {:trigger y in s} :: y in s ==> y in next && y in prev
  {
  }

  lemma Alone(next: Pointers, prev: Pointers, x: ListHead)
    requires x in next && x in prev && next[x] == x && prev[x] == x
    ensures Linked(next, prev, x, [])
  {
  }

  lemma InitApart(rings: Rings, home: Homes, x: ListHead)
    requires Apart(rings, home) && Loose(rings, home, x)
    ensures Apart(rings[x := []], home)
  {
  }

  lemma InitKeeps(next: Pointers, prev: Pointers, rings: Rings, home: Homes, x: ListHead)
    requires WellFormed(next, prev, rings, home) && Loose(rings, home, x)
    ensures WellFormed(next[x := x], prev[x := x], rings[x := []], home)
  {
    var n, p := next[x := x], prev[x := x];
    InitApart(rings, home, x);
    hide Linked, Apart, Loose;
    Alone(n, p, x);
    forall k | k in rings && k != x ensures Linked(n, p, k, rings[k]) {
      LooseIsOutside(rings, home, k, x);
      LinkedNodes(next, prev, k, rings[k]);
      Untouched(next, prev, n, p, k, rings[k]);
    }
  }

  class Memory {
    ghost const nodes: set<ListHead>
    ghost var rings: Rings
    ghost var home: Homes

    constructor (ghost nodes: set<ListHead>)
      ensures Valid() && this.nodes == nodes && rings == map[] && home == map[]
    {
      this.nodes, rings, home := nodes, map[], map[];
    }

    ghost function Nexts(): Pointers
      reads nodes
    {
      map x | x in nodes :: x.next
    }

    ghost function Prevs(): Pointers
      reads nodes
    {
      map x | x in nodes :: x.prev
    }

    ghost predicate Valid()
      reads this, nodes
    {
      WellFormed(Nexts(), Prevs(), rings, home)
    }

    /** What `Valid` says about the ring of `h`. */
    lemma RingOf(h: ListHead)
      requires Valid() && h in rings
      ensures var s := rings[h];
              && NoDup(s) && h !in s && h !in home && h in nodes
              && h.next == Nth(h, s, 0) && h.prev == Before(h, s, |s|)
              && (forall i {:trigger s[i]} :: 0 <= i < |s| ==> s[i] in nodes && s[i] in home && home[s[i]] == h)
              && (forall i {:trigger s[i].next} :: 0 <= i < |s| ==> s[i].next == Nth(h, s, i + 1))
              && (forall i {:trigger s[i].prev} :: 0 <= i < |s| ==> s[i].prev == Before(h, s, i))
    {
      var s := rings[h];
      RingIs(rings, home, h);
      assert Linked(Nexts(), Prevs(), h, s);
      forall i {:trigger s[i]} | 0 <= i < |s|
        ensures s[i] in nodes && s[i].next == Nth(h, s, i + 1) && s[i].prev == Before(h, s, i)
      {
        assert Nexts()[s[i]] == s[i].next && Prevs()[s[i]] == s[i].prev;
      }
    }

    /** What `Valid` says about member number `i`. */
    lemma MemberOf(h: ListHead, i: nat)
      requires Valid() && h in rings && i < |rings[h]|
      ensures var s := rings[h];
              && s[i] in nodes && s[i].next == Nth(h, s, i + 1) && s[i].prev == Before(h, s, i)
              && Nth(h, s, i + 1) in nodes && Before(h, s, i) in nodes && s[i] != h
              && Nth(h, s, i + 1) != s[i] && Before(h, s, i) != s[i]
    {
      RingOf(h);
      assert rings[h][i] in rings[h];
    }

    /** What `Valid` says about place number `i`. */
    lemma PlaceOf(h: ListHead, i: nat)
      requires Valid() && h in rings && i <= |rings[h]|
      ensures Before(h, rings[h], i) in nodes && Nth(h, rings[h], i) in nodes
      ensures Before(h, rings[h], i).next == Nth(h, rings[h], i)
      ensures Nth(h, rings[h], i).prev == Before(h, rings[h], i)
    {
      RingOf(h);
    }

    /** `INIT_LIST_HEAD`. */
    method InitListHead(list: ListHead)
      requires Valid() && list in nodes && Loose(rings, home, list)
      modifies this`rings, list
      ensures Valid() && rings == old(rings)[list := []]
    {
      hide WellFormed;
      ghost var n: Pointers, p: Pointers := Nexts(), Prevs();
      InitKeeps(n, p, rings, home, list);
      list.next := list;
      list.prev := list;
      rings := rings[list := []];
      assert Nexts() == n[list := list] && Prevs() == p[list := list];
    }

    /** `__list_add(x, prev, next)`, where `prev` and `next` are neighbours in the ring of `h`. */
    method AddBetween(x: ListHead, prev: ListHead, next: ListHead, ghost h: ListHead, ghost i: nat)
      requires Valid() && x in nodes && Loose(rings, home, x) && x != h
      requires h in rings && i <= |rings[h]| && prev == Before(h, rings[h], i) && next == Nth(h, rings[h], i)
      modifies this, x, prev, next
      ensures Valid()
      ensures rings == Linkin(old(rings), h, i, x) && home == old(home)[x := h]
    {
      hide *;
      ghost var s := rings[h];
      Whole();
      InNodes(x);
      PlaceOf(h, i);
      AddKeeps(Nexts(), Prevs(), rings, home, h, i, x);
      WithIs(Nexts(), Prevs(), h, s, i, x);
      PutBetween(x, prev, next);
      rings, home := Linkin(rings, h, i, x), home[x := h];
      Whole();
    }

    /** Its four assignments. */
    method PutBetween(x: ListHead, prev: ListHead, next: ListHead)
      requires x in nodes && prev in nodes && next in nodes
      modifies x, prev, next
      ensures Nexts() == old(Nexts())[x := next][prev := x] && Prevs() == old(Prevs())[next := x][x := prev]
    {
      next.prev := x;
      x.next := next;
      x.prev := prev;
      prev.next := x;
    }

    lemma Whole()
      ensures Valid() <==> WellFormed(Nexts(), Prevs(), rings, home)
    {
    }

    lemma InNodes(x: ListHead)
      ensures x in nodes <==> x in Nexts()
      ensures x in nodes <==> x in Prevs()
    {
    }

    /** `list_add(x, head)` where `head` is the node in front of place `i` of `h`. */
    method ListAdd(x: ListHead, head: ListHead, ghost h: ListHead, ghost i: nat)
      requires Valid() && x in nodes && Loose(rings, home, x) && x != h
      requires h in rings && i <= |rings[h]| && head == Before(h, rings[h], i)
      modifies this, nodes
      ensures Valid()
      ensures rings == Linkin(old(rings), h, i, x) && home == old(home)[x := h]
    {
      hide WellFormed;
      PlaceOf(h, i);
      AddBetween(x, head, head.next, h, i);
    }

    method ListAddTail(x: ListHead, head: ListHead)
      requires Valid() && x in nodes && Loose(rings, home, x) && x != head && head in rings
      modifies this, nodes
      ensures Valid()
      ensures rings == Linkin(old(rings), head, |old(rings)[head]|, x) && home == old(home)[x := head]
    {
      hide WellFormed;
      PlaceOf(head, |rings[head]|);
      AddBetween(x, head.prev, head, head, |rings[head]|);
    }

    /** `list_del` with the `__list_del` in it. */
    method ListDel(entry: ListHead, ghost h: ListHead, ghost i: nat)
      requires Valid() && h in rings && i < |rings[h]| && entry == rings[h][i]
      modifies this, nodes
      ensures Valid()
      ensures rings == Unlink(old(rings), h, entry) && home == old(home) - {entry}
    {
      hide *;
      Whole();
      DelKeeps(Nexts(), Prevs(), rings, home, h, i);
      MemberOf(h, i);
      WithoutIs(Nexts(), Prevs(), h, rings[h], i);
      CloseOver(entry, entry.prev, entry.next);
      rings, home := Unlink(rings, h, entry), home - {entry};
      Whole();
    }

    /** Its four assignments, the first two those of `__list_del`. */
    method CloseOver(entry: ListHead, prev: ListHead, next: ListHead)
      requires entry in nodes && prev in nodes && next in nodes
      modifies entry, prev, next
      ensures Nexts() == old(Nexts())[prev := next][entry := entry] && Prevs() == old(Prevs())[next := prev][entry := entry]
    {
      next.prev := prev;
      prev.next := next;
      entry.next := entry;
      entry.prev := entry;
    }

    /** `list_empty`: only the head of an empty ring points to itself. */
    method ListEmpty(head: ListHead) returns (empty: bool)
      requires Valid() && (head in rings || (head in home && home[head] in rings && head in rings[home[head]]))
      ensures empty <==> head in rings && rings[head] == []
    {
      if head in home {
        RingOf(home[head]);
        ghost var s := rings[home[head]];
        assert s[IndexOf(s, head)] == head;
      } else {
        RingOf(head);
      }
      empty := head.next == head;
    }

    /** `list_is_last`. */
    method ListIsLast(list: ListHead, head: ListHead, ghost i: nat) returns (last: bool)
      requires Valid() && head in rings && i < |rings[head]| && list == rings[head][i]
      ensures last <==> i == |rings[head]| - 1
    {
      RingOf(head);
      last := list.next == head;
    }

    /** `list_next`; the head itself follows the last member. */
    method ListNext(current: ListHead, ghost h: ListHead, ghost i: nat) returns (next: ListHead?)
      requires Valid() && h in rings && i <= |rings[h]| && current == Before(h, rings[h], i)
      ensures next == if rings[h] == [] then null else Nth(h, rings[h], i)
    {
      RingOf(h);
      next := if current.next == current then null else current.next;
    }

    /** `list_prev`; before the first member comes the head, before the head the last. */
    method ListPrev(current: ListHead, ghost h: ListHead, ghost i: nat) returns (prev: ListHead?)
      requires Valid() && h in rings && i <= |rings[h]| && current == Nth(h, rings[h], i)
      ensures prev == if rings[h] == [] then null else Before(h, rings[h], i)
    {
      RingOf(h);
      prev := if current.next == current then null else current.prev;
    }
  }
}
