/**
 The process queues of phase1/pcb.c, seen as sequences: what `insertProcQ`,
 `outProcQ` and `removeProcQ` do to the contents of a queue.
 */
module ProcQueue {
  import opened Processes

  type Prios = t: seq<int> | |t| == MAXPROC witness seq(MAXPROC, i => 0)

  ghost predicate NoDup<T>(q: seq<T>) {
    forall i, j :: 0 <= i < j < |q| ==> q[i] != q[j]
  }

  ghost predicate Sorted(q: seq<Proc>, prio: Prios) {
    forall i, j :: 0 <= i < j < |q| ==> prio[q[i]] >= prio[q[j]]
  }

  /** Where the first process of lower priority than `k` stands. */
  function Slot(q: seq<Proc>, prio: Prios, k: int): (i: nat)
    ensures i <= |q|
    ensures forall j :: 0 <= j < i ==> prio[q[j]] >= k
    ensures i < |q| ==> prio[q[i]] < k
  {
    if q == [] || k > prio[q[0]] then 0 else 1 + Slot(q[1..], prio, k)
  }

  /** The queue after `insertProcQ(q, p)`. */
  function Insert(q: seq<Proc>, prio: Prios, p: Proc): seq<Proc> {
    var i := Slot(q, prio, prio[p]);
    q[..i] + [p] + q[i..]
  }

  /** The queue after a series of insertions. */
  function InsertAll(q: seq<Proc>, prio: Prios, ps: seq<Proc>): seq<Proc>
    decreases |ps|
  {
    if ps == [] then q else InsertAll(Insert(q, prio, ps[0]), prio, ps[1..])
  }

  function IndexOf<T(==)>(q: seq<T>, p: T): (i: nat)
    ensures i <= |q|
    ensures forall j :: 0 <= j < i ==> q[j] != p
    ensures i < |q| ==> q[i] == p
    ensures i < |q| <==> p in q
  {
    if q == [] || q[0] == p then 0 else 1 + IndexOf(q[1..], p)
  }

  /** The queue after `outProcQ(q, p)`. */
  function Remove<T(==)>(q: seq<T>, p: T): seq<T> {
    var i := IndexOf(q, p);
    if i < |q| then q[..i] + q[i + 1..] else q
  }

  /** The queue with every member of `D` taken out and the others in their old order. */
  function Minus<T(==)>(q: seq<T>, D: set<T>): seq<T> {
    if q == [] then []
    else if q[0] in D then Minus(q[1..], D)
    else [q[0]] + Minus(q[1..], D)
  }

  /** The members of one priority band, in queue order. */
  function Level(q: seq<Proc>, prio: Prios, k: int): seq<Proc> {
    if q == [] then []
    else if prio[q[0]] == k then [q[0]] + Level(q[1..], prio, k)
    else Level(q[1..], prio, k)
  }

  // ---------------------------------------------------------------- insertion

  lemma InsertMembers(q: seq<Proc>, prio: Prios, p: Proc)
    ensures |Insert(q, prio, p)| == |q| + 1
    ensures forall x :: x in Insert(q, prio, p) <==> x in q || x == p
    ensures p !in q && NoDup(q) ==> NoDup(Insert(q, prio, p))
  {
    hide Slot, NoDup;
    var i := Slot(q, prio, prio[p]);
    assert q == q[..i] + q[i..];
    if p !in q && NoDup(q) {
      InsertNoDup(q, i, p);
    }
  }

  lemma InsertNoDup(q: seq<Proc>, i: nat, p: Proc)
    requires NoDup(q) && p !in q && i <= |q|
    ensures NoDup(q[..i] + [p] + q[i..])
  {
    var r := q[..i] + [p] + q[i..];
    forall a, b | 0 <= a < b < |r| ensures r[a] != r[b] {
      assert r[a] == if a < i then q[a] else if a == i then p else q[a - 1];
      assert r[b] == if b < i then q[b] else if b == i then p else q[b - 1];
    }
  }

  lemma InsertSorted(q: seq<Proc>, prio: Prios, p: Proc)
    requires Sorted(q, prio)
    ensures Sorted(Insert(q, prio, p), prio)
  {
    var i := Slot(q, prio, prio[p]);
    var r := Insert(q, prio, p);
    forall a, b | 0 <= a < b < |r| ensures prio[r[a]] >= prio[r[b]] {
      assert forall j :: i <= j < |q| ==> prio[q[j]] < prio[p];
    }
  }

  lemma {:induction false} LevelConcat(q: seq<Proc>, r: seq<Proc>, prio: Prios, k: int)
    ensures Level(q + r, prio, k) == Level(q, prio, k) + Level(r, prio, k)
  {
    if q == [] {
      assert q + r == r;
    } else {
      var t := q + r;
      LevelConcat(q[1..], r, prio, k);
      assert t[0] == q[0] && t[1..] == q[1..] + r;
    }
  }

  lemma {:induction false} LevelEmpty(q: seq<Proc>, prio: Prios, k: int)
    requires forall j :: 0 <= j < |q| ==> prio[q[j]] != k
    ensures Level(q, prio, k) == []
  {
    if q != [] {
      LevelEmpty(q[1..], prio, k);
    }
  }

  lemma {:induction false} LevelHead(q: seq<Proc>, prio: Prios)
    requires q != []
    ensures Level(q, prio, prio[q[0]]) != [] && Level(q, prio, prio[q[0]])[0] == q[0]
  {
  }

  lemma {:induction false} LevelMember(q: seq<Proc>, prio: Prios, k: int, x: Proc)
    requires x in Level(q, prio, k)
    ensures x in q && prio[x] == k
  {
    if q != [] && x in Level(q[1..], prio, k) {
      LevelMember(q[1..], prio, k, x);
    }
  }

  /** Insertion is FIFO inside its own priority band and does not disturb the others. */
  lemma InsertIsFifo(q: seq<Proc>, prio: Prios, p: Proc, k: int)
    requires Sorted(q, prio)
    ensures Level(Insert(q, prio, p), prio, k)
         == Level(q, prio, k) + (if prio[p] == k then [p] else [])
  {
    hide Level, Sorted, Slot;
    var i := Slot(q, prio, prio[p]);
    assert q == q[..i] + q[i..];
    LevelSplit(q[..i], p, q[i..], prio, k);
    if prio[p] == k {
      NoneBehindSlot(q, prio, k);
    }
  }

  lemma LevelSplit(front: seq<Proc>, p: Proc, back: seq<Proc>, prio: Prios, k: int)
    ensures Level(front + [p] + back, prio, k)
         == Level(front, prio, k) + (if prio[p] == k then [p] else []) + Level(back, prio, k)
    ensures Level(front + back, prio, k) == Level(front, prio, k) + Level(back, prio, k)
  {
    LevelConcat(front, back, prio, k);
    LevelConcat(front + [p], back, prio, k);
    LevelConcat(front, [p], prio, k);
    assert Level([p], prio, k) == if prio[p] == k then [p] else [];
  }

  lemma NoneBehindSlot(q: seq<Proc>, prio: Prios, k: int)
    requires Sorted(q, prio)
    ensures Level(q[Slot(q, prio, k)..], prio, k) == []
  {
    var i := Slot(q, prio, k);
    forall j | i <= j < |q| ensures prio[q[j]] < k {
      assert prio[q[i]] >= prio[q[j]];
    }
    LevelEmpty(q[i..], prio, k);
  }

  /** Among processes of equal priority insertion is appending. */
  lemma EqualPrioritiesAppend(q: seq<Proc>, prio: Prios, p: Proc)
    requires forall x :: x in q ==> prio[x] == prio[p]
    ensures Insert(q, prio, p) == q + [p]
  {
    assert forall j :: 0 <= j < |q| ==> q[j] in q;
  }

  /** A series of insertions is a stable merge: sorted, and in every priority
      band the old members first, then the new ones in their given order. */
  lemma {:induction false} InsertAllIsStableMerge(q: seq<Proc>, prio: Prios, ps: seq<Proc>)
    requires Sorted(q, prio)
    ensures Sorted(InsertAll(q, prio, ps), prio)
    ensures forall k :: Level(InsertAll(q, prio, ps), prio, k)
                     == Level(q, prio, k) + Level(ps, prio, k)
    decreases |ps|
  {
    if ps != [] {
      InsertSorted(q, prio, ps[0]);
      InsertAllIsStableMerge(Insert(q, prio, ps[0]), prio, ps[1..]);
      forall k ensures Level(InsertAll(q, prio, ps), prio, k)
                    == Level(q, prio, k) + Level(ps, prio, k) {
        InsertIsFifo(q, prio, ps[0], k);
        assert ps == [ps[0]] + ps[1..];
      }
    }
  }

  /** Sortedness and the bands together leave no freedom: they determine the queue. */
  lemma {:induction false} BandsDetermineQueue(q: seq<Proc>, r: seq<Proc>, prio: Prios)
    requires Sorted(q, prio) && Sorted(r, prio)
    requires forall k :: Level(q, prio, k) == Level(r, prio, k)
    ensures q == r
  {
    if q == [] && r != [] {
      LevelHead(r, prio);
    } else if q != [] && r == [] {
      LevelHead(q, prio);
    } else if q != [] {
      LevelHead(q, prio);
      LevelHead(r, prio);
      var kq, kr := prio[q[0]], prio[r[0]];
      LevelMember(r, prio, kq, q[0]);
      LevelMember(q, prio, kr, r[0]);
      assert kq == kr;
      forall k ensures Level(q[1..], prio, k) == Level(r[1..], prio, k) {
        var a, b := Level(q, prio, k), Level(r, prio, k);
        assert Level(q[1..], prio, k) == if k == kq then a[1..] else a;
        assert Level(r[1..], prio, k) == if k == kq then b[1..] else b;
      }
      BandsDetermineQueue(q[1..], r[1..], prio);
      assert q == [q[0]] + q[1..] && r == [r[0]] + r[1..];
    }
  }

  // ------------------------------------------------------------------ removal

  lemma RemoveMembers<T>(q: seq<T>, p: T)
    requires NoDup(q)
    ensures NoDup(Remove(q, p))
    ensures forall x :: x in Remove(q, p) ==> x in q && x != p
    ensures forall x :: x in q && x != p ==> x in Remove(q, p)
    ensures |Remove(q, p)| == if p in q then |q| - 1 else |q|
  {
    var i := IndexOf(q, p);
    if i < |q| {
      assert q == q[..i] + [p] + q[i + 1..];
    }
  }

  lemma RemoveSorted(q: seq<Proc>, p: Proc, prio: Prios)
    requires Sorted(q, prio)
    ensures Sorted(Remove(q, p), prio)
  {
  }

  lemma {:induction false} MinusMembers<T(!new)>(q: seq<T>, D: set<T>)
    ensures forall x :: x in Minus(q, D) <==> x in q && x !in D
    ensures |Minus(q, D)| <= |q|
  {
    if q != [] {
      MinusMembers(q[1..], D);
      assert q == [q[0]] + q[1..];
    }
  }

  lemma {:induction false} MinusNone<T(!new)>(q: seq<T>, D: set<T>)
    requires forall x :: x in q ==> x !in D
    ensures Minus(q, D) == q
  {
    if q != [] {
      assert q[0] in q;
      MinusNone(q[1..], D);
    }
  }

  /** Taking out one more member of a duplicate-free queue. */
  lemma {:induction false} MinusRemove<T(!new)>(q: seq<T>, D: set<T>, p: T)
    requires NoDup(q)
    ensures Minus(q, D + {p}) == Remove(Minus(q, D), p)
  {
    if q != [] {
      MinusRemove(q[1..], D, p);
      var m := Minus(q[1..], D);
      if q[0] == p {
        MinusSame(q[1..], D, D + {p});
        MinusMembers(q[1..], D);
      } else if q[0] !in D {
        RemoveCons(q[0], m, p);
      }
    }
  }

  lemma RemoveCons<T>(x: T, q: seq<T>, p: T)
    requires x != p
    ensures Remove([x] + q, p) == [x] + Remove(q, p)
  {
    var r, i := [x] + q, IndexOf(q, p);
    assert r[1..] == q && r[0] == x;
    assert IndexOf(r, p) == i + 1;
    if i < |q| {
      assert r[..i + 1] == [x] + q[..i];
      assert r[i + 2..] == q[i + 1..];
    }
  }

  lemma {:induction false} MinusMinus<T(!new)>(q: seq<T>, D: set<T>, E: set<T>)
    ensures Minus(Minus(q, D), E) == Minus(q, D + E)
  {
    if q != [] {
      MinusMinus(q[1..], D, E);
      if q[0] !in D {
        assert Minus(q, D)[1..] == Minus(q[1..], D);
      }
    }
  }

  lemma MinusOne<T(!new)>(q: seq<T>, p: T, D: set<T>)
    requires NoDup(q)
    ensures Minus(Remove(q, p), D) == Minus(q, {p} + D)
  {
    MinusNone(q, {});
    MinusRemove(q, {}, p);
    assert {} + {p} == {p};
    MinusMinus(q, {p}, D);
  }

  lemma {:induction false} MinusSame<T(!new)>(q: seq<T>, D: set<T>, E: set<T>)
    requires forall x :: x in q ==> (x in D <==> x in E)
    ensures Minus(q, D) == Minus(q, E)
  {
    if q != [] {
      assert q[0] in q;
      MinusSame(q[1..], D, E);
    }
  }

  // --------------------------------------------------------- bounded waiting

  /** An entry of the ready queue and the priority it was inserted with. */
  datatype Entry = Entry(p: Proc, prio: int)

  /** What happens to the ready queue: an insertion, a dispatch of the head, or
      a removal from the middle by forced termination. */
  datatype QEvent = Enq(e: Entry) | Deq | Del(p: Proc)

  function EntrySlot(q: seq<Entry>, k: int): (i: nat)
    ensures i <= |q|
    ensures forall j :: 0 <= j < i ==> q[j].prio >= k
    ensures i < |q| ==> q[i].prio < k
  {
    if q == [] || k > q[0].prio then 0 else 1 + EntrySlot(q[1..], k)
  }

  function Apply(q: seq<Entry>, ev: QEvent): seq<Entry> {
    match ev
    case Enq(e) => var i := EntrySlot(q, e.prio); q[..i] + [e] + q[i..]
    case Deq => if q == [] then [] else q[1..]
    case Del(p) => DropProc(q, p)
  }

  function DropProc(q: seq<Entry>, p: Proc): (r: seq<Entry>)
    ensures |r| <= |q|
  {
    if q == [] then [] else if q[0].p == p then q[1..] else [q[0]] + DropProc(q[1..], p)
  }

  function Replay(q: seq<Entry>, log: seq<QEvent>): seq<Entry> {
    if log == [] then q else Apply(Replay(q, log[..|log| - 1]), log[|log| - 1])
  }

  /** The number of entries before the first one of process `x`. */
  function Ahead(q: seq<Entry>, x: Proc): (n: nat)
    ensures n <= |q|
    ensures n < |q| ==> q[n].p == x
    ensures forall j :: 0 <= j < n ==> q[j].p != x
  {
    if q == [] || q[0].p == x then 0 else 1 + Ahead(q[1..], x)
  }

  function Dispatches(log: seq<QEvent>): nat {
    if log == [] then 0
    else Dispatches(log[..|log| - 1]) + (if log[|log| - 1].Deq? then 1 else 0)
  }

  function HigherInsertions(log: seq<QEvent>, k: int): nat {
    if log == [] then 0
    else HigherInsertions(log[..|log| - 1], k)
         + (var ev := log[|log| - 1]; if ev.Enq? && ev.e.prio > k then 1 else 0)
  }

  ghost predicate EntriesSorted(q: seq<Entry>) {
    forall i, j :: 0 <= i < j < |q| ==> q[i].prio >= q[j].prio
  }

  lemma {:induction false} DropProcSorted(q: seq<Entry>, p: Proc)
    requires EntriesSorted(q)
    ensures EntriesSorted(DropProc(q, p))
    ensures forall e :: e in DropProc(q, p) ==> e in q
  {
    if q != [] {
      DropProcSorted(q[1..], p);
      var r := DropProc(q[1..], p);
      forall j | 0 <= j < |r| ensures q[0].prio >= r[j].prio {
        assert r[j] in q[1..];
      }
    }
  }

  lemma ApplySorted(q: seq<Entry>, ev: QEvent)
    requires EntriesSorted(q)
    ensures EntriesSorted(Apply(q, ev))
  {
    match ev
    case Deq =>
    case Del(p) => DropProcSorted(q, p);
    case Enq(e) => EnqSorted(q, e);
  }

  lemma EnqSorted(q: seq<Entry>, e: Entry)
    requires EntriesSorted(q)
    ensures EntriesSorted(Apply(q, Enq(e)))
  {
    var i, r := EntrySlot(q, e.prio), Apply(q, Enq(e));
    assert forall j :: i <= j < |q| ==> q[j].prio < e.prio;
    forall a, b | 0 <= a < b < |r| ensures r[a].prio >= r[b].prio {
      assert r[a] == if a < i then q[a] else if a == i then e else q[a - 1];
      assert r[b] == if b < i then q[b] else if b == i then e else q[b - 1];
    }
  }

  predicate Absent(q: seq<Entry>, x: Proc) { Ahead(q, x) == |q| }

  /** Nobody is inserted who stands in the queue already. */
  ghost predicate NoneTwice(q: seq<Entry>, log: seq<QEvent>) {
    forall n :: 0 <= n < |log| && log[n].Enq? ==> Absent(Replay(q, log[..n]), log[n].e.p)
  }

  /** `x` has priority `k`, waits in `q`, and is neither dispatched nor removed by `log`. */
  ghost predicate KeepsWaiting(q: seq<Entry>, x: Proc, k: int, log: seq<QEvent>) {
    && !Absent(q, x) && q[Ahead(q, x)].prio == k
    && forall n :: 0 <= n < |log| ==>
         && (log[n].Deq? ==> Ahead(Replay(q, log[..n]), x) != 0)
         && (log[n].Del? ==> log[n].p != x)
  }

  lemma DropProcAhead(q: seq<Entry>, p: Proc, x: Proc)
    requires p != x && Ahead(q, x) < |q|
    ensures Ahead(DropProc(q, p), x) < |DropProc(q, p)|
    ensures Ahead(DropProc(q, p), x) <= Ahead(q, x)
    ensures DropProc(q, p)[Ahead(DropProc(q, p), x)] == q[Ahead(q, x)]
  {
  }

  lemma AheadIs(q: seq<Entry>, x: Proc, n: nat)
    requires n < |q| && q[n].p == x && forall j :: 0 <= j < n ==> q[j].p != x
    ensures Ahead(q, x) == n
  {
  }

  lemma EnqAhead(q: seq<Entry>, x: Proc, e: Entry)
    requires EntriesSorted(q)
    requires Ahead(q, x) < |q| && e.p != x
    ensures var r := Apply(q, Enq(e));
            var n, m := Ahead(q, x), Ahead(r, x);
            && m < |r| && r[m] == q[n] && m <= n + 1
            && (e.prio <= q[n].prio ==> m <= n)
  {
    hide Ahead, EntrySlot;
    var n, i := Ahead(q, x), EntrySlot(q, e.prio);
    var r := Apply(q, Enq(e));
    var m := if i <= n then n + 1 else n;
    forall j | 0 <= j <= m ensures r[j] == if j < i then q[j] else if j == i then e else q[j - 1] { }
    AheadIs(r, x, m);
    if i <= n {
      assert q[i].prio >= q[n].prio;
    }
  }

  lemma ApplyAhead(q: seq<Entry>, x: Proc, ev: QEvent)
    requires EntriesSorted(q)
    requires Ahead(q, x) < |q|
    requires ev.Deq? ==> Ahead(q, x) != 0
    requires ev.Del? ==> ev.p != x
    requires ev.Enq? ==> ev.e.p != x
    ensures var r := Apply(q, ev);
            var n, m := Ahead(q, x), Ahead(r, x);
            && m < |r| && r[m] == q[n]
            && (ev.Deq? ==> m == n - 1)
            && (ev.Del? ==> m <= n)
            && (ev.Enq? ==> m <= n + 1 && (ev.e.prio <= q[n].prio ==> m <= n))
  {
    var n := Ahead(q, x);
    match ev
    case Deq => AheadIs(q[1..], x, n - 1);
    case Del(p) => DropProcAhead(q, p, x);
    case Enq(e) =>
      EnqAhead(q, x, e);
  }

  /**
   Bounded waiting. While a process with m entries ahead of it keeps waiting, the
   number of dispatches is at most m plus the number of later insertions of
   strictly higher priority; so dispatch number m + 1 + (those insertions) must be its own.
   */
  lemma {:induction false} BoundedWaiting(q: seq<Entry>, x: Proc, k: int, log: seq<QEvent>)
    requires EntriesSorted(q) && NoneTwice(q, log) && KeepsWaiting(q, x, k, log)
    ensures var r := Replay(q, log);
            && EntriesSorted(r)
            && Ahead(r, x) < |r| && r[Ahead(r, x)].prio == k
            && Dispatches(log) + Ahead(r, x) <= Ahead(q, x) + HigherInsertions(log, k)
  {
    if log != [] {
      var front, ev := log[..|log| - 1], log[|log| - 1];
      forall n | 0 <= n < |front| ensures front[..n] == log[..n] { }
      BoundedWaiting(q, x, k, front);
      assert Replay(q, log[..|log| - 1]) == Replay(q, front);
      assert log[..|front|] == front;
      ApplyAhead(Replay(q, front), x, ev);
      ApplySorted(Replay(q, front), ev);
    }
  }
}
