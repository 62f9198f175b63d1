/**
 `recursiveTerminateProcess` (phase2/functions.c:224-282): the recursion that edits
 the tree, every queue and all counters at once, and the proof that what it does is
 exactly to take the target's subtree out of the system.
 */
module Termination {
  import opened Processes
  import opened ProcQueue
  import opened ProcTree
  import opened Scheduling
  import opened SchedulingKeeps
  import Asl = SemList

  ghost function Unmarked(f: Forest): set<Proc> { set p: Proc | 0 <= f.t[p].pid }

  /** The routine itself. It terminates because each call marks one more process. */
  ghost function Kill(f: Forest, q: Sched, p: Proc): (r: (Forest, Sched))
    ensures Unmarked(r.0) <= Unmarked(f)
    ensures forall x: Proc :: |r.0.t[x].children| <= |f.t[x].children|
    decreases Unmarked(f), 0
  {
    if f.t[p].pid < 0 then (f, q)
    else
      assert p in Unmarked(f) && p !in Unmarked(Mark(f, p));
      var (f1, q1) := KillChildren(Mark(f, p), q, p);
      (OutChild(f1, p), Unqueue(q1, p))
  }

  /** Its loop over `removeChild`. */
  ghost function KillChildren(f: Forest, q: Sched, p: Proc): (r: (Forest, Sched))
    ensures Unmarked(r.0) <= Unmarked(f)
    ensures forall x: Proc :: |r.0.t[x].children| <= |f.t[x].children|
    decreases Unmarked(f), 1 + |f.t[p].children|
  {
    if f.t[p].children == [] then (f, q)
    else
      var g := RemoveChild(f, p);
      assert Unmarked(g) == Unmarked(f);
      var (f1, q1) := Kill(g, q, f.t[p].children[0]);
      assert |f1.t[p].children| < |f.t[p].children|;
      KillChildren(f1, q1, p)
  }

  // ------------------------------------------------------------ the effect on the tree

  /** As far as pids and child lists go, `f` still has the part `D` of the tree `f0`. */
  ghost predicate Agree(f0: Forest, f: Forest, D: seq<Proc>) {
    forall x {:trigger x in D} :: x in D ==> f.t[x].pid == f0.t[x].pid && f.t[x].children == f0.t[x].children
  }

  /** All of `D` is dead, the rest of the table is as before. */
  ghost predicate Dead(t: Nodes, t': Nodes, D: seq<Proc>) {
    forall x: Proc :: t'[x] == if x in D then Node(None, [], -1) else t[x]
  }

  lemma {:induction false} UnqueueAllConcat(q: Sched, ps: seq<Proc>, rs: seq<Proc>)
    ensures UnqueueAll(q, ps + rs) == UnqueueAll(UnqueueAll(q, ps), rs)
    decreases |ps|
  {
    hide Unqueue;
    if ps == [] {
      assert ps + rs == rs;
    } else {
      UnqueueAllConcat(Unqueue(q, ps[0]), ps[1..], rs);
      assert (ps + rs)[1..] == ps[1..] + rs;
    }
  }

  /**
   Terminating `p` in a state `f` that still contains the subtree it has in `f0`:
   the queues see exactly the members of the subtree, in postorder, and the tree
   loses exactly them.
   */
  lemma {:induction false} KillIsExact(f0: Forest, f: Forest, q: Sched, p: Proc)
    requires TreeInv(f0) && Live(f0, p) && Agree(f0, f, Post(f0, p))
    requires f.t[p].parent.Some? ==> f.t[p].parent.value !in Post(f0, p)
    ensures Kill(f, q, p).1 == UnqueueAll(q, Post(f0, p))
    ensures var g := Kill(f, q, p).0; g == f.(t := g.t) && Erased(f.t, g.t, p, Post(f0, p))
    decreases f0.next - f0.t[p].pid, 1, 0
  {
    hide Unqueue, OutChild, PidsDistinct, OneRoot, ParentsKnown, Dead, Erased;
    var cs := f0.t[p].children;
    var below := PostAll(f0, p, cs);
    assert Post(f0, p) == below + [p];
    assert p in Post(f0, p);
    ParentNotBelow(f0, p, cs);
    assert forall x :: x in below ==> x in Post(f0, p);
    var m := Mark(f, p);
    PostAllMembersLive(f0, p, cs);
    KillChildrenIsExact(f0, m, q, p, cs);
    var (f1, q1) := KillChildren(m, q, p);
    UnqueueAllConcat(q, below, [p]);
    assert UnqueueAll(q1, [p]) == Unqueue(q1, p);
    KillErases(f, m, f1, p, below);
  }

  lemma PostAllMembersLive(f: Forest, p: Proc, cs: seq<Proc>)
    requires TreeInv(f) && Live(f, p) && forall c :: c in cs ==> c in f.t[p].children
    ensures forall x :: x in PostAll(f, p, cs) ==> Live(f, x)
  {
    forall x | x in PostAll(f, p, cs) ensures Live(f, x) {
      PostAllMembers(f, p, cs, x);
    }
  }

  lemma KillErases(f: Forest, m: Forest, f1: Forest, p: Proc, below: seq<Proc>)
    requires m == Mark(f, p) && p !in below
    requires f.t[p].parent.Some? ==> f.t[p].parent.value !in below + [p]
    requires f1 == f.(t := f1.t)
    requires Dead(m.t[p := m.t[p].(children := [])], f1.t, below)
    ensures var g := OutChild(f1, p); g == f.(t := g.t) && Erased(f.t, g.t, p, below + [p])
  {
    var g := OutChild(f1, p);
    assert f1.t[p] == Node(f.t[p].parent, [], -1);
    forall x: Proc ensures g.t[x] ==
      if x in below + [p] then Node(None, [], -1)
      else if f.t[p].parent == Some(x) then f.t[x].(children := Remove(f.t[x].children, p))
      else f.t[x]
    {
      if x != p { assert x in below + [p] <==> x in below; }
    }
  }

  lemma {:induction false} KillChildrenIsExact(f0: Forest, f: Forest, q: Sched, p: Proc, cs: seq<Proc>)
    requires TreeInv(f0) && Live(f0, p)
    requires forall c :: c in cs ==> c in f0.t[p].children
    requires NoDup(cs) && f.t[p].children == cs
    requires Agree(f0, f, PostAll(f0, p, cs))
    ensures KillChildren(f, q, p).1 == UnqueueAll(q, PostAll(f0, p, cs))
    ensures var g := KillChildren(f, q, p).0;
            g == f.(t := g.t) && Dead(f.t[p := f.t[p].(children := [])], g.t, PostAll(f0, p, cs))
    decreases f0.next - f0.t[p].pid, 0, |cs|
  {
    if cs == [] {
      assert f.t[p := f.t[p].(children := [])] == f.t;
    } else {
      hide Unqueue, PidsDistinct, OneRoot, ParentsKnown, ChildrenKnown, Agree, Dead, Erased;
      var c, rest := cs[0], cs[1..];
      var a, b := FirstChild(f0, p, cs);
      var g := RemoveChild(f, p);
      ChildOff(f0, f, p, c, a, b);
      KillIsExact(f0, g, q, c);
      var (f1, q1) := Kill(g, q, c);
      ChildGone(f0, f, f1, p, c, a, b);
      KillChildrenIsExact(f0, f1, q1, p, rest);
      UnqueueAllConcat(q, a, b);
      DeadCompose(f, g, f1, KillChildren(f, q, p).0, p, c, a, b);
    }
  }

  lemma ChildOff(f0: Forest, f: Forest, p: Proc, c: Proc, a: seq<Proc>, b: seq<Proc>)
    requires f.t[p].children != [] && f.t[p].children[0] == c
    requires p != c && c in a && p !in a && Agree(f0, f, a + b)
    ensures Agree(f0, RemoveChild(f, p), a) && RemoveChild(f, p).t[c].parent.None?
  {
    forall x | x in a ensures x in a + b { }
  }

  lemma ChildGone(f0: Forest, f: Forest, f1: Forest, p: Proc, c: Proc, a: seq<Proc>, b: seq<Proc>)
    requires f.t[p].children != [] && f.t[p].children[0] == c
    requires p != c && c in a && p !in a && p !in b && Agree(f0, f, a + b)
    requires forall x :: x in b ==> x !in a
    requires Erased(RemoveChild(f, p).t, f1.t, c, a)
    ensures Dead(RemoveChild(f, p).t, f1.t, a)
    ensures Agree(f0, f1, b) && f1.t[p].children == f.t[p].children[1..]
  {
    forall x | x in b ensures x in a + b { }
  }

  lemma FirstChild(f: Forest, p: Proc, cs: seq<Proc>) returns (a: seq<Proc>, b: seq<Proc>)
    requires TreeInv(f) && Live(f, p) && forall c :: c in cs ==> c in f.t[p].children
    requires NoDup(cs) && cs != []
    ensures Live(f, cs[0]) && f.t[p].pid < f.t[cs[0]].pid < f.next
    ensures a == Post(f, cs[0]) && b == PostAll(f, p, cs[1..]) && PostAll(f, p, cs) == a + b
    ensures p !in a && p !in b && cs[0] in a && p != cs[0]
    ensures forall x :: x in b ==> x !in a
  {
    var c := cs[0];
    assert c in cs;
    ChildYounger(f, p, c);
    a, b := Post(f, c), PostAll(f, p, cs[1..]);
    ParentNotBelow(f, p, cs);
    assert p !in a + b;
    forall x | x in b ensures x !in a { FirstChildApart(f, p, cs, x); }
    PostMembers(f, c, c);
  }

  lemma DeadCompose(f: Forest, g: Forest, f1: Forest, f2: Forest, p: Proc, c: Proc,
                    a: seq<Proc>, b: seq<Proc>)
    requires f.t[p].children != [] && f.t[p].children[0] == c && g == RemoveChild(f, p)
    requires p != c && c in a && p !in a && p !in b
    requires Dead(g.t, f1.t, a)
    requires Dead(f1.t[p := f1.t[p].(children := [])], f2.t, b)
    ensures Dead(f.t[p := f.t[p].(children := [])], f2.t, a + b)
  {
    assert f1.t[p] == f.t[p].(children := f.t[p].children[1..]);
  }

  // ---------------------------------------------------------- the effect on the queues

  function Reverse<T>(s: seq<T>): seq<T> {
    if s == [] then [] else Reverse(s[1..]) + [s[0]]
  }

  /** What is left of everything but the semaphores when the members of `ps` have gone. */
  ghost predicate CutFields(q: Sched, r: Sched, ps: seq<Proc>) {
    && r.free == Reverse(ps) + q.free
    && r.ready == Minus(q.ready, Members(ps))
    && r.asl.active.Keys == q.asl.active.Keys && r.asl.free == q.asl.free
    && r.current == (if q.current.Some? && q.current.value in ps then None else q.current)
    && r.processCount == q.processCount - |ps|
    && r.semAdd == q.semAdd && r.prio == q.prio
  }

  /** `r` is `q` without the processes of `ps`: every queue keeps the others in their
      old order, the free list gets the dead in front, an ordinary semaphore gains one
      for each waiter it lost, a device semaphore gains nothing. */
  ghost predicate Cut(q: Sched, r: Sched, ps: seq<Proc>, live: set<Proc>) {
    && CutFields(q, r, ps)
    && (forall a {:trigger Asl.Queue(r.asl, a)} :: Asl.Queue(r.asl, a) == Minus(Asl.Queue(q.asl, a), Members(ps)))
    && (forall a {:trigger Value(r, a)} :: Value(r, a) == Value(q, a) +
          (if IsSoft(a) then 0 else |Asl.Queue(q.asl, a)| - |Asl.Queue(r.asl, a)|))
    && r.softBlockCount == q.softBlockCount - |SoftBlocked(q, live) * Members(ps)|
  }

  lemma MembersSplit(ps: seq<Proc>)
    requires ps != []
    ensures Members(ps) == {ps[0]} + Members(ps[1..])
    ensures NoDup(ps) ==> ps[0] !in Members(ps[1..])
  {
    assert ps == [ps[0]] + ps[1..];
  }

  lemma UnqueueQueues(q: Sched, live: set<Proc>, p: Proc, a: Addr)
    requires Placed(q, live) && p in live
    ensures Asl.Queue(Unqueue(q, p).asl, a) == Remove(Asl.Queue(q.asl, a), p)
    ensures Value(Unqueue(q, p), a) == Value(q, a) +
              (if IsSoft(a) then 0 else |Asl.Queue(q.asl, a)| - |Remove(Asl.Queue(q.asl, a), p)|)
    ensures Unqueue(q, p).asl.active.Keys == q.asl.active.Keys
  {
    if a in q.asl.active {
      RemoveMembers(q.asl.active[a], p);
    }
  }

  lemma MinusSingle(w: seq<Proc>, p: Proc)
    requires NoDup(w)
    ensures Minus(w, Members([p])) == Remove(w, p)
  {
    assert Members([p]) == {p} && {p} + {} == {p};
    MinusOne(w, p, {});
    MinusNone(Remove(w, p), {});
  }

  lemma QueueNoDup(q: Sched, live: set<Proc>, a: Addr)
    requires Placed(q, live)
    ensures NoDup(Asl.Queue(q.asl, a)) && NoDup(q.ready)
  {
  }

  /** The parts of Unqueue that are not queues. */
  lemma UnqueueRest(q: Sched, live: set<Proc>, p: Proc)
    requires Placed(q, live) && p in live
    ensures var r := Unqueue(q, p);
            && r.free == Reverse([p]) + q.free && r.ready == Remove(q.ready, p)
            && r.asl.active.Keys == q.asl.active.Keys && r.asl.free == q.asl.free
            && r.current == (if q.current.Some? && q.current.value in [p] then None else q.current)
            && r.processCount == q.processCount - 1
            && r.softBlockCount == q.softBlockCount - (if IsSoft(q.semAdd[p]) then 1 else 0)
            && r.semAdd == q.semAdd && r.prio == q.prio
  {
    assert Reverse([p]) == [p];
    assert !IsSoft(NULL);
    hide Remove, NoDup;
  }

  lemma UnqueueFields(q: Sched, live: set<Proc>, p: Proc)
    requires Placed(q, live) && p in live
    ensures CutFields(q, Unqueue(q, p), [p])
    ensures var r := Unqueue(q, p); r.softBlockCount == q.softBlockCount - |SoftBlocked(q, live) * Members([p])|
  {
    UnqueueRest(q, live, p);
    QueueNoDup(q, live, NULL);
    MinusSingle(q.ready, p);
    OneSoft(q, live, p);
    hide Placed, Unqueue, SoftBlocked, Minus, Remove, Members, Reverse;
  }

  lemma OneSoft(q: Sched, live: set<Proc>, p: Proc)
    requires p in live
    ensures |SoftBlocked(q, live) * Members([p])| == if IsSoft(q.semAdd[p]) then 1 else 0
  {
    assert Members([p]) == {p};
    assert SoftBlocked(q, live) * {p} == if IsSoft(q.semAdd[p]) then {p} else {};
  }

  lemma UnqueueOne(q: Sched, live: set<Proc>, p: Proc, a: Addr)
    requires Placed(q, live) && p in live
    ensures var r := Unqueue(q, p);
            && Asl.Queue(r.asl, a) == Minus(Asl.Queue(q.asl, a), Members([p]))
            && Value(r, a) == Value(q, a) + (if IsSoft(a) then 0 else |Asl.Queue(q.asl, a)| - |Asl.Queue(r.asl, a)|)
  {
    UnqueueQueues(q, live, p, a);
    QueueNoDup(q, live, a);
    MinusSingle(Asl.Queue(q.asl, a), p);
    hide *;
  }

  lemma UnqueueCut(q: Sched, live: set<Proc>, p: Proc)
    requires Placed(q, live) && p in live
    ensures Cut(q, Unqueue(q, p), [p], live)
  {
    hide *;
    var r := Unqueue(q, p);
    CutIs(q, r, [p], live);
    UnqueueFields(q, live, p);
    forall a ensures Asl.Queue(r.asl, a) == Minus(Asl.Queue(q.asl, a), Members([p])) { UnqueueOne(q, live, p, a); }
    forall a ensures Value(r, a) == Value(q, a) +
          (if IsSoft(a) then 0 else |Asl.Queue(q.asl, a)| - |Asl.Queue(r.asl, a)|) {
      UnqueueOne(q, live, p, a);
    }
  }

  lemma CutQueues(q: Sched, r: Sched, t: Sched, p: Proc, rest: seq<Proc>, live: set<Proc>, a: Addr)
    requires Cut(q, r, [p], live) && Cut(r, t, rest, live - {p})
    ensures Asl.Queue(t.asl, a) == Minus(Asl.Queue(q.asl, a), Members([p] + rest))
    ensures t.ready == Minus(q.ready, Members([p] + rest))
  {
    var ps := [p] + rest;
    MembersSplit(ps);
    assert ps[1..] == rest && Members([p]) == {p};
    assert Asl.Queue(t.asl, a) == Minus(Asl.Queue(r.asl, a), Members(rest));
    MinusMinus(Asl.Queue(q.asl, a), {p}, Members(rest));
    MinusMinus(q.ready, {p}, Members(rest));
  }

  lemma CutValues(q: Sched, r: Sched, t: Sched, p: Proc, rest: seq<Proc>, live: set<Proc>, a: Addr)
    requires Cut(q, r, [p], live) && Cut(r, t, rest, live - {p})
    ensures Value(t, a) == Value(q, a) +
          (if IsSoft(a) then 0 else |Asl.Queue(q.asl, a)| - |Asl.Queue(t.asl, a)|)
  {
    assert Value(t, a) == Value(r, a) + (if IsSoft(a) then 0 else |Asl.Queue(r.asl, a)| - |Asl.Queue(t.asl, a)|);
  }

  lemma CutIs(q: Sched, r: Sched, ps: seq<Proc>, live: set<Proc>)
    ensures Cut(q, r, ps, live) <==>
      && CutFields(q, r, ps)
      && (forall a {:trigger Asl.Queue(r.asl, a)} :: Asl.Queue(r.asl, a) == Minus(Asl.Queue(q.asl, a), Members(ps)))
      && (forall a {:trigger Value(r, a)} :: Value(r, a) == Value(q, a) +
            (if IsSoft(a) then 0 else |Asl.Queue(q.asl, a)| - |Asl.Queue(r.asl, a)|))
      && r.softBlockCount == q.softBlockCount - |SoftBlocked(q, live) * Members(ps)|
  {
    hide CutFields, Asl.Queue, Value, Minus, Members, SoftBlocked;
  }

  lemma FieldsCompose(q: Sched, r: Sched, t: Sched, p: Proc, rest: seq<Proc>)
    requires CutFields(q, r, [p]) && CutFields(r, t, rest) && t.ready == Minus(q.ready, Members([p] + rest))
    ensures CutFields(q, t, [p] + rest)
  {
    hide Minus, Members;
    var ps := [p] + rest;
    assert Reverse([p]) == [p];
    assert Reverse(ps) == Reverse(rest) + [p];
    assert t.free == Reverse(ps) + q.free;
    hide Reverse;
  }

  lemma CutCompose(q: Sched, r: Sched, t: Sched, p: Proc, rest: seq<Proc>, live: set<Proc>)
    requires p in live && p !in rest
    requires Cut(q, r, [p], live) && Cut(r, t, rest, live - {p})
    ensures Cut(q, t, [p] + rest, live)
  {
    hide *;
    CutIs(q, r, [p], live);
    CutIs(r, t, rest, live - {p});
    CutIs(q, t, [p] + rest, live);
    CutQueues(q, r, t, p, rest, live, NULL);
    FieldsCompose(q, r, t, p, rest);
    FieldsAre(q, r, [p]);
    SoftCompose(q, r, p, rest, live);
    forall a ensures Asl.Queue(t.asl, a) == Minus(Asl.Queue(q.asl, a), Members([p] + rest)) { CutQueues(q, r, t, p, rest, live, a); }
    forall a ensures Value(t, a) == Value(q, a) +
          (if IsSoft(a) then 0 else |Asl.Queue(q.asl, a)| - |Asl.Queue(t.asl, a)|) {
      CutValues(q, r, t, p, rest, live, a);
    }
  }

  lemma FieldsAre(q: Sched, r: Sched, ps: seq<Proc>)
    requires CutFields(q, r, ps)
    ensures r.semAdd == q.semAdd
  {
  }

  lemma SoftCompose(q: Sched, r: Sched, p: Proc, rest: seq<Proc>, live: set<Proc>)
    requires p in live && p !in rest && r.semAdd == q.semAdd
    ensures |SoftBlocked(q, live) * Members([p] + rest)|
         == |SoftBlocked(q, live) * Members([p])| + |SoftBlocked(r, live - {p}) * Members(rest)|
  {
    MembersSplit([p] + rest);
    var x, y := SoftBlocked(q, live) * Members([p]), SoftBlocked(r, live - {p}) * Members(rest);
    assert SoftBlocked(q, live) * Members([p] + rest) == x + y;
    assert x * y == {};
  }

  /** Terminating a list of processes one by one cuts them out of everything at once. */
  lemma {:induction false} UnqueueAllIsCut(q: Sched, live: set<Proc>, ps: seq<Proc>)
    requires Placed(q, live) && NoDup(ps) && forall p :: p in ps ==> p in live
    ensures Cut(q, UnqueueAll(q, ps), ps, live)
    decreases |ps|
  {
    if ps == [] {
      NothingCut(q, live);
    } else {
      var p, rest := ps[0], ps[1..];
      MembersSplit(ps);
      assert p in ps && ps == [p] + rest;
      UnqueueCut(q, live, p);
      UnqueuePlaced(q, live, p);
      hide Placed, Cut, Unqueue;
      UnqueueAllIsCut(Unqueue(q, p), live - {p}, rest);
      CutCompose(q, Unqueue(q, p), UnqueueAll(q, ps), p, rest, live);
    }
  }

  lemma NothingCut(q: Sched, live: set<Proc>)
    ensures Cut(q, q, [], live)
  {
    assert Members([]) == {};
    MinusNone(q.ready, {});
    forall a ensures Asl.Queue(q.asl, a) == Minus(Asl.Queue(q.asl, a), {}) {
      MinusNone(Asl.Queue(q.asl, a), {});
    }
    assert SoftBlocked(q, live) * {} == {};
  }

  // ---------------------------------------------------------------- main results

  /** Termination of a live process in a well-formed kernel state takes exactly its
      subtree out of every queue, every counter and the tree. */
  lemma KillFreesSubtree(f: Forest, q: Sched, p: Proc)
    requires TreeInv(f) && Live(f, p) && Placed(q, LiveSet(f))
    ensures forall x :: x in Post(f, p) <==> Live(f, x) && Ancestor(f, p, x)
    ensures NoDup(Post(f, p))
    ensures Cut(q, Kill(f, q, p).1, Post(f, p), LiveSet(f))
    ensures var g := Kill(f, q, p).0; g == f.(t := g.t) && Erased(f.t, g.t, p, Post(f, p))
  {
    hide Placed, Cut, Kill, Erased, PidsDistinct, OneRoot, ParentsKnown, ChildrenKnown;
    KillTheorem(f, q, p);
    PostNoDup(f, p);
    forall x ensures x in Post(f, p) <==> Live(f, x) && Ancestor(f, p, x) { PostMembers(f, p, x); }
    UnqueueAllIsCut(q, LiveSet(f), Post(f, p));
  }

  lemma KillTheorem(f: Forest, q: Sched, p: Proc)
    requires TreeInv(f) && Live(f, p)
    ensures Kill(f, q, p).1 == UnqueueAll(q, Post(f, p))
    ensures var g := Kill(f, q, p).0; g == f.(t := g.t) && Erased(f.t, g.t, p, Post(f, p))
  {
    if f.t[p].parent.Some? {
      var r := f.t[p].parent.value;
      PostMembers(f, p, r);
      if r in Post(f, p) { AncestorOlder(f, p, r); }
    }
    KillIsExact(f, f, q, p);
  }

  /** Termination keeps every kernel invariant and frees exactly the subtree. */
  lemma KillKeeps(f: Forest, q: Sched, p: Proc)
    requires TreeInv(f) && Live(f, p) && SchedInv(q, LiveSet(f))
    ensures var (g, r) := Kill(f, q, p);
            && TreeInv(g) && SchedInv(r, LiveSet(g))
            && LiveSet(g) == LiveSet(f) - Members(Post(f, p))
            && g.root == f.root && g.next == f.next
  {
    hide PidsDistinct, OneRoot, ParentsKnown, ChildrenKnown, Placed, Counted, AllLawful, Ordered, Logged;
    KillTheorem(f, q, p);
    var (g, r) := Kill(f, q, p);
    EraseKeepsTree(f, g, p);
    PostNoDup(f, p);
    forall x | x in Post(f, p) ensures x in LiveSet(f) { PostMembers(f, p, x); }
    UnqueueAllKeeps(q, LiveSet(f), Post(f, p));
  }
}
