/**
 The process tree: the parent, child-list and pid fields of the PCB table.
 PIDs are handed out in increasing order and a child is always created after its
 parent, so along every branch the PIDs grow; this is what makes the tree acyclic
 and every walk over it terminate.
 */
module ProcTree {
  import opened Processes
  import opened ProcQueue

  datatype Node = Node(parent: Option<Proc>, children: seq<Proc>, pid: int)

  type Nodes = t: seq<Node> | |t| == MAXPROC witness seq(MAXPROC, i => Node(None, [], 0))

  /** The tree fields of the PCB table, rootProcess, and the static next_pid. */
  datatype Forest = Forest(t: Nodes, root: Proc, next: int)

  /** A PCB in use: its pid is 0 before the first use and -1 after termination. */
  predicate Live(f: Forest, p: Proc) { 0 < f.t[p].pid }

  ghost function LiveSet(f: Forest): set<Proc> { set p: Proc | Live(f, p) }

  ghost predicate PidsDistinct(f: Forest) {
    && 1 <= f.next
    && (forall p: Proc :: f.t[p].pid < f.next)
    && (forall p: Proc, q: Proc :: Live(f, p) && Live(f, q) && f.t[p].pid == f.t[q].pid ==> p == q)
  }

  ghost predicate OneRoot(f: Forest) {
    && (forall p: Proc {:trigger f.t[p].parent} :: Live(f, p) && f.t[p].parent.None? ==> p == f.root)
    && (Live(f, f.root) ==> f.t[f.root].parent.None?)
  }

  ghost predicate ParentsKnown(f: Forest) {
    forall p: Proc {:trigger f.t[p].parent} :: Live(f, p) && f.t[p].parent.Some? ==>
      var q := f.t[p].parent.value;
      Live(f, q) && f.t[q].pid < f.t[p].pid && p in f.t[q].children
  }

  ghost predicate ChildrenKnown(f: Forest) {
    && (forall q: Proc, c: Proc :: Live(f, q) && c in f.t[q].children ==>
          Live(f, c) && f.t[c].parent == Some(q))
    && (forall q: Proc :: Live(f, q) ==> NoDup(f.t[q].children))
  }

  ghost predicate TreeInv(f: Forest) {
    PidsDistinct(f) && OneRoot(f) && ParentsKnown(f) && ChildrenKnown(f)
  }

  /** `a` is `x` or one of its ancestors. */
  predicate Ancestor(f: Forest, a: Proc, x: Proc)
    decreases if f.t[x].pid < 0 then 0 else f.t[x].pid
  {
    || a == x
    || (&& f.t[x].parent.Some?
        && 0 < f.t[f.t[x].parent.value].pid < f.t[x].pid
        && Ancestor(f, a, f.t[x].parent.value))
  }

  // ------------------------------------------------------------ tree operations

  /** The marking of a process under termination. */
  function Mark(f: Forest, p: Proc): Forest {
    f.(t := f.t[p := f.t[p].(pid := -1)])
  }

  function InsertChild(f: Forest, parent: Proc, p: Proc): Forest {
    var t := f.t[p := f.t[p].(parent := Some(parent))];
    f.(t := t[parent := t[parent].(children := t[parent].children + [p])])
  }

  /** `removeChild(p)` for a process with children: the first one leaves. */
  function RemoveChild(f: Forest, p: Proc): Forest
    requires f.t[p].children != []
  {
    var c := f.t[p].children[0];
    var t := f.t[p := f.t[p].(children := f.t[p].children[1..])];
    f.(t := t[c := t[c].(parent := None)])
  }

  function OutChild(f: Forest, p: Proc): Forest {
    match f.t[p].parent
    case None => f
    case Some(q) =>
      var t := f.t[q := f.t[q].(children := Remove(f.t[q].children, p))];
      f.(t := t[p := t[p].(parent := None)])
  }

  /** `allocPcb` on the tree fields, without the link to a parent. */
  function Spawn(f: Forest, p: Proc): Forest {
    f.(t := f.t[p := Node(None, [], f.next)], next := f.next + 1)
  }

  // ------------------------------------------------------------------ subtrees

  /** The subtree of `p` in the order in which the recursion finishes with its members. */
  ghost function Post(f: Forest, p: Proc): seq<Proc>
    requires TreeInv(f) && Live(f, p)
    decreases f.next - f.t[p].pid, 1, 0
  {
    PostAll(f, p, f.t[p].children) + [p]
  }

  ghost function PostAll(f: Forest, p: Proc, cs: seq<Proc>): seq<Proc>
    requires TreeInv(f) && Live(f, p) && forall c :: c in cs ==> c in f.t[p].children
    decreases f.next - f.t[p].pid, 0, |cs|
  {
    if cs == [] then []
    else
      assert cs[0] in f.t[p].children && f.t[cs[0]].parent == Some(p);
      Post(f, cs[0]) + PostAll(f, p, cs[1..])
  }

  lemma ChildYounger(f: Forest, p: Proc, c: Proc)
    requires TreeInv(f) && Live(f, p) && c in f.t[p].children
    ensures Live(f, c) && f.t[c].parent == Some(p) && f.t[p].pid < f.t[c].pid < f.next
  {
  }

  lemma {:induction false} AncestorTrans(f: Forest, a: Proc, b: Proc, x: Proc)
    requires TreeInv(f) && Live(f, x) && Ancestor(f, a, b) && Ancestor(f, b, x)
    ensures Ancestor(f, a, x)
    decreases f.t[x].pid
  {
    if b != x {
      AncestorTrans(f, a, b, f.t[x].parent.value);
    }
  }

  lemma {:induction false} AncestorOlder(f: Forest, a: Proc, x: Proc)
    requires TreeInv(f) && Live(f, x) && Ancestor(f, a, x)
    ensures Live(f, a) && f.t[a].pid <= f.t[x].pid && (a != x ==> f.t[a].pid < f.t[x].pid)
    decreases f.t[x].pid
  {
    if a != x {
      AncestorOlder(f, a, f.t[x].parent.value);
    }
  }

  /** Two ancestors of the same process lie on one branch. */
  lemma {:induction false} AncestorChain(f: Forest, a: Proc, b: Proc, x: Proc)
    requires TreeInv(f) && Live(f, x) && Ancestor(f, a, x) && Ancestor(f, b, x)
    ensures Ancestor(f, a, b) || Ancestor(f, b, a)
    decreases f.t[x].pid
  {
    if a != x && b != x {
      AncestorChain(f, a, b, f.t[x].parent.value);
    }
  }

  /** Subtrees of different children of one process do not meet. */
  lemma SiblingsDisjoint(f: Forest, p: Proc, c: Proc, d: Proc, x: Proc)
    requires TreeInv(f) && Live(f, p) && Live(f, x)
    requires c in f.t[p].children && d in f.t[p].children && c != d
    requires Ancestor(f, c, x)
    ensures !Ancestor(f, d, x)
  {
    if Ancestor(f, d, x) {
      AncestorChain(f, c, d, x);
      ChildYounger(f, p, c);
      ChildYounger(f, p, d);
      if Ancestor(f, c, d) {
        AncestorOlder(f, c, p);
      } else {
        AncestorOlder(f, d, p);
      }
    }
  }

  /** Everything alive has the root as its ancestor. */
  lemma {:induction false} RootIsAncestor(f: Forest, x: Proc)
    requires TreeInv(f) && Live(f, x)
    ensures Ancestor(f, f.root, x) && Live(f, f.root)
    decreases f.t[x].pid
  {
    if f.t[x].parent.Some? {
      RootIsAncestor(f, f.t[x].parent.value);
    }
  }

  /** A proper descendant descends from one of the children. */
  lemma {:induction false} ThroughChild(f: Forest, p: Proc, x: Proc) returns (c: Proc)
    requires TreeInv(f) && Live(f, x) && Ancestor(f, p, x) && p != x
    ensures Live(f, p) && c in f.t[p].children && Ancestor(f, c, x)
    decreases f.t[x].pid
  {
    var q := f.t[x].parent.value;
    if q == p {
      c := x;
    } else {
      c := ThroughChild(f, p, q);
    }
  }

  lemma {:induction false} PostMembers(f: Forest, p: Proc, x: Proc)
    requires TreeInv(f) && Live(f, p)
    ensures x in Post(f, p) <==> Live(f, x) && Ancestor(f, p, x)
    decreases f.next - f.t[p].pid, 1, 0
  {
    PostAllMembers(f, p, f.t[p].children, x);
    if Live(f, x) && Ancestor(f, p, x) && x != p {
      var c := ThroughChild(f, p, x);
    }
    if exists c :: c in f.t[p].children && Live(f, x) && Ancestor(f, c, x) {
      var c :| c in f.t[p].children && Live(f, x) && Ancestor(f, c, x);
      ChildYounger(f, p, c);
      AncestorTrans(f, p, c, x);
    }
  }

  lemma {:induction false} PostAllMembers(f: Forest, p: Proc, cs: seq<Proc>, x: Proc)
    requires TreeInv(f) && Live(f, p) && forall c :: c in cs ==> c in f.t[p].children
    ensures x in PostAll(f, p, cs) <==> exists c :: c in cs && Live(f, x) && Ancestor(f, c, x)
    decreases f.next - f.t[p].pid, 0, |cs|
  {
    if cs != [] {
      var c, rest := cs[0], cs[1..];
      assert cs == [c] + rest;
      assert c in cs;
      ChildYounger(f, p, c);
      PostMembers(f, c, x);
      PostAllMembers(f, p, rest, x);
    }
  }

  lemma {:induction false} PostNoDup(f: Forest, p: Proc)
    requires TreeInv(f) && Live(f, p)
    ensures NoDup(Post(f, p))
    decreases f.next - f.t[p].pid, 1, 0
  {
    PostAllNoDup(f, p, f.t[p].children);
    ParentNotBelow(f, p, f.t[p].children);
  }

  lemma ParentNotBelow(f: Forest, p: Proc, cs: seq<Proc>)
    requires TreeInv(f) && Live(f, p) && forall c :: c in cs ==> c in f.t[p].children
    ensures p !in PostAll(f, p, cs)
  {
    PostAllMembers(f, p, cs, p);
    forall c | c in cs ensures !Ancestor(f, c, p) {
      ChildYounger(f, p, c);
      if Ancestor(f, c, p) { AncestorOlder(f, c, p); }
    }
  }

  lemma FirstChildApart(f: Forest, p: Proc, cs: seq<Proc>, x: Proc)
    requires TreeInv(f) && Live(f, p) && forall c :: c in cs ==> c in f.t[p].children
    requires cs != [] && NoDup(cs)
    requires x in PostAll(f, p, cs[1..])
    ensures Live(f, cs[0]) && x !in Post(f, cs[0])
  {
    var c, rest := cs[0], cs[1..];
    assert c in cs;
    ChildYounger(f, p, c);
    PostAllMembers(f, p, rest, x);
    var d :| d in rest && Live(f, x) && Ancestor(f, d, x);
    assert d in cs && d != c;
    SiblingsDisjoint(f, p, d, c, x);
    PostMembers(f, c, x);
  }

  lemma {:induction false} PostAllNoDup(f: Forest, p: Proc, cs: seq<Proc>)
    requires TreeInv(f) && Live(f, p) && forall c :: c in cs ==> c in f.t[p].children
    requires NoDup(cs)
    ensures NoDup(PostAll(f, p, cs))
    decreases f.next - f.t[p].pid, 0, |cs|
  {
    if cs != [] {
      var c, rest := cs[0], cs[1..];
      assert c in cs;
      ChildYounger(f, p, c);
      PostNoDup(f, c);
      PostAllNoDup(f, p, rest);
      var a, b := Post(f, c), PostAll(f, p, rest);
      forall i, j | 0 <= i < |a| && 0 <= j < |b| ensures a[i] != b[j] {
        FirstChildApart(f, p, cs, b[j]);
      }
    }
  }

  // ---------------------------------------------------------------- findInTree

  /** `findInTree(node, pid)`: depth first, children in list order. */
  ghost function FindInTree(f: Forest, node: Proc, pid: int): Option<Proc>
    requires TreeInv(f) && (Live(f, node) || f.t[node].pid < 0)
    decreases f.next - f.t[node].pid, 1, 0
  {
    if f.t[node].pid < 0 then None
    else if f.t[node].pid == pid then Some(node)
    else FindAmong(f, node, f.t[node].children, pid)
  }

  ghost function FindAmong(f: Forest, p: Proc, cs: seq<Proc>, pid: int): Option<Proc>
    requires TreeInv(f) && Live(f, p) && forall c :: c in cs ==> c in f.t[p].children
    decreases f.next - f.t[p].pid, 0, |cs|
  {
    if cs == [] then None
    else
      assert cs[0] in f.t[p].children && f.t[cs[0]].parent == Some(p);
      var found := FindInTree(f, cs[0], pid);
      if found.Some? then found else FindAmong(f, p, cs[1..], pid)
  }

  lemma {:induction false} FindInSubtree(f: Forest, node: Proc, pid: int)
    requires TreeInv(f) && Live(f, node)
    ensures FindInTree(f, node, pid).Some? ==>
              FindInTree(f, node, pid).value in Post(f, node) && f.t[FindInTree(f, node, pid).value].pid == pid
    ensures FindInTree(f, node, pid).None? ==> forall x :: x in Post(f, node) ==> f.t[x].pid != pid
    decreases f.next - f.t[node].pid, 1, 0
  {
    if f.t[node].pid != pid {
      FindInSubtrees(f, node, f.t[node].children, pid);
    }
  }

  lemma {:induction false} FindInSubtrees(f: Forest, p: Proc, cs: seq<Proc>, pid: int)
    requires TreeInv(f) && Live(f, p) && forall c :: c in cs ==> c in f.t[p].children
    ensures FindAmong(f, p, cs, pid).Some? ==>
              FindAmong(f, p, cs, pid).value in PostAll(f, p, cs) && f.t[FindAmong(f, p, cs, pid).value].pid == pid
    ensures FindAmong(f, p, cs, pid).None? ==> forall x :: x in PostAll(f, p, cs) ==> f.t[x].pid != pid
    decreases f.next - f.t[p].pid, 0, |cs|
  {
    if cs != [] {
      assert cs[0] in cs;
      ChildYounger(f, p, cs[0]);
      FindInSubtree(f, cs[0], pid);
      FindInSubtrees(f, p, cs[1..], pid);
    }
  }

  /** The search from rootProcess finds a PID exactly when a process with it is alive. */
  lemma FindIsComplete(f: Forest, pid: int, p: Proc)
    requires TreeInv(f) && (Live(f, f.root) || f.t[f.root].pid < 0)
    ensures FindInTree(f, f.root, pid) == Some(p) <==> Live(f, p) && f.t[p].pid == pid
  {
    if Live(f, f.root) {
      FindInSubtree(f, f.root, pid);
      var found := FindInTree(f, f.root, pid);
      if found.Some? {
        PostMembers(f, f.root, found.value);
      }
      if Live(f, p) {
        RootIsAncestor(f, p);
        PostMembers(f, f.root, p);
      }
    } else if Live(f, p) {
      RootIsAncestor(f, p);
    }
  }

  // ------------------------------------------------------ what keeps the tree

  /** The forest after the whole subtree `D` of `p` has been taken out. */
  ghost predicate Erased(t: Nodes, t': Nodes, p: Proc, D: seq<Proc>) {
    forall x: Proc :: t'[x] ==
      if x in D then Node(None, [], -1)
      else if t[p].parent == Some(x) then t[x].(children := Remove(t[x].children, p))
      else t[x]
  }

  /** `g` is `f` with the free PCB `p` put to use as the last child of `parent`. */
  ghost predicate Spawned(f: Forest, g: Forest, parent: Proc, p: Proc) {
    && g.root == f.root && g.next == f.next + 1 && p != parent
    && g.t[p] == Node(Some(parent), [], f.next)
    && g.t[parent] == f.t[parent].(children := f.t[parent].children + [p])
    && (forall x: Proc {:trigger g.t[x]} :: x != p && x != parent ==> g.t[x] == f.t[x])
  }

  lemma SpawnPids(f: Forest, g: Forest, parent: Proc, p: Proc)
    requires PidsDistinct(f) && Live(f, parent) && Spawned(f, g, parent, p)
    ensures PidsDistinct(g)
  {
    forall x: Proc ensures g.t[x].pid == (if x == p then f.next else f.t[x].pid) { }
  }

  lemma SpawnRoot(f: Forest, g: Forest, parent: Proc, p: Proc)
    requires OneRoot(f) && Live(f, f.root) && !Live(f, p) && Spawned(f, g, parent, p)
    ensures OneRoot(g)
  {
  }

  lemma SpawnParents(f: Forest, g: Forest, parent: Proc, p: Proc)
    requires PidsDistinct(f) && ParentsKnown(f) && Live(f, parent) && !Live(f, p) && Spawned(f, g, parent, p)
    ensures ParentsKnown(g)
  {
    forall x: Proc | Live(g, x) && g.t[x].parent.Some?
      ensures var q := g.t[x].parent.value;
              Live(g, q) && g.t[q].pid < g.t[x].pid && x in g.t[q].children
    {
      var q := g.t[x].parent.value;
      assert x != p ==> f.t[x].parent == Some(q);
      assert q != p;
      assert f.t[q].children <= g.t[q].children;
    }
  }

  lemma SpawnChildren(f: Forest, g: Forest, parent: Proc, p: Proc)
    requires ChildrenKnown(f) && Live(f, parent) && !Live(f, p) && f.next >= 1 && Spawned(f, g, parent, p)
    ensures ChildrenKnown(g)
  {
    forall q: Proc | Live(g, q)
      ensures NoDup(g.t[q].children)
      ensures forall c :: c in g.t[q].children ==> Live(g, c) && g.t[c].parent == Some(q)
    {
      if q != p {
        assert NoDup(f.t[q].children) && p !in f.t[q].children;
        forall c | c in g.t[q].children ensures Live(g, c) && g.t[c].parent == Some(q) {
          assert c == p || c in f.t[q].children;
        }
      }
    }
  }

  lemma SpawnKeepsTree(f: Forest, parent: Proc, p: Proc)
    requires TreeInv(f) && Live(f, parent) && !Live(f, p)
    ensures var g := InsertChild(Spawn(f, p), parent, p);
            TreeInv(g) && LiveSet(g) == LiveSet(f) + {p}
  {
    hide PidsDistinct, OneRoot, ParentsKnown, ChildrenKnown;
    var g := InsertChild(Spawn(f, p), parent, p);
    assert Spawned(f, g, parent, p);
    RootIsAncestor(f, parent);
    SpawnPids(f, g, parent, p);
    SpawnRoot(f, g, parent, p);
    SpawnParents(f, g, parent, p);
    NextIsPositive(f);
    SpawnChildren(f, g, parent, p);
    assert forall x: Proc :: Live(g, x) <==> Live(f, x) || x == p;
  }

  lemma NextIsPositive(f: Forest)
    requires PidsDistinct(f)
    ensures f.next >= 1
  {
  }

  lemma EraseOutside(f: Forest, p: Proc, x: Proc, q: Proc)
    requires TreeInv(f) && Live(f, p) && Live(f, q) && x in f.t[q].children
    ensures x in Post(f, p) && x != p ==> q in Post(f, p)
    ensures q in Post(f, p) ==> x in Post(f, p)
  {
    ChildYounger(f, q, x);
    PostMembers(f, p, q);
    PostMembers(f, p, x);
  }

  lemma ErasePids(f: Forest, g: Forest, p: Proc, D: seq<Proc>)
    requires PidsDistinct(f) && OneRoot(f) && g == f.(t := g.t) && Erased(f.t, g.t, p, D)
    ensures PidsDistinct(g) && OneRoot(g)
  {
    assert forall x: Proc {:trigger g.t[x]} ::
      if x in D then g.t[x].pid == -1 else g.t[x].pid == f.t[x].pid && g.t[x].parent == f.t[x].parent;
  }

  lemma EraseParents(f: Forest, g: Forest, p: Proc)
    requires TreeInv(f) && Live(f, p)
    requires g == f.(t := g.t) && Erased(f.t, g.t, p, Post(f, p))
    ensures ParentsKnown(g)
  {
    EraseChildren(f, g, p);
    PostMembers(f, p, p);
    forall x: Proc | Live(g, x) && g.t[x].parent.Some?
      ensures var q := g.t[x].parent.value;
              Live(g, q) && g.t[q].pid < g.t[x].pid && x in g.t[q].children
    {
      var q := f.t[x].parent.value;
      assert Live(f, x) && Live(f, q) && x in f.t[q].children;
      EraseOutside(f, p, x, q);
    }
  }

  lemma EraseChildrenKnown(f: Forest, g: Forest, p: Proc)
    requires TreeInv(f) && Live(f, p)
    requires g == f.(t := g.t) && Erased(f.t, g.t, p, Post(f, p))
    ensures ChildrenKnown(g)
  {
    EraseChildren(f, g, p);
    forall q: Proc, c: Proc | Live(g, q) && c in g.t[q].children
      ensures Live(g, c) && g.t[c].parent == Some(q)
    {
      ChildYounger(f, q, c);
      EraseOutside(f, p, c, q);
    }
  }

  lemma EraseKeepsTree(f: Forest, g: Forest, p: Proc)
    requires TreeInv(f) && Live(f, p)
    requires g == f.(t := g.t) && Erased(f.t, g.t, p, Post(f, p))
    ensures TreeInv(g)
    ensures LiveSet(g) == LiveSet(f) - (set x | x in Post(f, p))
  {
    hide PidsDistinct, OneRoot, ParentsKnown, ChildrenKnown;
    ErasePids(f, g, p, Post(f, p));
    EraseParents(f, g, p);
    EraseChildrenKnown(f, g, p);
    assert forall x: Proc {:trigger Live(g, x)} :: Live(g, x) <==> Live(f, x) && x !in Post(f, p);
  }

  lemma EraseChildren(f: Forest, g: Forest, p: Proc)
    requires TreeInv(f) && Live(f, p)
    requires g == f.(t := g.t) && Erased(f.t, g.t, p, Post(f, p))
    ensures forall q: Proc :: Live(g, q) ==> NoDup(g.t[q].children)
    ensures forall q: Proc, c: Proc :: Live(g, q) ==>
              (c in g.t[q].children <==> c in f.t[q].children && c != p)
  {
    forall q: Proc | Live(g, q)
      ensures NoDup(g.t[q].children)
      ensures forall c :: c in g.t[q].children <==> c in f.t[q].children && c != p
    {
      RemoveMembers(f.t[q].children, p);
      if p in f.t[q].children { ChildYounger(f, q, p); }
    }
  }
}
