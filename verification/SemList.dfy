/**
 The active semaphore list of phase1/asl.c, seen as a map: an active descriptor
 is a key with its queue of blocked processes; of the unused descriptors only
 their number matters. The code does not keep the list sorted and no operation
 depends on its order, so a map is all there is to see.
 */
module SemList {
  import opened Processes
  import opened ProcQueue

  datatype Asl = Asl(active: map<Addr, seq<Proc>>, free: nat)

  function Queue(s: Asl, a: Addr): seq<Proc> {
    if a in s.active then s.active[a] else []
  }

  /** `insertBlocked` can find or allocate a descriptor for `a`. */
  predicate Available(s: Asl, a: Addr) {
    a in s.active || 0 < s.free
  }

  /** `insertBlocked(a, p)`; the flag is its result TRUE, "no descriptor left". */
  function InsertBlocked(s: Asl, prio: Prios, a: Addr, p: Proc): (Asl, bool) {
    if !Available(s, a) then (s, true)
    else
      var q := Insert(Queue(s, a), prio, p);
      (Asl(s.active[a := q], if a in s.active then s.free else s.free - 1), false)
  }

  /** `removeBlocked(a)`: the only place where a descriptor is reclaimed. */
  function RemoveBlocked(s: Asl, a: Addr): (Asl, Option<Proc>) {
    if a !in s.active then (s, None)
    else
      var q := s.active[a];
      if |q| <= 1 then (Asl(s.active - {a}, s.free + 1), if q == [] then None else Some(q[0]))
      else (s.(active := s.active[a := q[1..]]), Some(q[0]))
  }

  /** `outBlocked(p)` for a process whose p_semAdd is `a`: an emptied descriptor stays active. */
  function OutBlocked(s: Asl, a: Addr, p: Proc): (Asl, bool) {
    if a !in s.active then (s, false)
    else (s.(active := s.active[a := Remove(s.active[a], p)]), p in s.active[a])
  }

  /** Free and active descriptors make up the whole pool. */
  predicate PoolConserved(s: Asl) {
    s.free + |s.active| == MAXPROC
  }

  ghost predicate NoEmptyQueue(s: Asl) {
    forall a :: a in s.active ==> s.active[a] != []
  }

  ghost predicate QueuesDisjoint(s: Asl) {
    && (forall a :: a in s.active ==> NoDup(s.active[a]))
    && (forall a, b, p :: (a in s.active && b in s.active && p in s.active[a] && p in s.active[b]) ==> a == b)
  }

  lemma InsertConserves(s: Asl, prio: Prios, a: Addr, p: Proc)
    requires PoolConserved(s)
    ensures PoolConserved(InsertBlocked(s, prio, a, p).0)
  {
    if Available(s, a) {
      var t := InsertBlocked(s, prio, a, p).0;
      assert t.active.Keys == s.active.Keys + {a};
    }
  }

  lemma RemoveConserves(s: Asl, a: Addr)
    requires PoolConserved(s)
    ensures PoolConserved(RemoveBlocked(s, a).0)
  {
    if a in s.active {
      var t := RemoveBlocked(s, a).0;
      assert t.active.Keys == if |s.active[a]| <= 1 then s.active.Keys - {a} else s.active.Keys;
    }
  }

  lemma OutConserves(s: Asl, a: Addr, p: Proc)
    requires PoolConserved(s)
    ensures PoolConserved(OutBlocked(s, a, p).0)
  {
    if a in s.active {
      assert OutBlocked(s, a, p).0.active.Keys == s.active.Keys;
    }
  }

  // ------------------------------------------------------------- pigeonhole

  ghost function Heads(s: Asl, keys: set<Addr>): set<Proc>
    requires NoEmptyQueue(s) && keys <= s.active.Keys
  {
    set a | a in keys :: s.active[a][0]
  }

  lemma HeadIsNew(s: Asl, rest: set<Addr>, b: Addr)
    requires NoEmptyQueue(s) && QueuesDisjoint(s)
    requires rest <= s.active.Keys && b in s.active && b !in rest
    ensures s.active[b][0] !in Heads(s, rest)
  {
    forall a | a in rest ensures s.active[a][0] != s.active[b][0] {
      var p, q := s.active[a][0], s.active[b][0];
      assert p in s.active[a] && q in s.active[b];
    }
  }

  lemma {:induction false} HeadsCount(s: Asl, keys: set<Addr>)
    requires NoEmptyQueue(s) && QueuesDisjoint(s) && keys <= s.active.Keys
    ensures |Heads(s, keys)| == |keys|
  {
    if keys == {} {
      assert Heads(s, keys) == {};
    } else {
      var b := Pick(keys);
      var rest := keys - {b};
      HeadsCount(s, rest);
      HeadIsNew(s, rest, b);
      assert Heads(s, keys) == Heads(s, rest) + {s.active[b][0]};
    }
  }

  lemma {:induction false} ProcsBelow(n: nat, D: set<Proc>)
    requires forall p :: p in D ==> p < n
    ensures |D| <= n
  {
    if n > 0 && n - 1 < MAXPROC {
      var last: Proc := n - 1;
      ProcsBelow(n - 1, D - {last});
      assert |D| <= |D - {last}| + 1;
    } else if n > 0 {
      ProcsBelow(n - 1, D);
    } else {
      assert D == {};
    }
  }

  /** While every active queue holds somebody, blocking a process that
      is in no queue cannot run out of descriptors, on any semaphore. */
  lemma DescriptorsSuffice(s: Asl, p: Proc, a: Addr)
    requires PoolConserved(s) && NoEmptyQueue(s) && QueuesDisjoint(s)
    requires forall b :: b in s.active ==> p !in s.active[b]
    ensures Available(s, a)
  {
    HeadsCount(s, s.active.Keys);
    var hs := Heads(s, s.active.Keys);
    assert p !in hs;
    ProcsBelow(MAXPROC, hs + {p});
    assert |hs + {p}| == |hs| + 1;
  }
}
