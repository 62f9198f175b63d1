/** Basic vocabulary shared by the kernel modules. */
module Processes {

  datatype Option<+T> = None | Some(value: T)

  type Positive = n: nat | 0 < n witness 1

  /** The size of the static PCB table; symbolic, so that nothing is proved by enumeration. */
  const MAXPROC: Positive

  /** A PCB is named by its slot in `pcbFree_table`. */
  type Proc = n: nat | n < MAXPROC witness 0

  /** The free list after `initPcbs` has linked in `n` PCBs: the last one first. */
  function FreeSlots(n: nat): seq<Proc>
    requires n <= MAXPROC
  {
    seq(n, i requires 0 <= i < n => n - 1 - i)
  }

  /** The number of U-procs, and of flash devices; symbolic. */
  const UPROCMAX: Positive

  /** The address of a semaphore variable, counted in words. */
  type Addr = int

  const NULL: Addr := 0

  /** A saved processor state: register a0 and everything else. */
  datatype Regs = Regs(a0: int, rest: int)

  /** The fields of a PCB that are neither links nor scheduling data. */
  datatype PcbData = PcbData(time: int, support: bool, saved: Regs)

  const NoData := PcbData(0, false, Regs(0, 0))

  lemma NoMembers<T(!new)>(s: set<T>)
    requires forall x :: x !in s
    ensures s == {}
  {
  }

  /** Some member of a set that is not empty. */
  lemma Pick<T(!new)>(s: set<T>) returns (x: T)
    requires s != {}
    ensures x in s
  {
    if y :| y in s {
      x := y;
    } else {
      NoMembers(s);
      assert false;
    }
  }
}
