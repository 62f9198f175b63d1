/** How a device register address and a device interrupt lead to a semaphore:
    the two computations of phase2/exception.c and phase2/interrupt.c. */
module Devices {

  const START_DEVREG := 0x10000054
  const LAST_ACCEPTED := 0x100002D4

  predicate Accepted(addr: int) { START_DEVREG <= addr <= LAST_ACCEPTED }

  /** The semaphore index `doIO` computes from the address of a command register. */
  function SemIndex(addr: int): (i: int)
    requires Accepted(addr)
    ensures 0 <= i < 48
  {
    var offset := addr - START_DEVREG;
    var line, dev := offset / 0x80 + 3, offset % 0x80 / 0x10;
    if line == 7 then (if offset % 0x10 >= 8 then 40 + dev else 32 + dev)
    else (line - 3) * 8 + dev
  }

  /** DEV_REG_BASE plus the offset of a register inside the block of the device. */
  function RegisterAddr(line: int, dev: int, reg: int): int {
    START_DEVREG + (line - 3) * 0x80 + dev * 0x10 + reg
  }

  /** DEV_SEM_BASE, TERM_TX_SEM and TERM_RX_SEM of the interrupt handler. */
  function HandlerIndex(line: int, dev: int, transmitter: bool): int {
    if line != 7 then (line - 3) * 8 + dev
    else if transmitter then 40 + dev else 32 + dev
  }

  /** `getHighestPriorityDevice` on the eight bits of a line: the lowest one set. */
  method GetHighestPriorityDevice(bitmap: seq<bool>) returns (dev: int)
    requires |bitmap| == 8
    ensures -1 <= dev < 8
    ensures dev == -1 <==> true !in bitmap
    ensures dev >= 0 ==> bitmap[dev] && forall i :: 0 <= i < dev ==> !bitmap[i]
    ensures dev == Lowest(bitmap)
  {
    for i := 0 to 8
      invariant forall j :: 0 <= j < i ==> !bitmap[j]
    {
      if bitmap[i] {
        LowestIs(bitmap, i);
        return i;
      }
    }
    LowestIs(bitmap, -1);
    return -1;
  }

  /** The lowest bit set, or -1. */
  function Lowest(bitmap: seq<bool>): (dev: int)
    ensures -1 <= dev < |bitmap|
    ensures dev >= 0 ==> bitmap[dev]
  {
    if bitmap == [] then -1
    else if bitmap[0] then 0
    else var d := Lowest(bitmap[1..]); if d < 0 then -1 else d + 1
  }

  lemma {:induction false} LowestIs(bitmap: seq<bool>, dev: int)
    requires -1 <= dev < |bitmap|
    requires dev >= 0 ==> bitmap[dev]
    requires forall j :: 0 <= j < (if dev < 0 then |bitmap| else dev) ==> !bitmap[j]
    ensures Lowest(bitmap) == dev
  {
    if bitmap != [] && dev != 0 {
      LowestIs(bitmap[1..], if dev < 0 then -1 else dev - 1);
    }
  }

  lemma SplitOffset(line: int, dev: int, reg: int)
    requires 3 <= line <= 7 && 0 <= dev < 8 && 0 <= reg < 0x10
    ensures var offset := RegisterAddr(line, dev, reg) - START_DEVREG;
            && offset / 0x80 + 3 == line && offset % 0x80 / 0x10 == dev && offset % 0x10 == reg
  {
    var offset := RegisterAddr(line, dev, reg) - START_DEVREG;
    var low := dev * 0x10 + reg;
    assert offset == (line - 3) * 0x80 + low && 0 <= low < 0x80;
    assert offset / 0x80 == line - 3 && offset % 0x80 == low;
    assert offset % 0x10 == low % 0x10;
  }

  /** For every register of every device, `doIO` blocks the caller on the semaphore
      the interrupt handler of that device looks at. */
  lemma RoutingAgrees(line: int, dev: int, reg: int)
    requires 3 <= line <= 7 && 0 <= dev < 8 && 0 <= reg < 0x10
    ensures Accepted(RegisterAddr(line, dev, reg))
    ensures SemIndex(RegisterAddr(line, dev, reg)) == HandlerIndex(line, dev, reg >= 8)
  {
    SplitOffset(line, dev, reg);
  }

  /** Every accepted address below the last belongs to exactly one device register ... */
  lemma AddressIsRegister(addr: int) returns (line: int, dev: int, reg: int)
    requires START_DEVREG <= addr < LAST_ACCEPTED
    ensures 3 <= line <= 7 && 0 <= dev < 8 && 0 <= reg < 0x10
    ensures addr == RegisterAddr(line, dev, reg)
    ensures forall l, d, r :: (3 <= l <= 7 && 0 <= d < 8 && 0 <= r < 0x10 && addr == RegisterAddr(l, d, r))
              ==> l == line && d == dev && r == reg
  {
    var offset := addr - START_DEVREG;
    line, dev, reg := offset / 0x80 + 3, offset % 0x80 / 0x10, offset % 0x10;
    assert offset % 0x80 % 0x10 == offset % 0x10;
    forall l, d, r | 3 <= l <= 7 && 0 <= d < 8 && 0 <= r < 0x10 && addr == RegisterAddr(l, d, r)
      ensures l == line && d == dev && r == reg
    {
      SplitOffset(l, d, r);
    }
  }

  /** ... and the last one belongs to none, yet `doIO` accepts it and blocks its caller
      on the transmitter of terminal 0. */
  lemma LastAddressAliases()
    ensures Accepted(LAST_ACCEPTED) && SemIndex(LAST_ACCEPTED) == HandlerIndex(7, 0, true)
    ensures forall line, dev, reg :: 3 <= line <= 7 && 0 <= dev < 8 && 0 <= reg < 0x10
              ==> RegisterAddr(line, dev, reg) != LAST_ACCEPTED
  {
  }
}
