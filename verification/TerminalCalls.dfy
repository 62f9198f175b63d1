/**
 The terminal calls SYS4 and SYS5 of phase3/sysSupport.c. What the device answers to the
 n-th DOIO of a call is a parameter, `status(n)`, a word of 32 bits: the low byte is the
 status code, the next byte the character received. A result is a signed word.
 */
module TerminalCalls {
  import Devices

  const KUSEG := 0x8000_0000
  const MAXSTRINGLEN := 128
  const OKCHARTRANS := 5
  const RECVD := 5
  const TRANSMITCHAR := 2
  const RECEIVECHAR := 2
  const NEWLINE: Byte := 10

  /** The registers of terminal 0. */
  const TERM0_BASE := Devices.START_DEVREG + 4 * 0x80

  type Byte = n: nat | n < 256
  type Word = w: nat | w < 0x1_0000_0000

  /** `-(int) status`: the signed word whose sum with the status is 0. */
  function Negated(w: Word): (v: int)
    ensures -0x8000_0000 <= v < 0x8000_0000 && (v + w) % 0x1_0000_0000 == 0
    ensures v < 0 <==> 0 < w <= 0x8000_0000
  {
    (if w <= 0x8000_0000 then 0 else 0x1_0000_0000) - w
  }

  /** A call ends with a program trap or with a value in a0. */
  datatype Outcome = Trap | Done(a0: int)

  /** One DOIO: the register and what is written to it. */
  datatype Command = Command(addr: int, value: int)

  predicate Good(status: Word, code: nat) { status % 256 == code }

  function CharOf(status: Word): Byte { status / 256 % 256 }

  /** What the device answers reaches a caller of DOIO only through the terminal interrupt,
      which wakes nobody while the status byte is 0. */
  ghost predicate Delivered(status: nat -> Word) { forall k: nat :: status(k) % 256 != 0 }

  // ------------------------------------------------------------------ what the calls promise

  /** SYS4 after `tried` DOIOs: all but the last succeeded, and the call has stopped at the
      first failure, whose negated status is its result, or behind the last character. */
  ghost predicate Written(len: int, status: nat -> Word, r: Outcome, tried: nat) {
    && r.Done? && tried <= len
    && (forall k: nat :: k + 1 < tried ==> status(k) % 0x100 == 5)
    && (|| (tried == len && (tried > 0 ==> status(tried - 1) % 0x100 == 5) && r.a0 == len)
        || (tried > 0 && status(tried - 1) % 0x100 != 5 && r.a0 == Negated(status(tried - 1))))
  }

  /** SYS5 after `tried` DOIOs: the characters received are in the buffer in order; the call has
      stopped at the first failure, behind the first newline, or with 128 characters. */
  ghost predicate Received(status: nat -> Word, r: Outcome, buf: seq<Byte>, tried: nat) {
    && r.Done? && |buf| <= 128
    && (forall k :: 0 <= k < |buf| ==> status(k) % 0x100 == 5 && buf[k] == status(k) / 0x100 % 0x100)
    && (forall k :: 0 <= k < |buf| - 1 ==> buf[k] != 10)
    && (|| (tried == |buf| && r.a0 == |buf| && buf != [] && (buf[|buf| - 1] == 10 || |buf| == 128))
        || (tried == |buf| + 1 && |buf| < 128 && status(|buf|) % 0x100 != 5 && r.a0 == Negated(status(|buf|))
            && (buf != [] ==> buf[|buf| - 1] != 10)))
  }

  /** The answer of the terminal when the user types `c`, whatever is in the upper half word. */
  ghost predicate Types(w: Word, c: Byte) {
    exists h: nat :: w == h * 0x1_0000 + c * 0x100 + 5
  }

  lemma TypedWord(w: Word, c: Byte)
    requires Types(w, c)
    ensures w % 0x100 == 5 && w / 0x100 % 0x100 == c
  {
    var h: nat :| w == h * 0x1_0000 + c * 0x100 + 5;
    assert w == 0x100 * (h * 0x100 + c) + 5;
    assert w / 0x100 == h * 0x100 + c;
  }

  /** `line` is typed: these are the answers of the terminal to the first DOIOs. */
  ghost predicate TypesLine(status: nat -> Word, line: seq<Byte>) {
    forall k :: 0 <= k < |line| ==> Types(status(k), line[k])
  }

  lemma TypedGood(status: nat -> Word, line: seq<Byte>)
    requires TypesLine(status, line)
    ensures forall k: nat :: k < |line| ==> Good(status(k), RECVD) && CharOf(status(k)) == line[k]
  {
    forall k: nat | k < |line| ensures Good(status(k), RECVD) && CharOf(status(k)) == line[k] {
      TypedWord(status(k), line[k]);
    }
  }

  /** A call in terms of what its status words mean. */
  lemma ReceivedMeans(status: nat -> Word, r: Outcome, buf: seq<Byte>, tried: nat)
    requires Received(status, r, buf, tried)
    ensures r.Done? && |buf| <= 128
    ensures forall k :: 0 <= k < |buf| ==> Good(status(k), RECVD) && buf[k] == CharOf(status(k))
    ensures forall k :: 0 <= k < |buf| - 1 ==> buf[k] != 10
    ensures tried == |buf| || tried == |buf| + 1
    ensures tried == |buf| ==> r.a0 == |buf| && buf != [] && (buf[|buf| - 1] == 10 || |buf| == 128)
    ensures tried != |buf| ==> |buf| < 128 && !Good(status(|buf|), RECVD) && r.a0 == Negated(status(|buf|))
    ensures tried != |buf| && buf != [] ==> buf[|buf| - 1] != 10
  {
  }

  /** A line of at most 128 characters comes back as it was typed, newline included, with its
      length as the result. */
  lemma TypedLineComesBack(status: nat -> Word, r: Outcome, buf: seq<Byte>, tried: nat, line: seq<Byte>)
    requires Received(status, r, buf, tried) && TypesLine(status, line)
    requires 0 < |line| <= 128 && line[|line| - 1] == 10 && forall k :: 0 <= k < |line| - 1 ==> line[k] != 10
    ensures buf == line && r == Done(|line|) && tried == |line|
  {
    hide *;
    ReceivedMeans(status, r, buf, tried);
    TypedGood(status, line);
    assert |buf| >= |line| ==> buf[|line| - 1] == 10;
  }

  /** Of a longer line the first 128 characters come back. */
  lemma LongLineIsCut(status: nat -> Word, r: Outcome, buf: seq<Byte>, tried: nat, line: seq<Byte>)
    requires Received(status, r, buf, tried) && TypesLine(status, line)
    requires |line| == 128 && forall k :: 0 <= k < 128 ==> line[k] != 10
    ensures buf == line && r == Done(128) && tried == 128
  {
    hide *;
    ReceivedMeans(status, r, buf, tried);
    TypedGood(status, line);
    assert buf != [] ==> buf[|buf| - 1] != 10;
  }

  /** A failure behind `line` ends the call with the negated status; what was typed before it is
      in the buffer. */
  lemma ReadFails(status: nat -> Word, r: Outcome, buf: seq<Byte>, tried: nat, line: seq<Byte>)
    requires Received(status, r, buf, tried) && TypesLine(status, line)
    requires |line| < 128 && status(|line|) % 0x100 != 5 && forall k :: 0 <= k < |line| ==> line[k] != 10
    ensures buf == line && r == Done(Negated(status(|line|))) && tried == |line| + 1
  {
    assert !Good(status(|line|), RECVD);
    hide *;
    ReceivedMeans(status, r, buf, tried);
    TypedGood(status, line);
    assert buf != [] && |buf| <= |line| ==> buf[|buf| - 1] != 10;
  }

  /** Whatever is written or read: the result is negative exactly when the last DOIO has failed
      with a status of at most 0x80000000. */
  lemma SignTellsFailure(len: int, status: nat -> Word, r: Outcome, buf: seq<Byte>, tried: nat)
    requires Delivered(status)
    ensures Written(len, status, r, tried) ==>
              (r.a0 < 0 <==> tried > 0 && status(tried - 1) % 0x100 != 5 && status(tried - 1) <= 0x8000_0000)
    ensures Received(status, r, buf, tried) ==>
              tried > 0 && (r.a0 < 0 <==> status(tried - 1) % 0x100 != 5 && status(tried - 1) <= 0x8000_0000)
  {
  }

  /** SYS4 sends everything if no DOIO fails, and otherwise stops behind the first that does. */
  lemma WrittenIs(len: nat, status: nat -> Word, r: Outcome, tried: nat, fails: nat)
    requires Written(len, status, r, tried)
    requires fails <= len && (forall k: nat :: k < fails ==> status(k) % 0x100 == 5)
    requires fails < len ==> status(fails) % 0x100 != 5
    ensures if fails == len then tried == len && r == Done(len)
            else tried == fails + 1 && r == Done(Negated(status(fails)))
  {
  }

  /** Where the two calls wait: the registers they write are those of the transmitter and the
      receiver of terminal 0. */
  lemma RegistersAre()
    ensures TERM0_BASE + 0x0C == Devices.RegisterAddr(7, 0, 0x0C) && Devices.SemIndex(0x1000_0260) == 40
    ensures TERM0_BASE + 0x04 == Devices.RegisterAddr(7, 0, 0x04) && Devices.SemIndex(0x1000_0258) == 32
  {
  }

  class Terminal {
    var termMutexTX: int
    var termMutexRX: int
    // the DOIOs so far
    var issued: seq<Command>

    constructor ()
      ensures termMutexTX == 1 && termMutexRX == 1 && issued == []
    {
      termMutexTX, termMutexRX, issued := 1, 1, [];
    }

    /** SYS4: each DOIO sends one character of the string, in order. */
    method WriteTerminal(ptr: nat, str: nat -> Byte, len: int, status: nat -> Word) returns (r: Outcome, tried: nat)
      requires Delivered(status)
      modifies this
      ensures r.Trap? <==> len < 0 || len > 128 || ptr < 0x8000_0000
      ensures if r.Trap? then tried == 0 else Written(len, status, r, tried)
      ensures issued == old(issued) + seq(tried, k requires 0 <= k < tried => Command(0x1000_0260, str(k) * 0x100 + 2))
      ensures termMutexTX == old(termMutexTX) && termMutexRX == old(termMutexRX)
    {
      tried := 0;
      if len < 0 || len > MAXSTRINGLEN || ptr < KUSEG {
        return Trap, 0;
      }
      termMutexTX := termMutexTX - 1;
      var txCmdAddr, written := TERM0_BASE + 0x0C, 0;
      for i := 0 to len
        invariant tried == written == i
        invariant forall k: nat :: k < i ==> Good(status(k), OKCHARTRANS)
        invariant issued == old(issued) + seq(i, k requires 0 <= k < i => Command(0x1000_0260, str(k) * 0x100 + 2))
        invariant termMutexTX == old(termMutexTX) - 1 && termMutexRX == old(termMutexRX)
      {
        issued := issued + [Command(txCmdAddr, str(i) * 0x100 + TRANSMITCHAR)];
        tried := tried + 1;
        if !Good(status(i), OKCHARTRANS) {
          termMutexTX := termMutexTX + 1;
          return Done(Negated(status(i))), tried;
        }
        written := written + 1;
      }
      termMutexTX := termMutexTX + 1;
      r := Done(written);
    }

    /** SYS5: each DOIO asks for one character. */
    method ReadTerminal(ptr: nat, status: nat -> Word) returns (r: Outcome, buf: seq<Byte>, tried: nat)
      requires Delivered(status)
      modifies this
      ensures r.Trap? <==> ptr < 0x8000_0000
      ensures if r.Trap? then buf == [] && tried == 0 else Received(status, r, buf, tried)
      ensures issued == old(issued) + seq(tried, k requires 0 <= k < tried => Command(0x1000_0258, 2))
      ensures termMutexTX == old(termMutexTX) && termMutexRX == old(termMutexRX)
    {
      buf, tried := [], 0;
      if ptr < KUSEG {
        return Trap, [], 0;
      }
      termMutexRX := termMutexRX - 1;
      var rxCmdAddr := TERM0_BASE + 0x04;
      while |buf| < MAXSTRINGLEN
        invariant |buf| <= MAXSTRINGLEN && tried == |buf|
        invariant forall k :: 0 <= k < |buf| ==> Good(status(k), RECVD) && buf[k] == CharOf(status(k)) && buf[k] != NEWLINE
        invariant issued == old(issued) + seq(tried, k requires 0 <= k < tried => Command(0x1000_0258, 2))
        invariant termMutexTX == old(termMutexTX) && termMutexRX == old(termMutexRX) - 1
        decreases MAXSTRINGLEN - |buf|
      {
        var st := status(|buf|);
        issued, tried := issued + [Command(rxCmdAddr, RECEIVECHAR)], tried + 1;
        if !Good(st, RECVD) {
          termMutexRX := termMutexRX + 1;
          return Done(Negated(st)), buf, tried;
        }
        var c := CharOf(st);
        buf := buf + [c];
        if c == NEWLINE {
          break;
        }
      }
      termMutexRX := termMutexRX + 1;
      r := Done(|buf|);
    }
  }
}
