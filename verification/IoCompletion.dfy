/**
 SYS5 from end to end: the register a process asks for, the semaphore it is blocked on, and
 the interrupt that wakes it.
 */
module IoCompletion {
  import opened Processes
  import opened ProcQueue
  import opened ProcTree
  import opened Scheduling
  import opened SchedulingKeeps
  import opened Termination
  import opened Kernel
  import opened KernelKeeps
  import opened KernelSemaphores
  import KernelHistory
  import opened KernelTheorems
  import Devices
  import Asl = SemList

  predicate IsRegister(line: int, dev: int, reg: int) { 3 <= line <= 7 && 0 <= dev < 8 && 0 <= reg < 0x10 }

  /** Where the caller of SYS5 on a register of device (line, dev) waits. */
  function SemOfRegister(line: int, dev: int, reg: int): Addr { DeviceSem(Devices.HandlerIndex(line, dev, reg >= 8)) }

  /** The interrupt is that of the device (line, dev), and for a terminal it reports something
      for the half of the register. */
  predicate Reports(op: Op, line: int, dev: int, reg: int) {
    if line == 7
    then op.TerminalInterrupt? && Devices.Lowest(op.pending) == dev && (if reg >= 8 then op.tx else op.rx) % 256 != 0
    else op.DeviceInterrupt? && op.line == line && Devices.Lowest(op.pending) == dev
  }

  function StatusFor(op: Op, reg: int): int
    requires op.TerminalInterrupt? || op.DeviceInterrupt?
  {
    if op.DeviceInterrupt? then op.status else if reg >= 8 then op.tx else op.rx
  }

  predicate WaitsFirst(s: KState, p: Proc, a: Addr) {
    Asl.Queue(s.q.asl, a) != [] && Asl.Queue(s.q.asl, a)[0] == p
  }

  /** `p` has left the semaphore and will run with this in a0. */
  predicate Woken(r: KState, p: Proc, a: Addr, status: int) {
    && p !in Asl.Queue(r.q.asl, a)
    && (p in r.q.ready || r.q.current == Some(p))
    && r.pcb[p].saved.a0 == status
  }

  lemma SemOfRegisterIsOwn(line: int, dev: int, reg: int, line': int, dev': int, reg': int)
    requires IsRegister(line, dev, reg) && IsRegister(line', dev', reg')
    ensures SemOfRegister(line, dev, reg) == SemOfRegister(line', dev', reg')
      <==> line == line' && dev == dev' && (line == 7 ==> (reg >= 8) == (reg' >= 8))
    ensures IsSoft(SemOfRegister(line, dev, reg)) && SemOfRegister(line, dev, reg) != CLOCK
  {
  }

  /** SYS5 blocks its caller on the semaphore of the device whose register it names. */
  lemma CallerBlocks(s: KState, p: Proc, st: Regs, line: int, dev: int, reg: int, c: Tod)
    requires Inv(s) && s.mode == Running && s.q.current == Some(p) && IsRegister(line, dev, reg)
    requires Enabled(s, Step(DoIO(st, Devices.RegisterAddr(line, dev, reg)), c))
    ensures TreeInv(s.f) && RootKnown(s.f)
    ensures var a, r := SemOfRegister(line, dev, reg), Next(s, Step(DoIO(st, Devices.RegisterAddr(line, dev, reg)), c));
            && r.q.semAdd[p] == a
            && Asl.Queue(r.q.asl, a) == Insert(Asl.Queue(s.q.asl, a), s.q.prio, p) && p in Asl.Queue(r.q.asl, a)
            && r.pcb[p].saved == st
  {
    hide TreeInv, SchedInv, TimeInv, Insert;
    Devices.RoutingAgrees(line, dev, reg);
    InsertMembers(Asl.Queue(s.q.asl, SemOfRegister(line, dev, reg)), s.q.prio, p);
  }

  // ------------------------------------------------------------------- one interrupt

  lemma FirstOnlyHere(q: Sched, live: set<Proc>, a: Addr, b: Addr)
    requires Placed(q, live) && Asl.Queue(q.asl, a) != [] && Asl.Queue(q.asl, b) != []
    ensures Asl.Queue(q.asl, a)[0] == Asl.Queue(q.asl, b)[0] ==> a == b
    ensures Asl.Queue(q.asl, a)[0] !in Asl.Queue(q.asl, a)[1..]
  {
    var v, w := Asl.Queue(q.asl, a), Asl.Queue(q.asl, b);
    assert v[0] in q.asl.active[a] && w[0] in q.asl.active[b];
    assert q.semAdd[v[0]] == a && q.semAdd[w[0]] == b;
    assert v == [v[0]] + v[1..];
  }

  /** The service of one device semaphore `b`, as seen by the first waiter of `a`. */
  lemma ServeEffect(s: KState, p: Proc, a: Addr, b: Addr, status: int)
    requires Base(s) && WaitsFirst(s, p, a) && IsSoft(a) && IsSoft(b)
    ensures var r := Serve(s, b, status);
            if a == b then p !in Asl.Queue(r.q.asl, a) && p in r.q.ready && r.pcb[p].saved.a0 == status
            else WaitsFirst(r, p, a)
  {
    hide Base, Serve, Insert, IsSoft;
    DeviceWakesFirst(s, b, status);
    BasePlaced(s);
    var w := Asl.Queue(s.q.asl, b);
    if w != [] {
      FirstOnlyHere(s.q, LiveSet(s.f), a, b);
      InsertMembers(s.q.ready, s.q.prio, w[0]);
    }
  }

  lemma BasePlaced(s: KState)
    requires Base(s)
    ensures Placed(s.q, LiveSet(s.f))
  {
  }

  /** The end of an interrupt changes nothing for either. */
  lemma ResumeEffect(s: KState, p: Proc, a: Addr, now: int)
    ensures var r := Resume(s, now);
            && r.q.asl == s.q.asl && r.pcb == s.pcb
            && (p in s.q.ready ==> p in r.q.ready || r.q.current == Some(p))
  {
    if s.q.ready != [] {
      assert s.q.ready == [s.q.ready[0]] + s.q.ready[1..];
    }
  }

  /** What both say about a later state in which nothing has been served in between. */
  ghost predicate Settled(s: KState, p: Proc, a: Addr, reached: bool, status: int) {
    if reached then p !in Asl.Queue(s.q.asl, a) && p in s.q.ready && s.pcb[p].saved.a0 == status
    else WaitsFirst(s, p, a)
  }

  lemma Settles(s: KState, p: Proc, a: Addr, reached: bool, status: int, now: int)
    requires Settled(s, p, a, reached, status)
    ensures var r := Resume(s, now);
            if reached then Woken(r, p, a, status) else p in Asl.Queue(r.q.asl, a)
  {
    hide Resume;
    ResumeEffect(s, p, a, now);
  }

  lemma DeviceEffect(s: KState, p: Proc, a: Addr, op: Op, c: Tod)
    requires Inv(s) && s.start <= c.t1 && WaitsFirst(s, p, a) && op.DeviceInterrupt?
    requires 3 <= op.line <= 6 && |op.pending| == 8 && IsSoft(a)
    ensures var r := DoDevice(s, op.line, op.pending, op.status, c);
            var dev := Devices.Lowest(op.pending);
            if dev >= 0 && a == SemOfRegister(op.line, dev, 0)
            then Woken(r, p, a, op.status) else p in Asl.Queue(r.q.asl, a)
  {
    hide Base, Serve, Resume, InterruptEntry;
    EntryKeeps(s, c.t1);
    var s1, dev := InterruptEntry(s, c.t1), Devices.Lowest(op.pending);
    if dev < 0 {
      Settles(s1, p, a, false, 0, c.t2);
    } else {
      var b := SemOfRegister(op.line, dev, 0);
      ServeEffect(s1, p, a, b, op.status);
      Settles(Serve(s1, b, op.status), p, a, a == b, op.status, c.t2);
    }
  }

  lemma TerminalEffect(s: KState, p: Proc, a: Addr, op: Op, c: Tod)
    requires Inv(s) && s.start <= c.t1 && WaitsFirst(s, p, a) && op.TerminalInterrupt? && |op.pending| == 8 && IsSoft(a)
    ensures var r := DoTerminal(s, op.pending, op.tx, op.rx, c);
            var dev := Devices.Lowest(op.pending);
            if dev >= 0 && a == SemOfRegister(7, dev, 8) && op.tx % 256 != 0 then Woken(r, p, a, op.tx)
            else if dev >= 0 && a == SemOfRegister(7, dev, 0) && op.rx % 256 != 0 then Woken(r, p, a, op.rx)
            else p in Asl.Queue(r.q.asl, a)
  {
    hide Base, Serve, Resume, InterruptEntry;
    EntryKeeps(s, c.t1);
    var s1, dev := InterruptEntry(s, c.t1), Devices.Lowest(op.pending);
    if dev < 0 {
      Settles(s1, p, a, false, 0, c.t2);
    } else {
      TerminalServes(s1, p, a, dev, op.tx, op.rx);
      var tx, rx := SemOfRegister(7, dev, 8), SemOfRegister(7, dev, 0);
      var s2 := if op.tx % 256 != 0 then Serve(s1, tx, op.tx) else s1;
      var s3 := if op.rx % 256 != 0 then Serve(s2, rx, op.rx) else s2;
      Settles(s3, p, a, (a == tx && op.tx % 256 != 0) || (a == rx && op.rx % 256 != 0),
              if a == tx then op.tx else op.rx, c.t2);
    }
  }

  lemma TerminalServes(s: KState, p: Proc, a: Addr, dev: int, tx: nat, rx: nat)
    requires Base(s) && WaitsFirst(s, p, a) && IsSoft(a) && 0 <= dev < 8
    ensures var b, d := SemOfRegister(7, dev, 8), SemOfRegister(7, dev, 0);
            var s2 := if tx % 256 != 0 then Serve(s, b, tx) else s;
            var s3 := if rx % 256 != 0 then Serve(s2, d, rx) else s2;
            Settled(s3, p, a, (a == b && tx % 256 != 0) || (a == d && rx % 256 != 0), if a == b then tx else rx)
  {
    hide Base, Serve;
    var b, d := SemOfRegister(7, dev, 8), SemOfRegister(7, dev, 0);
    SemOfRegisterIsOwn(7, dev, 8, 7, dev, 0);
    if tx % 256 != 0 {
      ServeEffect(s, p, a, b, tx);
      ServeKeeps(s, b, tx);
    }
    var s2 := if tx % 256 != 0 then Serve(s, b, tx) else s;
    if rx % 256 != 0 {
      if a == b && tx % 256 != 0 {
        ServeOther(s2, p, a, d, rx);
      } else {
        ServeEffect(s2, p, a, d, rx);
      }
    }
  }

  /** Who has been woken is not touched by the service of another semaphore. */
  lemma ServeOther(s: KState, p: Proc, a: Addr, b: Addr, status: int)
    requires Base(s) && p in s.q.ready && p !in Asl.Queue(s.q.asl, a) && a != b && IsSoft(b)
    ensures var r := Serve(s, b, status);
            p in r.q.ready && r.pcb[p] == s.pcb[p] && p !in Asl.Queue(r.q.asl, a)
  {
    hide Base, Serve, Insert, IsSoft;
    DeviceWakesFirst(s, b, status);
    BasePlaced(s);
    var w := Asl.Queue(s.q.asl, b);
    if w != [] {
      assert w[0] in s.q.asl.active[b];
      InsertMembers(s.q.ready, s.q.prio, w[0]);
    }
  }

  lemma InterruptEffect(t: KState, p: Proc, line: int, dev: int, reg: int, irq: Step)
    requires Inv(t) && TreeInv(t.f) && RootKnown(t.f) && IsRegister(line, dev, reg)
    requires WaitsFirst(t, p, SemOfRegister(line, dev, reg))
    requires Willing(t, irq) && IsInterrupt(irq.op)
    ensures var a, r := SemOfRegister(line, dev, reg), Next(t, irq);
            if Reports(irq.op, line, dev, reg) then Woken(r, p, a, StatusFor(irq.op, reg))
            else p in Asl.Queue(r.q.asl, a)
  {
    hide Inv, TreeInv, DoDevice, DoTerminal, DoTick, DoQuantum, Woken;
    var a := SemOfRegister(line, dev, reg);
    SemOfRegisterIsOwn(line, dev, reg, line, dev, reg);
    match irq.op
    case QuantumExpiry(st) => QuantumEffect(t, st, irq.c, a);
    case ClockTick => TickEffect(t, irq.c, a);
    case DeviceInterrupt(l, pending, status) =>
      var d := Devices.Lowest(pending);
      if d >= 0 { SemOfRegisterIsOwn(line, dev, reg, l, d, 0); }
      DeviceEffect(t, p, a, irq.op, irq.c);
    case TerminalInterrupt(pending, tx, rx) =>
      var d := Devices.Lowest(pending);
      if d >= 0 {
        SemOfRegisterIsOwn(line, dev, reg, 7, d, 0);
        SemOfRegisterIsOwn(line, dev, reg, 7, d, 8);
      }
      TerminalEffect(t, p, a, irq.op, irq.c);
  }

  lemma QuantumEffect(t: KState, st: Regs, c: Tod, a: Addr)
    ensures Asl.Queue(DoQuantum(t, st, c).q.asl, a) == Asl.Queue(t.q.asl, a)
  {
  }

  lemma TickEffect(t: KState, c: Tod, a: Addr)
    requires a != CLOCK
    ensures Asl.Queue(DoTick(t, c).q.asl, a) == Asl.Queue(t.q.asl, a)
  {
    hide WakeAll, SetA0All, Asl.Queue;
    var s1 := InterruptEntry(t, c.t1);
    WakeAllMerges(s1.q, CLOCK);
    var (q, woken) := Tick(s1.q);
    KernelHistory.SetA0AllFrame(s1.(q := q), woken, 0);
  }

  // ------------------------------------------------------------- everybody's place

  /** `x` stands in front of `p`. */
  predicate InFront(w: seq<Proc>, x: Proc, p: Proc) { IndexOf(w, x) < IndexOf(w, p) }

  /** From the queue `w` to the queue `v`: `p` is still there, and nobody has got in front of it
      but newcomers of higher priority. */
  ghost predicate KeepsPlace(w: seq<Proc>, v: seq<Proc>, prio: Prios, p: Proc) {
    p in v && forall x: Proc :: InFront(v, x, p) ==> InFront(w, x, p) || (x !in w && prio[x] > prio[p])
  }

  lemma IndexIs(w: seq<Proc>, i: nat)
    requires NoDup(w) && i < |w|
    ensures IndexOf(w, w[i]) == i
  {
  }

  lemma InsertKeepsPlace(w: seq<Proc>, prio: Prios, x: Proc, p: Proc)
    requires NoDup(w) && Sorted(w, prio) && p in w && x !in w
    ensures KeepsPlace(w, Insert(w, prio, x), prio, p)
  {
    hide IndexOf, NoDup, Slot;
    var v, i, k := Insert(w, prio, x), Slot(w, prio, prio[x]), IndexOf(w, p);
    InsertMembers(w, prio, x);
    assert v[if k < i then k else k + 1] == p;
    IndexIs(v, if k < i then k else k + 1);
    forall y: Proc | InFront(v, y, p) ensures InFront(w, y, p) || (y !in w && prio[y] > prio[p]) {
      var j := IndexOf(v, y);
      if j == i {
        assert y == x;
        assert prio[w[i]] >= prio[w[k]];
      } else {
        var m := if j < i then j else j - 1;
        assert w[m] == y;
        IndexIs(w, m);
      }
    }
  }

  lemma TailKeepsPlace(w: seq<Proc>, prio: Prios, p: Proc)
    requires NoDup(w) && p in w && w[0] != p
    ensures KeepsPlace(w, w[1..], prio, p)
  {
    var v, k := w[1..], IndexOf(w, p);
    assert v[k - 1] == p;
    IndexIs(v, k - 1);
    forall y: Proc | InFront(v, y, p) ensures InFront(w, y, p) {
      assert w[IndexOf(v, y) + 1] == y;
      IndexIs(w, IndexOf(v, y) + 1);
    }
  }

  lemma ConsFront(h: Proc, w: seq<Proc>, p: Proc)
    requires h != p
    ensures forall y: Proc :: InFront([h] + w, y, p) <==> y == h || InFront(w, y, p)
    ensures p in [h] + w <==> p in w
  {
    assert ([h] + w)[1..] == w;
  }

  lemma HeadFront(w: seq<Proc>, y: Proc)
    requires w != []
    ensures !InFront(w, y, w[0])
  {
  }

  lemma {:induction false} MinusOrder(w: seq<Proc>, D: set<Proc>, p: Proc)
    requires p in w && p !in D
    ensures p in Minus(w, D) && forall y: Proc :: InFront(Minus(w, D), y, p) ==> InFront(w, y, p)
  {
    hide InFront, IndexOf;
    if w[0] == p {
      forall y ensures !InFront(Minus(w, D), y, p) { HeadFront(Minus(w, D), y); }
    } else {
      assert w == [w[0]] + w[1..];
      ConsFront(w[0], w[1..], p);
      MinusOrder(w[1..], D, p);
      ConsFront(w[0], Minus(w[1..], D), p);
    }
  }

  lemma MinusKeepsPlace(w: seq<Proc>, D: set<Proc>, prio: Prios, p: Proc)
    requires p in w && p !in D
    ensures KeepsPlace(w, Minus(w, D), prio, p)
  {
    MinusOrder(w, D, p);
  }

  lemma SameKeepsPlace(w: seq<Proc>, prio: Prios, p: Proc)
    requires p in w
    ensures KeepsPlace(w, w, prio, p)
  {
  }

  // ------------------------------------------------------------- one step of the kernel

  /** What an interrupt does to the queue of a device semaphore. */
  lemma InterruptQueue(t: KState, line: int, dev: int, reg: int, irq: Step)
    requires Inv(t) && TreeInv(t.f) && RootKnown(t.f) && IsRegister(line, dev, reg)
    requires Willing(t, irq) && IsInterrupt(irq.op)
    ensures var a := SemOfRegister(line, dev, reg); var w := Asl.Queue(t.q.asl, a);
            Asl.Queue(Next(t, irq).q.asl, a) == if Reports(irq.op, line, dev, reg) && w != [] then w[1..] else w
  {
    hide Inv, TreeInv, DoDevice, DoTerminal, DoTick, DoQuantum;
    var a := SemOfRegister(line, dev, reg);
    SemOfRegisterIsOwn(line, dev, reg, line, dev, reg);
    match irq.op
    case QuantumExpiry(st) => QuantumEffect(t, st, irq.c, a);
    case ClockTick => TickEffect(t, irq.c, a);
    case DeviceInterrupt(l, pending, status) =>
      var d := Devices.Lowest(pending);
      if d >= 0 { SemOfRegisterIsOwn(line, dev, reg, l, d, 0); }
      DeviceQueue(t, a, irq.op, irq.c);
    case TerminalInterrupt(pending, tx, rx) =>
      var d := Devices.Lowest(pending);
      if d >= 0 {
        SemOfRegisterIsOwn(line, dev, reg, 7, d, 0);
        SemOfRegisterIsOwn(line, dev, reg, 7, d, 8);
      }
      TerminalQueue(t, a, irq.op, irq.c);
  }

  lemma ServeQueue(s: KState, a: Addr, b: Addr, status: int)
    requires Base(s) && IsSoft(b)
    ensures var w := Asl.Queue(s.q.asl, a);
            Asl.Queue(Serve(s, b, status).q.asl, a) == if a == b && w != [] then w[1..] else w
  {
    hide Base, Serve, Insert, IsSoft;
    DeviceWakesFirst(s, b, status);
  }

  lemma ResumeQueue(s: KState, now: int)
    ensures Resume(s, now).q.asl == s.q.asl
  {
  }

  lemma DeviceQueue(s: KState, a: Addr, op: Op, c: Tod)
    requires Inv(s) && s.start <= c.t1 && op.DeviceInterrupt? && 3 <= op.line <= 6 && |op.pending| == 8
    ensures var dev, w := Devices.Lowest(op.pending), Asl.Queue(s.q.asl, a);
            Asl.Queue(DoDevice(s, op.line, op.pending, op.status, c).q.asl, a) ==
            if dev >= 0 && a == SemOfRegister(op.line, dev, 0) && w != [] then w[1..] else w
  {
    hide Base, Serve, Resume, InterruptEntry;
    EntryKeeps(s, c.t1);
    var s1, dev := InterruptEntry(s, c.t1), Devices.Lowest(op.pending);
    if dev < 0 {
      ResumeQueue(s1, c.t2);
    } else {
      var b := SemOfRegister(op.line, dev, 0);
      SemOfRegisterIsOwn(op.line, dev, 0, op.line, dev, 0);
      ServeQueue(s1, a, b, op.status);
      ResumeQueue(Serve(s1, b, op.status), c.t2);
    }
  }

  lemma TerminalQueue(s: KState, a: Addr, op: Op, c: Tod)
    requires Inv(s) && s.start <= c.t1 && op.TerminalInterrupt? && |op.pending| == 8
    ensures var dev, w := Devices.Lowest(op.pending), Asl.Queue(s.q.asl, a);
            Asl.Queue(DoTerminal(s, op.pending, op.tx, op.rx, c).q.asl, a) ==
            if dev >= 0 && w != []
               && ((a == SemOfRegister(7, dev, 8) && op.tx % 256 != 0) || (a == SemOfRegister(7, dev, 0) && op.rx % 256 != 0))
            then w[1..] else w
  {
    hide Base, Serve, Resume, InterruptEntry;
    EntryKeeps(s, c.t1);
    var s1, dev := InterruptEntry(s, c.t1), Devices.Lowest(op.pending);
    if dev < 0 {
      ResumeQueue(s1, c.t2);
    } else {
      var tx, rx := SemOfRegister(7, dev, 8), SemOfRegister(7, dev, 0);
      SemOfRegisterIsOwn(7, dev, 8, 7, dev, 0);
      ServeQueue(s1, a, tx, op.tx);
      ServeKeeps(s1, tx, op.tx);
      var s2 := if op.tx % 256 != 0 then Serve(s1, tx, op.tx) else s1;
      ServeQueue(s2, a, rx, op.rx);
      ResumeQueue(if op.rx % 256 != 0 then Serve(s2, rx, op.rx) else s2, c.t2);
    }
  }

  /** What a system call that terminates nobody does to it: at most one newcomer. */
  lemma SyscallQueue(s: KState, step: Step, a: Addr)
    requires TreeInv(s.f) && RootKnown(s.f) && IsSoft(a) && a != CLOCK
    requires !IsInterrupt(step.op) && !step.op.TerminateProcess? && !step.op.PassUpOrDie?
    requires step.op.Passeren? || step.op.Verhogen? ==> !IsSoft(step.op.sem)
    ensures var w, v := Asl.Queue(s.q.asl, a), Asl.Queue(Next(s, step).q.asl, a);
            v == w || (s.q.current.Some? && v == Insert(w, s.q.prio, s.q.current.value))
  {
    hide TreeInv, Insert, BlockCurrent, Wake, Asl.Queue, Schedule;
    match step.op
    case CreateProcess(st, child, prio, support) => SameAsl(s.q, Next(s, step).q, a);
    case Passeren(st, b) =>
      BlockQueue(SetSem(s.q, b, Value(s.q, b) - 1), b, a);
      PasserenAsl(s, st, b, step.c);
      SameAsl(SemWait(s.q, b), Next(s, step).q, a);
    case Verhogen(st, b) => WakeMoves(SetSem(s.q, b, Value(s.q, b) + 1), b, false);
    case DoIO(st, addr) =>
      if Devices.Accepted(addr) {
        var b := DeviceSem(Devices.SemIndex(addr));
        BlockQueue(SetSem(s.q, b, Value(s.q, b) - 1), b, a);
        AwaitAsl(s, st, b, step.c);
      }
    case GetCPUTime(st) => SameAsl(s.q, Next(s, step).q, a);
    case WaitForClock(st) =>
      BlockQueue(SetSem(s.q, CLOCK, Value(s.q, CLOCK) - 1), CLOCK, a);
      AwaitAsl(s, st, CLOCK, step.c);
    case Yield(st) => YieldAsl(s, st, step.c);
  }

  lemma SameAsl(q: Sched, r: Sched, a: Addr)
    ensures r.asl == q.asl ==> Asl.Queue(r.asl, a) == Asl.Queue(q.asl, a)
  {
  }

  lemma BlockQueue(q: Sched, b: Addr, a: Addr)
    ensures var w, v := Asl.Queue(q.asl, a), Asl.Queue(BlockCurrent(q, b).asl, a);
            v == w || (a == b && q.current.Some? && v == Insert(w, q.prio, q.current.value))
  {
    hide Insert;
  }

  // ------------------------------------------------------------------------- whole runs

  /** The step terminates `p`, together with its target. */
  ghost predicate Dooms(s: KState, op: Op, p: Proc)
    requires TreeInv(s.f) && RootKnown(s.f)
  {
    Victim(s, op).Some? && Ancestor(s.f, Victim(s, op).value, p)
  }

  /** What a step does to a waiter of a device: the step terminates it, or is the interrupt of
      its device and half and finds it first, so that it is woken with the status; or it waits
      on, behind the same processes at most and newcomers of higher priority. */
  ghost predicate WaiterStep(s: KState, step: Step, t: KState, p: Proc, line: int, dev: int, reg: int)
    requires TreeInv(s.f) && RootKnown(s.f)
  {
    var a := SemOfRegister(line, dev, reg);
    if Dooms(s, step.op, p) then !Live(t.f, p)
    else if Reports(step.op, line, dev, reg) && WaitsFirst(s, p, a) then Woken(t, p, a, StatusFor(step.op, reg))
    else KeepsPlace(Asl.Queue(s.q.asl, a), Asl.Queue(t.q.asl, a), s.q.prio, p)
  }

  lemma WaiterFacts(s: KState, p: Proc, a: Addr)
    requires Base(s) && p in Asl.Queue(s.q.asl, a)
    ensures var w := Asl.Queue(s.q.asl, a);
            NoDup(w) && Sorted(w, s.q.prio) && (s.q.current.Some? ==> s.q.current.value !in w) && Live(s.f, p)
  {
    hide TreeInv, TimeInv, Counted, AllLawful, Logged;
    assert p in s.q.asl.active[a];
    assert p in LiveSet(s.f);
  }

  lemma DoomedDies(s: KState, step: Step, p: Proc)
    requires Inv(s) && Willing(s, step) && TreeInv(s.f) && RootKnown(s.f) && Live(s.f, p) && Dooms(s, step.op, p)
    ensures !Live(Next(s, step).f, p)
  {
    hide SchedInv, TimeInv, TreeInv, Kill, Schedule, Ancestor;
    BaseSplit(s);
    CurrentIsLive(s.f, s.q);
    var s1 := UpdateCPUTime(s, step.c.t1);
    if step.op.TerminateProcess? { TargetIsLive(s, step.op.pid); }
    var v := Victim(s, step.op).value;
    PostMembers(s.f, v, p);
    KillKeeps(s.f, s.q, v);
    var s2 := KillIn(s1, v);
    assert p !in LiveSet(s2.f);
    ScheduleTree(s2.(q := s2.q.(current := None)), step.c.t2);
  }

  /** The queue after a termination. */
  lemma KillQueue(s: KState, step: Step, a: Addr, p: Proc)
    requires Inv(s) && Willing(s, step) && TreeInv(s.f) && RootKnown(s.f)
    requires step.op.TerminateProcess? || step.op.PassUpOrDie?
    requires p in Asl.Queue(s.q.asl, a) && !Dooms(s, step.op, p)
    ensures KeepsPlace(Asl.Queue(s.q.asl, a), Asl.Queue(Next(s, step).q.asl, a), s.q.prio, p)
  {
    hide SchedInv, TimeInv, TreeInv, Kill, Schedule, Ancestor, Asl.Queue, KeepsPlace;
    BaseSplit(s);
    CurrentIsLive(s.f, s.q);
    var s1, w := UpdateCPUTime(s, step.c.t1), Asl.Queue(s.q.asl, a);
    if step.op.TerminateProcess? { TargetIsLive(s, step.op.pid); }
    match Victim(s, step.op)
    case None => SameKeepsPlace(w, s.q.prio, p);
    case Some(v) =>
      PlacedPart(s);
      PostMembers(s.f, v, p);
      KillCuts(s.f, s.q, v);
      MinusKeepsPlace(w, Members(Post(s.f, v)), s.q.prio, p);
      var s2 := KillIn(s1, v);
      ScheduleAsl(s2.(q := s2.q.(current := None)), step.c.t2);
  }

  lemma OneStep(s: KState, step: Step, p: Proc, line: int, dev: int, reg: int)
    requires Inv(s) && Enabled(s, step) && IsRegister(line, dev, reg)
    requires p in Asl.Queue(s.q.asl, SemOfRegister(line, dev, reg))
    ensures TreeInv(s.f) && RootKnown(s.f)
    ensures WaiterStep(s, step, Next(s, step), p, line, dev, reg)
  {
    hide Base, TreeInv, Next, KeepsPlace, Woken, Asl.Queue, Insert;
    var a := SemOfRegister(line, dev, reg);
    var w := Asl.Queue(s.q.asl, a);
    BaseSplit(s);
    SemOfRegisterIsOwn(line, dev, reg, line, dev, reg);
    WaiterFacts(s, p, a);
    SameKeepsPlace(w, s.q.prio, p);
    if IsInterrupt(step.op) {
      InterruptQueue(s, line, dev, reg, step);
      if WaitsFirst(s, p, a) { InterruptEffect(s, p, line, dev, reg, step); } else { TailKeepsPlace(w, s.q.prio, p); }
    } else if Dooms(s, step.op, p) {
      DoomedDies(s, step, p);
    } else if step.op.TerminateProcess? || step.op.PassUpOrDie? {
      KillQueue(s, step, a, p);
    } else {
      SyscallQueue(s, step, a);
      if s.q.current.Some? { InsertKeepsPlace(w, s.q.prio, s.q.current.value, p); }
    }
  }

  /** All states of a run. */
  ghost function Trace(s: KState, steps: seq<Step>): (r: seq<KState>)
    requires Inv(s) && Legal(s, steps)
    ensures |r| == |steps| + 1 && r[0] == s
    decreases |steps|
  {
    if steps == [] then [s] else (StepKeeps(s, steps[0]); [s] + Trace(Next(s, steps[0]), steps[1..]))
  }

  /** The step ends the wait of `p`: it terminates it, or it is the interrupt of its device and
      half, reaches it as the first waiter and hands it the status. */
  ghost predicate EndsWait(s: KState, step: Step, t: KState, p: Proc, line: int, dev: int, reg: int) {
    var a := SemOfRegister(line, dev, reg);
    && TreeInv(s.f) && RootKnown(s.f)
    && ((Dooms(s, step.op, p) && !Live(t.f, p))
        || (Reports(step.op, line, dev, reg) && WaitsFirst(s, p, a) && Woken(t, p, a, StatusFor(step.op, reg))))
  }

  /** In the states of a run `tr`, `p` waits in its place up to state `n`. */
  ghost predicate WaitsUntil(tr: seq<KState>, n: nat, p: Proc, a: Addr) {
    && n < |tr|
    && (forall i :: 0 <= i <= n ==> p in Asl.Queue(tr[i].q.asl, a))
    && forall i :: 0 <= i < n ==> KeepsPlace(Asl.Queue(tr[i].q.asl, a), Asl.Queue(tr[i + 1].q.asl, a), tr[i].q.prio, p)
  }

  lemma {:induction false} WaiterRun(s: KState, steps: seq<Step>, p: Proc, line: int, dev: int, reg: int) returns (n: nat)
    requires Inv(s) && Legal(s, steps) && IsRegister(line, dev, reg)
    requires p in Asl.Queue(s.q.asl, SemOfRegister(line, dev, reg))
    ensures n <= |steps| && WaitsUntil(Trace(s, steps), n, p, SemOfRegister(line, dev, reg))
    ensures n < |steps| ==> EndsWait(Trace(s, steps)[n], steps[n], Trace(s, steps)[n + 1], p, line, dev, reg)
    decreases |steps|
  {
    hide Inv, Enabled, Next, EndsWait, WaiterStep, KeepsPlace, Asl.Queue, WaitsUntil, Legal, Trace, TreeInv, RootKnown;
    TraceIs(s, steps);
    n := 0;
    var a := SemOfRegister(line, dev, reg);
    WaitsNow(Trace(s, steps), p, a);
    if steps != [] {
      OneStep(s, steps[0], p, line, dev, reg);
      var t := Next(s, steps[0]);
      if !EndsWait(s, steps[0], t, p, line, dev, reg) {
        WaitsOn(s, steps[0], t, p, line, dev, reg);
        var m := WaiterRun(t, steps[1..], p, line, dev, reg);
        WaitsBefore(s, Trace(t, steps[1..]), m, p, a);
        n := m + 1;
      }
    }
  }

  lemma TraceIs(s: KState, steps: seq<Step>)
    requires Inv(s) && Legal(s, steps)
    ensures steps != [] ==>
      && Enabled(s, steps[0]) && TreeInv(s.f) && RootKnown(s.f) && Inv(Next(s, steps[0]))
      && Legal(Next(s, steps[0]), steps[1..]) && Trace(s, steps) == [s] + Trace(Next(s, steps[0]), steps[1..])
  {
    hide Next, Enabled, TreeInv, SchedInv, TimeInv, ModeInv, RootKnown;
    if steps != [] { StepKeeps(s, steps[0]); }
  }

  lemma WaitsNow(tr: seq<KState>, p: Proc, a: Addr)
    requires tr != [] && p in Asl.Queue(tr[0].q.asl, a)
    ensures WaitsUntil(tr, 0, p, a)
  {
  }

  lemma WaitsBefore(s: KState, tr: seq<KState>, m: nat, p: Proc, a: Addr)
    requires WaitsUntil(tr, m, p, a) && p in Asl.Queue(s.q.asl, a)
    requires KeepsPlace(Asl.Queue(s.q.asl, a), Asl.Queue(tr[0].q.asl, a), s.q.prio, p)
    ensures WaitsUntil([s] + tr, m + 1, p, a)
  {
    hide KeepsPlace, Asl.Queue;
    var r := [s] + tr;
    forall i | 0 <= i <= m + 1 ensures p in Asl.Queue(r[i].q.asl, a) {
      if i > 0 { assert r[i] == tr[i - 1]; }
    }
    forall i | 0 <= i < m + 1 ensures KeepsPlace(Asl.Queue(r[i].q.asl, a), Asl.Queue(r[i + 1].q.asl, a), r[i].q.prio, p) {
      if i > 0 { assert r[i] == tr[i - 1] && r[i + 1] == tr[i]; }
    }
  }

  lemma WaitsOn(s: KState, step: Step, t: KState, p: Proc, line: int, dev: int, reg: int)
    requires TreeInv(s.f) && RootKnown(s.f) && WaiterStep(s, step, t, p, line, dev, reg)
    requires !EndsWait(s, step, t, p, line, dev, reg)
    ensures var a := SemOfRegister(line, dev, reg);
            KeepsPlace(Asl.Queue(s.q.asl, a), Asl.Queue(t.q.asl, a), s.q.prio, p) && p in Asl.Queue(t.q.asl, a)
  {
    hide TreeInv, Woken, Asl.Queue;
  }

  /** SYS5 from end to end, in every run: the caller stands in the queue of the device and half of
      its register, and stays there in its place, until it is terminated or an interrupt of that
      device, for a terminal with a status byte of that half that is not 0, finds it first; then it
      is ready again with the status in a0. `n` steps after the call it waits no longer. */
  lemma IoIsAnswered(s: KState, p: Proc, st: Regs, line: int, dev: int, reg: int, c: Tod, steps: seq<Step>)
    returns (n: nat)
    requires Inv(s) && s.mode == Running && s.q.current == Some(p) && IsRegister(line, dev, reg)
    requires Enabled(s, Step(DoIO(st, Devices.RegisterAddr(line, dev, reg)), c))
    requires TreeInv(s.f) && RootKnown(s.f) ==>
      var r := Next(s, Step(DoIO(st, Devices.RegisterAddr(line, dev, reg)), c)); Inv(r) ==> Legal(r, steps)
    ensures TreeInv(s.f) && RootKnown(s.f) && n <= |steps|
    ensures var r := Next(s, Step(DoIO(st, Devices.RegisterAddr(line, dev, reg)), c));
            && Inv(r) && WaitsUntil(Trace(r, steps), n, p, SemOfRegister(line, dev, reg))
            && (n < |steps| ==> EndsWait(Trace(r, steps)[n], steps[n], Trace(r, steps)[n + 1], p, line, dev, reg))
  {
    hide Base, ModeInv, Enabled, Next, EndsWait, KeepsPlace, Asl.Queue;
    var step := Step(DoIO(st, Devices.RegisterAddr(line, dev, reg)), c);
    CallerBlocks(s, p, st, line, dev, reg, c);
    StepKeeps(s, step);
    n := WaiterRun(Next(s, step), steps, p, line, dev, reg);
  }
}
