/**
 The calculator program (phase3/testers/calc.c): its number scanner, its number printer and
 the way `main` takes a line apart. `int` is 32 bits wide and wraps around.
 */
module Calc {

  const TWO31 := 0x8000_0000
  const TWO32 := 0x1_0000_0000

  newtype Int32 = x: int | -0x8000_0000 <= x < 0x8000_0000

  /** The 32-bit value of an integer result. */
  function Wrap(x: int): (r: int)
    ensures -TWO31 <= r < TWO31
    ensures -TWO31 <= x < TWO31 ==> r == x
  {
    (x + TWO31) % TWO32 - TWO31
  }

  const EOS: char := '\0'

  /** A C string: reading behind its end gives the terminator. */
  function At(s: string, i: nat): char {
    if i < |s| then s[i] else EOS
  }

  predicate IsSpace(c: char) { c as int == ' ' as int }

  predicate IsDigit(c: char) { '0' <= c <= '9' }

  predicate AllDigits(s: string) {
    forall i :: 0 <= i < |s| ==> IsDigit(s[i])
  }

  /** The number a string of digits denotes. */
  function Value(s: string): nat
    requires AllDigits(s)
  {
    if s == [] then 0 else Value(s[..|s| - 1]) * 10 + (s[|s| - 1] - '0') as nat
  }

  /** Where the run of digits, or of spaces, that begins at `i` ends. */
  function DigitsEnd(s: string, i: nat): (e: nat)
    ensures i <= e && (i <= |s| ==> e <= |s|) && !IsDigit(At(s, e))
    ensures forall k :: i <= k < e ==> k < |s| && IsDigit(s[k])
    decreases |s| - i
  {
    if IsDigit(At(s, i)) then DigitsEnd(s, i + 1) else i
  }

  function SpacesEnd(s: string, i: nat): (e: nat)
    ensures i <= e && (i <= |s| ==> e <= |s|) && !IsSpace(At(s, e))
    ensures forall k :: i <= k < e ==> k < |s| && IsSpace(s[k])
    decreases |s| - i
  {
    if IsSpace(At(s, i)) then SpacesEnd(s, i + 1) else i
  }

  /** The number that the digits from `t` up to `e` denote. */
  function ValueIn(s: string, t: nat, e: nat): nat {
    if t <= e <= |s| && AllDigits(s[t..e]) then Value(s[t..e]) else 0
  }

  lemma ValueStep(s: string, t: nat, e: nat)
    requires t <= e < |s| && IsDigit(s[e]) && forall k :: t <= k < e ==> IsDigit(s[k])
    ensures ValueIn(s, t, e + 1) == ValueIn(s, t, e) * 10 + (s[e] - '0') as nat
  {
    assert s[t..e + 1][..e - t] == s[t..e];
  }

  lemma ValueStart(s: string, t: nat)
    ensures ValueIn(s, t, t) == 0 && Wrap(0) == 0
  {
  }

  lemma DigitsEndStep(s: string, i: nat)
    ensures DigitsEnd(s, i) == if IsDigit(At(s, i)) then DigitsEnd(s, i + 1) else i
    ensures IsDigit(At(s, i)) ==> i < |s|
  {
  }

  /** The number that stands at `i`, with an optional minus sign, and where it ends. */
  function NumberAt(s: string, i: nat): (int, nat) {
    var t := if At(s, i) == '-' then i + 1 else i;
    var e := DigitsEnd(s, t);
    var v: int := ValueIn(s, t, e);
    (Wrap(if At(s, i) == '-' then -v else v), e)
  }

  // ------------------------------------------------------------ 32-bit arithmetic

  lemma WrapShift(x: int, k: int)
    ensures Wrap(x + k * TWO32) == Wrap(x)
  {
    var a := x + TWO31;
    assert (a + k * TWO32) % TWO32 == a % TWO32 by { ModShift(a, k); }
  }

  lemma ModShift(a: int, k: int)
    ensures (a + k * TWO32) % TWO32 == a % TWO32
  {
  }

  /** Wrapping early or late makes no difference. */
  lemma WrapStep(x: int, d: int)
    ensures Wrap(Wrap(x) * 10 + d) == Wrap(x * 10 + d)
  {
    var k := (x + TWO31) / TWO32;
    assert Wrap(x) == x - k * TWO32;
    WrapShift(x * 10 + d, -10 * k);
  }

  lemma WrapNegate(x: int)
    ensures Wrap(-Wrap(x)) == Wrap(-x)
  {
    var k := (x + TWO31) / TWO32;
    WrapShift(-x, k);
  }

  // ----------------------------------------------------------------------- scanner

  method SkipSpaces(s: string, start: nat) returns (idx: nat)
    ensures idx == SpacesEnd(s, start)
  {
    idx := start;
    while IsSpace(At(s, idx))
      invariant SpacesEnd(s, idx) == SpacesEnd(s, start)
      decreases |s| - idx
    {
      idx := idx + 1;
    }
  }

  /** `parse_int`, with the wrap-around of every step. */
  method ParseInt(s: string, start: nat) returns (val: int, idx: nat)
    ensures (val, idx) == NumberAt(s, start)
  {
    hide DigitsEnd, ValueIn, Wrap;
    var neg := false;
    idx, val := start, 0;
    if At(s, idx) == '-' {
      neg := true;
      idx := idx + 1;
    }
    ghost var t := idx;
    ValueStart(s, t);
    while IsDigit(At(s, idx))
      invariant t <= idx && DigitsEnd(s, idx) == DigitsEnd(s, t)
      invariant forall k :: t <= k < idx ==> k < |s| && IsDigit(s[k])
      invariant val == Wrap(ValueIn(s, t, idx))
      decreases |s| - idx
    {
      DigitsEndStep(s, idx);
      ValueStep(s, t, idx);
      WrapStep(ValueIn(s, t, idx), (s[idx] - '0') as int);
      val := Wrap(val * 10 + (s[idx] - '0') as int);
      idx := idx + 1;
    }
    DigitsEndStep(s, idx);
    if neg {
      WrapNegate(ValueIn(s, t, idx));
      val := Wrap(-val);
    }
  }

  // ----------------------------------------------------------------------- printer

  /** The decimal digits of a positive number. */
  function Digits(n: nat): string {
    if n == 0 then "" else Digits(n / 10) + [('0' as int + n % 10) as char]
  }

  /** What `int_to_str` prints: for the smallest number, whose negation wraps around to
      itself, it is the sign alone. */
  function Printed(n: int): string {
    if n == 0 then "0" else if n < 0 then "-" + Digits(if n == -TWO31 then 0 else -n) else Digits(n)
  }

  lemma {:induction false} DigitsDenote(n: nat)
    ensures AllDigits(Digits(n)) && Value(Digits(n)) == n
    ensures n > 0 ==> Digits(n) != []
  {
    if n > 0 {
      DigitsDenote(n / 10);
      var c := ('0' as int + n % 10) as char;
      assert Digits(n)[..|Digits(n)| - 1] == Digits(n / 10);
      assert IsDigit(c);
    }
  }

  /** A number below ten to the power `k` has at most `k` digits. */
  lemma {:induction false} DigitsLength(n: nat, k: nat)
    requires n < Pow10(k)
    ensures |Digits(n)| <= k
  {
    if n > 0 {
      DigitsLength(n / 10, k - 1);
    }
  }

  function Pow10(k: nat): nat { if k == 0 then 1 else 10 * Pow10(k - 1) }

  function Reversed(s: string): (r: string)
    ensures |r| == |s|
  {
    if s == [] then [] else [s[|s| - 1]] + Reversed(s[..|s| - 1])
  }

  lemma EmptyReversed()
    ensures Reversed([]) == []
  {
  }

  lemma ReversedPush(s: string, c: char)
    ensures Reversed(s + [c]) == [c] + Reversed(s)
  {
    assert (s + [c])[..|s|] == s;
  }

  lemma TenDigits()
    ensures TWO31 < Pow10(10)
  {
    assert Pow10(5) == 100000;
    assert Pow10(10) == 100000 * Pow10(5);
  }

  /** The first loop of `int_to_str`: the digits of `n`, the last one first. */
  method PushDigits(n: nat, tmp: array<char>) returns (i: nat)
    requires tmp.Length == 12 && n < TWO31
    modifies tmp
    ensures i <= 10 && Reversed(tmp[..i]) == Digits(n)
  {
    var m := n;
    i := 0;
    TenDigits();
    DigitsLength(n, 10);
    while m > 0
      invariant i + |Digits(m)| == |Digits(n)|
      invariant Digits(m) + Reversed(tmp[..i]) == Digits(n)
      decreases m
    {
      var c := ('0' as int + m % 10) as char;
      ReversedPush(tmp[..i], c);
      tmp[i] := c;
      assert tmp[..i + 1] == tmp[..i] + [c];
      m, i := m / 10, i + 1;
    }
  }

  /** The second one, which turns them round, with the terminator. */
  method PopAll(tmp: array<char>, n: nat, out: array<char>) returns (j: nat)
    requires tmp.Length == 12 && n <= 11 && out.Length >= 12 && out != tmp
    modifies out
    ensures j == n && out[..j] == Reversed(tmp[..n]) && out[j] == EOS
  {
    hide Reversed;
    var i := n;
    j := 0;
    EmptyReversed();
    while i > 0
      invariant 0 <= i <= n && j == n - i
      invariant out[..j] + Reversed(tmp[..i]) == Reversed(tmp[..n])
    {
      i := i - 1;
      ReversedPush(tmp[..i], tmp[i]);
      assert tmp[..i + 1] == tmp[..i] + [tmp[i]];
      out[j] := tmp[i];
      assert out[..j + 1] == out[..j] + [tmp[i]];
      j := j + 1;
    }
    out[j] := EOS;
  }

  lemma PrintedCases(n: int)
    requires -TWO31 <= n < TWO31
    ensures var m := if n < 0 then Wrap(-n) else n; var ds := Digits(if m > 0 then m else 0);
            Printed(n) == if n == 0 then "0" else if n < 0 then ['-'] + ds else ds
  {
  }

  /** `int_to_str`: at most ten digits and a sign fit into `tmp`, with the terminator into
      twelve characters of `out`. */
  method IntToStr(n: Int32, out: array<char>) returns (j: nat)
    requires out.Length >= 12
    modifies out
    ensures j <= 11 && out[..j] == Printed(n as int) && out[j] == EOS
  {
    PrintedCases(n as int);
    hide Printed, Digits, Reversed;
    if n == 0 {
      out[0] := '0';
      out[1] := EOS;
      return 1;
    }
    var tmp := new char[12];
    var m := n as int;
    if n < 0 {
      m := Wrap(-m);
    }
    // the loop does nothing for the smallest number, which is still negative here
    var i := PushDigits(if m > 0 then m else 0, tmp);
    if n < 0 {
      i := PushSign(tmp, i);
    }
    j := PopAll(tmp, i, out);
  }

  method PushSign(tmp: array<char>, i: nat) returns (k: nat)
    requires tmp.Length == 12 && i < 12
    modifies tmp
    ensures k == i + 1 && Reversed(tmp[..k]) == ['-'] + Reversed(old(tmp[..i]))
  {
    ReversedPush(tmp[..i], '-');
    tmp[i] := '-';
    assert tmp[..i + 1] == old(tmp[..i]) + ['-'];
    k := i + 1;
  }

  // ---------------------------------------------------------------- scan undoes print

  /** The run of digits `ds` is found and read. */
  lemma ReadDigits(pre: string, ds: string, rest: string)
    requires AllDigits(ds) && !IsDigit(At(rest, 0))
    ensures DigitsEnd(pre + ds + rest, |pre|) == |pre| + |ds|
    ensures ValueIn(pre + ds + rest, |pre|, |pre| + |ds|) == Value(ds)
  {
    var s, t, e := pre + ds + rest, |pre|, |pre| + |ds|;
    assert s[t..e] == ds;
    forall k | t <= k < e ensures IsDigit(s[k]) { assert s[k] == ds[k - t]; }
    assert s[e..] == rest;
    EndIs(s, t, e, rest);
  }

  /** An unsigned run of digits, optionally with a sign, is read for what it denotes. */
  lemma ScanDigits(pre: string, neg: bool, ds: string, rest: string)
    requires AllDigits(ds) && (ds == [] ==> neg) && !IsDigit(At(rest, 0))
    ensures var p := (if neg then "-" else "") + ds; var v: int := Value(ds);
            NumberAt(pre + p + rest, |pre|) == (Wrap(if neg then -v else v), |pre| + |p|)
  {
    hide DigitsEnd, ValueIn, Value, Wrap, AllDigits;
    var p := (if neg then "-" else "") + ds;
    var s := pre + p + rest;
    var front := pre + if neg then "-" else "";
    ReadDigits(front, ds, rest);
    assert front + ds + rest == s;
    assert s[|pre|] == p[0];
    if !neg { FirstIsDigit(ds); }
  }

  lemma FirstIsDigit(ds: string)
    requires AllDigits(ds) && ds != []
    ensures IsDigit(ds[0]) && ds[0] != '-'
  {
  }

  /** The digits `int_to_str` prints for a magnitude. */
  function Magnitude(n: int): string {
    if n == 0 then "0" else if n == -TWO31 then "" else Digits(if n < 0 then -n else n)
  }

  lemma PrintedSplit(n: Int32)
    ensures Printed(n as int) == (if n < 0 then "-" else "") + Magnitude(n as int)
    ensures var m := Magnitude(n as int);
            AllDigits(m) && (m == [] ==> n < 0) && Value(m) == if n as int == -TWO31 then 0 else if n < 0 then -(n as int) else n as int
  {
    if n == 0 {
      assert "0"[..0] == "";
    } else if n as int != -TWO31 {
      DigitsDenote(if n < 0 then -(n as int) else n as int);
    }
  }

  lemma ScanPrinted(pre: string, n: Int32, rest: string)
    requires !IsDigit(At(rest, 0))
    ensures NumberAt(pre + Printed(n as int) + rest, |pre|)
         == (if n as int == -TWO31 then 0 else n as int, |pre| + |Printed(n as int)|)
  {
    PrintedSplit(n);
    ScanDigits(pre, n < 0, Magnitude(n as int), rest);
  }

  /** Scanning a printed number gives that number and ends behind it, for every number but
      the smallest one, of which only the sign is printed. */
  lemma PrintThenScan(pre: string, n: Int32, rest: string)
    requires !IsDigit(At(rest, 0))
    ensures NumberAt(pre + Printed(n as int) + rest, |pre|) == (n as int, |pre| + |Printed(n as int)|)
       <==> n as int != -TWO31
  {
    ScanPrinted(pre, n, rest);
  }

  lemma EndIs(s: string, t: nat, e: nat, rest: string)
    requires t <= e <= |s| && s[e..] == rest && !IsDigit(At(rest, 0))
    requires forall k :: t <= k < e ==> IsDigit(s[k])
    ensures DigitsEnd(s, t) == e
  {
    if |rest| > 0 { assert s[e] == rest[0]; }
  }

  // --------------------------------------------------------------------- main

  function Blanks(n: nat): (r: string)
    ensures |r| == n
  {
    seq(n, i => ' ')
  }

  /** A line as a user may type it. */
  function Line(a: Int32, op: char, b: Int32, i: nat, j: nat, k: nat): string {
    Blanks(i) + Printed(a as int) + Blanks(j) + [op] + Blanks(k) + Printed(b as int)
  }

  /** How `main` takes a line apart. */
  function Parsed(s: string): (int, char, int) {
    var (a, i) := NumberAt(s, SpacesEnd(s, 0));
    var o := SpacesEnd(s, i);
    (a, At(s, o), NumberAt(s, SpacesEnd(s, o + 1)).0)
  }

  method Scan(buf: string) returns (a: int, op: char, b: int)
    ensures (a, op, b) == Parsed(buf)
  {
    hide NumberAt, SpacesEnd, At;
    var idx := SkipSpaces(buf, 0);
    a, idx := ParseInt(buf, idx);
    idx := SkipSpaces(buf, idx);
    op := At(buf, idx);
    idx := idx + 1;
    idx := SkipSpaces(buf, idx);
    b, idx := ParseInt(buf, idx);
  }

  lemma SpacesEndIs(s: string, i: nat, n: nat)
    requires i + n <= |s| && (forall k :: i <= k < i + n ==> IsSpace(s[k])) && !IsSpace(At(s, i + n))
    ensures SpacesEnd(s, i) == i + n
  {
  }

  lemma PrintedStart(n: Int32)
    ensures var p := Printed(n as int); p != [] && !IsSpace(p[0])
  {
    PrintedSplit(n);
  }

  lemma BlanksBefore(pre: string, i: nat, p: string, rest: string)
    requires p != [] && !IsSpace(p[0])
    ensures SpacesEnd(pre + Blanks(i) + p + rest, |pre|) == |pre| + i
  {
    var s := pre + Blanks(i) + p + rest;
    assert s[|pre| + i] == p[0];
    SpacesEndIs(s, |pre|, i);
  }

  /** One field of the line: blanks, then a printed number. */
  lemma SkipField(pre: string, i: nat, n: Int32, rest: string)
    ensures SpacesEnd(pre + Blanks(i) + Printed(n as int) + rest, |pre|) == |pre| + i
  {
    hide *;
    PrintedStart(n);
    BlanksBefore(pre, i, Printed(n as int), rest);
  }

  lemma ScanField(pre: string, i: nat, n: Int32, rest: string)
    requires !IsDigit(At(rest, 0))
    ensures NumberAt(pre + Blanks(i) + Printed(n as int) + rest, |pre| + i)
         == (if n as int == -TWO31 then 0 else n as int, |pre| + i + |Printed(n as int)|)
  {
    hide *;
    ScanPrinted(pre + Blanks(i), n, rest);
  }

  /** Scanning a typed line gives back its two numbers and its operator, whatever blanks
      there are, exactly when neither number is the smallest one. */
  lemma ScanUndoesPrint(a: Int32, op: char, b: Int32, i: nat, j: nat, k: nat)
    requires !IsDigit(op) && !IsSpace(op)
    ensures Parsed(Line(a, op, b, i, j, k)) == (a as int, op, b as int) <==> a as int != -TWO31 && b as int != -TWO31
  {
    hide SpacesEnd, NumberAt, Printed, IsSpace, IsDigit, Blanks;
    var s := Line(a, op, b, i, j, k);
    var first, second := Printed(a as int), Printed(b as int);
    var after := Blanks(j) + [op] + Blanks(k) + second;
    assert s == "" + Blanks(i) + first + after;
    AfterFirst(j, op, Blanks(k) + second);
    assert after == Blanks(j) + [op] + (Blanks(k) + second);
    SkipField("", i, a, after);
    ScanField("", i, a, after);
    var e := i + |first|;
    BlanksBefore(Blanks(i) + first, j, [op], Blanks(k) + second);
    assert s == Blanks(i) + first + Blanks(j) + [op] + (Blanks(k) + second);
    assert s[e + j] == op;
    var pre := Blanks(i) + first + Blanks(j) + [op];
    assert s == pre + Blanks(k) + second + "";
    EmptyIsNoDigit();
    SkipField(pre, k, b, "");
    ScanField(pre, k, b, "");
  }

  lemma AfterFirst(j: nat, op: char, rest: string)
    requires !IsDigit(op)
    ensures !IsDigit(At(Blanks(j) + [op] + rest, 0))
  {
    assert (Blanks(j) + [op] + rest)[0] == if j > 0 then ' ' else op;
  }

  lemma EmptyIsNoDigit()
    ensures !IsDigit(At("", 0))
  {
  }

  datatype Outcome = Result(v: int) | DivisionByZero | UnknownOperator

  /** C division: towards zero. */
  function Quotient(a: int, b: int): int
    requires b != 0
  {
    if (a < 0) == (b < 0) then Abs(a) / Abs(b) else -(Abs(a) / Abs(b))
  }

  function Abs(x: int): nat { if x < 0 then -x else x }

  function Eval(a: int, op: char, b: int): Outcome {
    match op
    case '+' => Result(Wrap(a + b))
    case '-' => Result(Wrap(a - b))
    case '*' => Result(Wrap(a * b))
    case '/' => if b == 0 then DivisionByZero else Result(Wrap(Quotient(a, b)))
    case _ => UnknownOperator
  }

  /** What the program writes in answer to a line. */
  function Answer(s: string): string {
    var (a, op, b) := Parsed(s);
    match Eval(a, op, b)
    case Result(v) => Printed(v) + "\n"
    case DivisionByZero => "Error: division by zero\n"
    case UnknownOperator => "Error: unknown operator (use + - * /)\n"
  }

  /** The body of the loop in `main` for one line. */
  method RunLine(buf: string) returns (output: string)
    ensures output == Answer(buf)
  {
    var a, op, b := Scan(buf);
    var res, err := 0, false;
    output := "";
    if op == '+' {
      res := Wrap(a + b);
    } else if op == '-' {
      res := Wrap(a - b);
    } else if op == '*' {
      res := Wrap(a * b);
    } else if op == '/' {
      if b == 0 {
        output := "Error: division by zero\n";
        err := true;
      } else {
        res := Wrap(Quotient(a, b));
      }
    } else {
      output := "Error: unknown operator (use + - * /)\n";
      err := true;
    }
    if !err {
      var result := new char[16];
      var n := IntToStr(res as Int32, result);
      output := result[..n] + "\n";
    }
  }

  /** Truncated division leaves a remainder smaller than the divisor, with the dividend's sign. */
  lemma QuotientIsTruncated(a: int, b: int)
    requires b != 0
    ensures var r := a - Quotient(a, b) * b; Abs(r) < Abs(b) && (r == 0 || (r < 0 <==> a < 0))
  {
    var q, r := Abs(a) / Abs(b), Abs(a) % Abs(b);
    assert Abs(a) == q * Abs(b) + r;
    if b < 0 { assert q * Abs(b) == -(q * b); }
  }

  /** The calculator is right, for every operator that can be told from the operands: a typed
      sum, difference, product or quotient is answered in decimal with the result, exact if it
      fits into 32 bits and otherwise the number congruent to it that does; a quotient by zero
      and any other operator with their messages. */
  lemma CalculatorIsRight(a: Int32, op: char, b: Int32, i: nat, j: nat, k: nat)
    requires a as int != -0x8000_0000 && b as int != -0x8000_0000
    requires !('0' <= op <= '9') && op != ' '
    ensures var x, y := a as int, b as int; var answer := Answer(Line(a, op, b, i, j, k));
            if op !in {'+', '-', '*', '/'} then answer == "Error: unknown operator (use + - * /)\n"
            else if op == '/' && y == 0 then answer == "Error: division by zero\n"
            else
              var v := if op == '+' then x + y else if op == '-' then x - y else if op == '*' then x * y else Quotient(x, y);
              forall w :: -0x8000_0000 < w < 0x8000_0000 && Congruent(v, w) ==> answer == Decimal(w) + "\n"
  {
    hide Parsed, Line, Digits, Quotient;
    ScanUndoesPrint(a, op, b, i, j, k);
    var x, y := a as int, b as int;
    if op in {'+', '-', '*', '/'} && !(op == '/' && y == 0) {
      var v := if op == '+' then x + y else if op == '-' then x - y else if op == '*' then x * y else Quotient(x, y);
      hide Decimal;
      forall w | -0x8000_0000 < w < 0x8000_0000 && Congruent(v, w)
        ensures Answer(Line(a, op, b, i, j, k)) == Decimal(w) + "\n"
      {
        WrapIs(v, w);
        PrintedIsDecimal(w);
      }
    }
  }

  /** The two differ by a multiple of 2^32. */
  predicate Congruent(v: int, w: int) { (v - w) % 0x1_0000_0000 == 0 }

  lemma WrapIs(v: int, w: int)
    requires -0x8000_0000 < w < 0x8000_0000 && Congruent(v, w)
    ensures Wrap(v) == w
  {
  }

  lemma PrintedIsDecimal(w: int)
    requires -0x8000_0000 < w < 0x8000_0000
    ensures Printed(w) == Decimal(w)
  {
  }

  /** Ordinary decimal notation. */
  function Decimal(v: int): string {
    if v == 0 then "0" else if v < 0 then "-" + Digits(-v) else Digits(v)
  }
}
