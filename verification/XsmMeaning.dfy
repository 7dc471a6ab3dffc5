/** What the machine's instructions do, in terms of integers, order and positions: the
    arithmetic and comparison instructions, tests, moves, and the pairs that undo each
    other (xsm/machine.c). */
module XsmMeaning {
  import opened Words
  import opened Xsm

  // ---- arithmetic

  function OperandValue(o: Operand, m: State): int {
    match o
    case RegOp(r) => ToInt(m.regs[r])
    case NumOp(n) => n
  }

  predicate Readable(l: Reg, o: Operand) {
    l != IP && o != RegOp(IP)
  }

  lemma AddSubMul(l: Reg, o: Operand, m: State)
    requires Readable(l, o)
    ensures var a, b := ToInt(m.regs[l]), OperandValue(o, m);
            && Exec(Arith(Add, l, o), m) == m.(regs := m.regs[l := Int(a + b)])
            && Exec(Arith(Sub, l, o), m) == m.(regs := m.regs[l := Int(a - b)])
            && Exec(Arith(Mul, l, o), m) == m.(regs := m.regs[l := Int(a * b)])
  {
  }

  function Magnitude(n: int): nat {
    if n < 0 then -n else n
  }

  /** q and r are quotient and remainder as section 6.5.5 of ISO C11 has them. */
  predicate Truncated(a: int, b: int, q: int, r: int) {
    a == b * q + r && Magnitude(r) < Magnitude(b) && (r == 0 || (r > 0 <==> a > 0))
  }

  /** There is only one such pair. */
  lemma TruncatedOnce(a: int, b: int, q: int, r: int, q2: int, r2: int)
    requires Truncated(a, b, q, r) && Truncated(a, b, q2, r2)
    ensures q == q2 && r == r2
  {
    SameDividend(a, b, q, r, q2, r2);
    assert Magnitude(r2 - r) < Magnitude(b);
    if q != q2 {
      Reaches(b, q - q2);
    }
  }

  lemma SameDividend(a: int, b: int, q: int, r: int, q2: int, r2: int)
    requires a == b * q + r && a == b * q2 + r2
    ensures b * (q - q2) == r2 - r
  {
  }

  lemma Reaches(b: int, d: int)
    requires d != 0
    ensures Magnitude(b * d) >= Magnitude(b)
  {
    var n := Magnitude(d) - 1;
    assert Magnitude(b) * n >= 0;
    assert Magnitude(b * d) == Magnitude(b) * Magnitude(d) == Magnitude(b) + Magnitude(b) * n by { MagnitudeOfProduct(b, d); }
  }

  lemma MagnitudeOfProduct(b: int, d: int)
    ensures Magnitude(b * d) == Magnitude(b) * Magnitude(d)
  {
    if b < 0 && d < 0 {
      assert b * d == -b * -d >= 0;
    } else if b < 0 {
      assert -b * d == -(b * d) >= 0;
    } else if d < 0 {
      assert b * -d == -(b * d) >= 0;
    } else {
      assert b * d >= 0;
    }
  }

  /** DIV and MOD leave the quotient and the remainder of one division. */
  lemma DivAndMod(l: Reg, o: Operand, m: State) returns (q: int, r: int)
    requires Readable(l, o) && OperandValue(o, m) != 0
    ensures Truncated(ToInt(m.regs[l]), OperandValue(o, m), q, r)
    ensures Exec(Arith(Div, l, o), m) == m.(regs := m.regs[l := Int(q)])
    ensures Exec(Arith(Mod, l, o), m) == m.(regs := m.regs[l := Int(r)])
  {
    var a, b := ToInt(m.regs[l]), OperandValue(o, m);
    TruncModRange(a, b);
    q, r := TruncDiv(a, b), TruncMod(a, b);
  }

  /** Arithmetic faults exactly on IP and on a division by zero, and changes nothing then. */
  lemma ArithFaults(op: ArithOp, l: Reg, o: Operand, m: State)
    requires m.status == Running
    ensures var m' := Exec(Arith(op, l, o), m);
            && (m'.status == Faulted <==> !Readable(l, o) || (op in {Div, Mod} && OperandValue(o, m) == 0))
            && (m'.status == Faulted ==> m' == m.(status := Faulted))
  {
  }

  // ---- comparison

  predicate Ordered(op: RelOp, a: int, b: int) {
    match op
    case Lt => a < b
    case Gt => a > b
    case Eq => a == b
    case Ne => a != b
    case Ge => a >= b
    case Le => a <= b
  }

  /** Words of integer type are compared as integers. */
  lemma ComparesNumbers(op: RelOp, l: Reg, r: Reg, m: State)
    requires l != IP && r != IP && !IsString(m.regs[l]) && !IsString(m.regs[r])
    ensures Exec(Logic(op, l, r), m) == m.(regs := m.regs[l := if Ordered(op, ToInt(m.regs[l]), ToInt(m.regs[r])) then Int(1) else Int(0)])
  {
  }

  /** Text a comes before text b: it is a proper prefix, or smaller where they first differ. */
  ghost predicate Precedes(a: string, b: string) {
    exists k: nat :: PrecedesAt(a, b, k)
  }

  predicate PrecedesAt(a: string, b: string, k: nat) {
    && k <= |a| && k < |b| && a[..k] == b[..k] && (k == |a| || a[k] < b[k])
  }

  /** Every two texts are equal or one comes first, and never both ways. */
  lemma {:induction false} StrcmpIsOrder(a: string, b: string)
    ensures Strcmp(a, b) == 0 <==> a == b
    ensures Strcmp(a, b) < 0 <==> Precedes(a, b)
    ensures Strcmp(a, b) > 0 <==> Precedes(b, a)
    decreases |a|
  {
    if a != [] && b != [] && a[0] == b[0] {
      StrcmpIsOrder(a[1..], b[1..]);
      Shifts(a, b);
      Shifts(b, a);
      assert a == [a[0]] + a[1..] && b == [b[0]] + b[1..];
    } else {
      FirstDecides(a, b);
      FirstDecides(b, a);
      if a == [] || b == [] || a[0] != b[0] {
        assert a == b <==> a == [] && b == [];
      }
    }
  }

  lemma Shifts(a: string, b: string)
    requires a != [] && b != [] && a[0] == b[0]
    ensures Precedes(a, b) <==> Precedes(a[1..], b[1..])
  {
    if k: nat :| PrecedesAt(a, b, k) {
      assert k > 0;
      assert a[1..][..k - 1] == a[..k][1..] && b[1..][..k - 1] == b[..k][1..];
      assert PrecedesAt(a[1..], b[1..], k - 1);
    }
    if k: nat :| PrecedesAt(a[1..], b[1..], k) {
      assert a[..k + 1] == [a[0]] + a[1..][..k] && b[..k + 1] == [b[0]] + b[1..][..k];
      assert PrecedesAt(a, b, k + 1);
    }
  }

  lemma SameHead(a: string, b: string, k: nat)
    requires 0 < k <= |a| && k <= |b| && a[..k] == b[..k]
    ensures a[0] == b[0]
  {
    assert a[..k][0] == b[..k][0];
  }

  lemma FirstDecides(a: string, b: string)
    requires a == [] || b == [] || a[0] != b[0]
    ensures Precedes(a, b) <==> b != [] && (a == [] || a[0] < b[0])
  {
    if k: nat :| PrecedesAt(a, b, k) {
      if k > 0 {
        SameHead(a, b, k);
      }
    }
    if b != [] && (a == [] || a[0] < b[0]) {
      assert PrecedesAt(a, b, 0);
    }
  }

  ghost predicate OrderedText(op: RelOp, a: string, b: string) {
    match op
    case Lt => Precedes(a, b)
    case Gt => Precedes(b, a)
    case Eq => a == b
    case Ne => a != b
    case Ge => !Precedes(a, b)
    case Le => !Precedes(b, a)
  }

  /** Words of which one is a string are compared as texts. */
  lemma ComparesTexts(op: RelOp, l: Reg, r: Reg, m: State)
    requires l != IP && r != IP && (IsString(m.regs[l]) || IsString(m.regs[r]))
    ensures Exec(Logic(op, l, r), m)
            == m.(regs := m.regs[l := if OrderedText(op, Text(m.regs[l]), Text(m.regs[r])) then Int(1) else Int(0)])
  {
    hide Precedes;
    StrcmpIsOrder(Text(m.regs[l]), Text(m.regs[r]));
  }

  // ---- words as numbers

  /** A digit's place decides its weight. */
  function PlaceValue(s: string): nat
    requires AllDigits(s)
  {
    if s == [] then 0 else (s[0] as int - '0' as int) * Power(|s| - 1) + PlaceValue(s[1..])
  }

  function Power(n: nat): nat {
    if n == 0 then 1 else 10 * Power(n - 1)
  }

  lemma {:induction false} DigitsByPlace(s: string, rest: string, acc: nat)
    requires AllDigits(s) && (rest == [] || !IsDigit(rest[0]))
    ensures DigitsValue(s + rest, acc) == acc * Power(|s|) + PlaceValue(s)
    decreases |s|
  {
    if s == [] {
      assert s + rest == rest;
    } else {
      var d: nat := s[0] as int - '0' as int;
      assert (s + rest)[1..] == s[1..] + rest;
      DigitsByPlace(s[1..], rest, 10 * acc + d);
      Weighs(acc, d, Power(|s| - 1));
      Shifted(acc, |s|);
    }
  }

  lemma Weighs(acc: nat, d: nat, p: nat)
    ensures (10 * acc + d) * p == acc * (10 * p) + d * p
  {
  }

  lemma Shifted(acc: nat, n: nat)
    requires n > 0
    ensures acc * Power(n) == acc * (10 * Power(n - 1))
  {
  }

  predicate IsBlank(c: char) {
    c in {' ', '\t', '\n', 11 as char, 12 as char, '\r'}
  }

  /** As a number, text is its sign and its first digits after blanks, whatever follows. */
  lemma {:induction false} AtoiReads(blanks: string, sign: string, digits: string, rest: string)
    requires (forall i | 0 <= i < |blanks| :: IsBlank(blanks[i])) && sign in {"", "+", "-"}
    requires AllDigits(digits) && (rest == [] || !IsDigit(rest[0]))
    requires digits == [] && sign == "" ==> rest == [] || (!IsBlank(rest[0]) && !HasSign(rest))
    ensures Atoi(blanks + sign + digits + rest) == (if sign == "-" then -1 else 1) * PlaceValue(digits)
    decreases |blanks|
  {
    var s := blanks + sign + digits + rest;
    if blanks != [] {
      assert s[0] == blanks[0] && s[1..] == blanks[1..] + sign + digits + rest;
      AtoiReads(blanks[1..], sign, digits, rest);
    } else {
      DigitsByPlace(digits, rest, 0);
      if sign != "" {
        assert s[0] == sign[0] && s[1..] == digits + rest;
      } else {
        assert s == digits + rest;
        if digits != [] { assert s[0] == digits[0]; }
      }
    }
  }

  // ---- tests and jumps

  /** JZ jumps on a word that reads as zero and is no string, JNZ on all others. */
  lemma JumpsOnZero(r: Reg, t: int, m: State)
    requires r != IP
    ensures var zero := !IsString(m.regs[r]) && ToInt(m.regs[r]) == 0;
            && Exec(Jz(r, t), m) == (if zero then m.(ip := t) else m)
            && Exec(Jnz(r, t), m) == (if zero then m else m.(ip := t))
  {
  }

  // ---- pairs

  /** A word stored in memory is loaded back, and every other word stays. */
  lemma StoreThenLoad(a: int, r: Reg, q: Reg, m: State)
    requires m.status == Running && r != IP && q != IP && 0 <= a < |m.mem|
    ensures var m1 := Exec(Mov(ToCell(ByNum(a)), FromReg(r)), m);
            var m2 := Exec(Mov(ToReg(q), FromCell(ByNum(a))), m1);
            && m1.mem == m.mem[a := m.regs[r]] && m1.regs == m.regs
            && m2.regs == m.regs[q := m.regs[r]] && m2.mem == m1.mem && m2.status == Running && m2.ip == m.ip
  {
  }

  /** An address in a register is the word's number. */
  lemma ThroughRegister(x: Reg, r: Reg, m: State)
    requires x != IP
    ensures Exec(Mov(ToCell(ByReg(x)), FromReg(r)), m) == Exec(Mov(ToCell(ByNum(ToInt(m.regs[x]))), FromReg(r)), m)
    ensures Exec(Mov(ToReg(r), FromCell(ByReg(x))), m) == Exec(Mov(ToReg(r), FromCell(ByNum(ToInt(m.regs[x])))), m)
  {
  }

  /** POP gives back what PUSH put on the stack, and SP as it was. */
  lemma PushThenPop(r: Reg, q: Reg, m: State)
    requires m.status == Running && r !in {IP, SP} && q !in {IP, SP} && 0 <= ToInt(m.regs[SP]) + 1 < |m.mem|
    ensures var s := ToInt(m.regs[SP]);
            var m1 := Exec(Push(r), m);
            && m1 == m.(regs := m.regs[SP := Int(s + 1)], mem := m.mem[s + 1 := m.regs[r]])
            && Exec(Pop(q), m1) == m1.(regs := m.regs[q := m.regs[r]][SP := Int(s)])
  {
  }

  /** RET after CALL goes on behind the call with SP as it was. */
  lemma CallThenRet(t: int, m: State)
    requires m.status == Running && 0 <= ToInt(m.regs[SP]) + 1 < |m.mem|
    ensures var s := ToInt(m.regs[SP]);
            var m1 := Exec(Call(t), m);
            && m1 == m.(ip := t, regs := m.regs[SP := Int(s + 1)], mem := m.mem[s + 1 := Int(m.ip)])
            && Exec(Ret, m1) == m1.(ip := m.ip, regs := m.regs[SP := Int(s)])
  {
  }

  /** PUSH and CALL fault exactly where the stack would leave memory, POP and RET where it
      has. */
  lemma StackFaults(r: Reg, t: int, m: State)
    requires m.status == Running && r != IP
    ensures var s := ToInt(m.regs[SP]);
            && (Exec(Push(r), m).status == Faulted <==> !(0 <= s + 1 < |m.mem|))
            && (Exec(Call(t), m).status == Faulted <==> !(0 <= s + 1 < |m.mem|))
            && (Exec(Pop(r), m).status == Faulted <==> !(0 <= s < |m.mem|))
            && (Exec(Ret, m).status == Faulted <==> !(0 <= s < |m.mem|))
  {
  }

  // ---- one turn of the machine

  /** A turn executes the instruction at IP, two words to an instruction, and moves IP
      past it first. */
  lemma StepExecutes(code: seq<Instr<int>>, base: int, k: nat, m: State)
    requires m.status == Running && k < |code| && m.ip == base + 2 * k
    ensures Step(code, base, m) == Exec(code[k], m.(ip := base + 2 * (k + 1)))
  {
  }
}
