/** Code for an SPL expression computes the expression: the value ends in the
    next scratch register, and memory, user registers and lower scratch
    registers are untouched. */
module SplExpr {
  import opened Wrappers
  import opened Words
  import opened Xsm
  import opened Spl
  import opened Assembly
  import opened SplCode

  function StoreOf(m: State): Store {
    Store(m.regs, m.mem)
  }

  /** Nothing but the scratch registers from number k on may differ. */
  predicate ScratchFrom(k: nat, a: State, b: State) {
    a.mem == b.mem && forall r: Reg | !(16 + k <= r < 20) :: a.regs[r] == b.regs[r]
  }

  /** Where an expression's code leaves the machine. */
  ghost predicate Computed(lines: seq<Line>, base: int, k: nat, c: nat, v: Fetched, m: State, m': State)
    requires c <= 4
  {
    match v
    case NoValue => m'.status == Faulted
    case Value(w) => AtLine(lines, base, k, m') && ScratchFrom(c, m, m') && m'.regs[Scr(c)] == w
  }

  /** A load into scratch register c. */
  lemma LoadStep(lines: seq<Line>, base: int, k: nat, c: nat, src: Source, m: State) returns (m': State)
    requires Closed(lines) && AtLine(lines, base, k, m) && c < 4 && k < |lines| && lines[k] == MoveLine(c, src)
    requires src != FromCell(ByReg(IP))
    ensures Reaches(lines, base, m, 1, m')
    ensures Computed(lines, base, k + 1, c, Fetch(src, m), m, m')
  {
    ReachesOne(lines, base, k, m);
    m' := Exec(Patch(lines, base, lines[k].i), m.(ip := AddressOfLine(lines, base, k + 1)));
  }

  /** The instruction of an operator applied to scratch register c and a register,
      in the tree's order or exchanged. */
  lemma Combine(lines: seq<Line>, base: int, k: nat, op: BinOp, c: nat, other: Reg, flipped: bool, m: State)
    returns (m': State)
    requires Closed(lines) && AtLine(lines, base, k, m) && c < 4 && (flipped ==> Flippable(op))
    requires k < |lines|
    requires lines[k] == Ins(if flipped then FlippedInstr(op, Scr(c), other) else BinInstr(op, Scr(c), other))
    ensures Reaches(lines, base, m, 1, m')
    ensures var a, b := m.regs[Scr(c)], m.regs[other];
            Computed(lines, base, k + 1, c,
              if other == IP then NoValue else if flipped then BinValue(op, b, a) else BinValue(op, a, b), m, m')
  {
    ReachesOne(lines, base, k, m);
    m' := Exec(Patch(lines, base, lines[k].i), m.(ip := AddressOfLine(lines, base, k + 1)));
    if flipped && op.RelB? {
      FlipExchanges(op.rel, m.regs[other], m.regs[Scr(c)]);
    }
  }

  /** The operator whose instruction stands for op with its operands exchanged. */
  function FlippedOp(op: BinOp): BinOp {
    if op.RelB? then RelB(Flip(op.rel)) else op
  }

  predicate Exchanged(op: BinOp, a: Word, b: Word) {
    BinValue(FlippedOp(op), b, a) == BinValue(op, a, b)
  }

  /** The generator exchanges the operands of exactly the operators where that keeps the value. */
  lemma FlippableIff(op: BinOp)
    ensures Flippable(op) <==> forall a, b :: Exchanged(op, a, b)
    ensures forall l, r :: FlippedInstr(op, l, r) == BinInstr(FlippedOp(op), l, r)
  {
    if Flippable(op) {
      forall a, b ensures Exchanged(op, a, b) {
        if op.RelB? {
          FlipExchanges(op.rel, a, b);
        }
      }
    } else {
      IntTextRoundTrip(2);
      IntTextRoundTrip(1);
      assert !Exchanged(op, Int(2), Int(1));
    }
  }

  /** An arithmetic instruction with a constant. */
  lemma CombineNumber(lines: seq<Line>, base: int, k: nat, op: ArithOp, c: nat, n: int, m: State) returns (m': State)
    requires Closed(lines) && AtLine(lines, base, k, m) && c < 4
    requires k < |lines| && lines[k] == Ins(Arith(op, Scr(c), NumOp(n)))
    ensures Reaches(lines, base, m, 1, m')
    ensures Computed(lines, base, k + 1, c, BinValue(ArithB(op), m.regs[Scr(c)], Int(n)), m, m')
  {
    ReachesOne(lines, base, k, m);
    m' := Exec(Patch(lines, base, lines[k].i), m.(ip := AddressOfLine(lines, base, k + 1)));
  }

  /** Joins two stretches of a run, the second starting only if the first did not fault. */
  lemma Join(lines: seq<Line>, base: int, m: State, a: nat, m1: State, b: nat, m2: State, j: nat, k: nat,
             c1: nat, v1: Fetched, c: nat, v: Fetched)
    requires c <= 4 && c <= c1 <= 4
    requires Reaches(lines, base, m, a, m1) && Computed(lines, base, j, c1, v1, m, m1) && v1.Value?
    requires Reaches(lines, base, m1, b, m2) && Computed(lines, base, k, c, v, m1, m2)
    ensures Reaches(lines, base, m, a + b, m2)
    ensures Computed(lines, base, k, c, v, m, m2)
  {
    ReachesAdd(lines, base, m, a, m1, b, m2);
  }

  lemma {:induction false} ExprRuns(lines: seq<Line>, base: int, k: nat, e: Expr, c: nat, m: State)
    returns (steps: nat, m': State)
    requires Closed(lines) && AtLine(lines, base, k, m) && ExprOk(e) && c <= 4
    requires ExprCode(e, c).Some? && CodeAt(lines, k, ExprCode(e, c).value)
    ensures Reaches(lines, base, m, steps, m')
    ensures Computed(lines, base, k + |ExprCode(e, c).value|, c, Eval(e, StoreOf(m)), m, m')
    decreases e, 1
  {
    hide Reaches, Index, AddressOfLine, Closed, Patch, FlippedInstr;
    steps := 1;
    CodeAtSplit(lines, k, ExprCode(e, c).value, []);
    match e {
      case NumE(n) => m' := LoadStep(lines, base, k, c, FromNum(n), m);
      case TextE(s) => m' := LoadStep(lines, base, k, c, FromText(s), m);
      case RegE(r) => m' := LoadStep(lines, base, k, c, FromReg(r), m);
      case CellE(_) => steps, m' := CellRuns(lines, base, k, e, c, m);
      case NotE(x) => steps, m' := NotRuns(lines, base, k, e, c, m);
      case BinE(op, l, r) =>
        if l.RegE? && (r.RegE? || (r.NumE? && op.ArithB?)) {
          steps, m' := BothSmallRuns(lines, base, k, e, c, m);
        } else if l.RegE? && Flippable(op) {
          steps, m' := FlippedRuns(lines, base, k, e, c, m);
        } else {
          steps, m' := BinRuns(lines, base, k, e, c, m);
        }
    }
  }

  lemma {:induction false} CellRuns(lines: seq<Line>, base: int, k: nat, e: Expr, c: nat, m: State)
    returns (steps: nat, m': State)
    requires Closed(lines) && AtLine(lines, base, k, m) && ExprOk(e) && c <= 4 && e.CellE?
    requires ExprCode(e, c).Some? && CodeAt(lines, k, ExprCode(e, c).value)
    ensures Reaches(lines, base, m, steps, m')
    ensures Computed(lines, base, k + |ExprCode(e, c).value|, c, Eval(e, StoreOf(m)), m, m')
    decreases e, 0
  {
    hide Reaches, Index, AddressOfLine, Closed, Patch;
    var code, last := ExprCode(e.e, c).value, MoveLine(c, FromCell(ByReg(Scr(c))));
    CodeAtSplit(lines, k, code, [last]);
    steps, m' := ExprRuns(lines, base, k, e.e, c, m);
    var v := Eval(e.e, StoreOf(m));
    if v.Value? {
      var m1 := m';
      m' := LoadStep(lines, base, k + |code|, c, FromCell(ByReg(Scr(c))), m1);
      Join(lines, base, m, steps, m1, 1, m', k + |code|, k + |code| + 1, c, v, c, Eval(e, StoreOf(m)));
      steps := steps + 1;
    }
  }

  /** Negation's code behind the load of 1. */
  function NotRest(x: Expr, c: nat): seq<Line>
    requires c < 4 && (x.RegE? || ExprCode(x, c + 1).Some?)
  {
    if x.RegE? then [Ins(BinInstr(ArithB(Sub), Scr(c), x.r))]
    else ExprCode(x, c + 1).value + [Ins(BinInstr(ArithB(Sub), Scr(c), Scr(c + 1)))]
  }

  lemma NotCode(e: Expr, c: nat)
    requires e.NotE? && c <= 4 && ExprOk(e) && ExprCode(e, c).Some?
    ensures c < 4 && ExprOk(e.e) && (e.e.RegE? || ExprCode(e.e, c + 1).Some?)
    ensures ExprCode(e, c).value == [MoveLine(c, FromNum(1))] + NotRest(e.e, c)
    ensures e.e.NumE? ==> |NotRest(e.e, c)| == 2
  {
  }

  lemma NotValue(x: Expr, st: Store)
    ensures var v := Eval(x, st); Eval(NotE(x), st) == if v.Value? then BinValue(ArithB(Sub), Int(1), v.w) else NoValue
    ensures x.NumE? ==> Eval(x, st) == Value(Int(x.n))
  {
  }

  /** The load of 1, which no operand sees. */
  lemma OneLoads(lines: seq<Line>, base: int, k: nat, x: Expr, c: nat, m: State) returns (m1: State)
    requires Closed(lines) && AtLine(lines, base, k, m) && ExprOk(x) && c < 4 && k < |lines| && lines[k] == MoveLine(c, FromNum(1))
    ensures Reaches(lines, base, m, 1, m1) && AtLine(lines, base, k + 1, m1)
    ensures Computed(lines, base, k + 1, c, Value(Int(1)), m, m1)
    ensures m1.regs[Scr(c)] == Int(1) && Eval(x, StoreOf(m1)) == Eval(x, StoreOf(m))
  {
    hide Reaches, Index, AddressOfLine, Closed, Patch, Eval;
    m1 := LoadStep(lines, base, k, c, FromNum(1), m);
    EvalFrame(x, StoreOf(m), StoreOf(m1));
  }

  lemma {:induction false} NotRuns(lines: seq<Line>, base: int, k: nat, e: Expr, c: nat, m: State)
    returns (steps: nat, m': State)
    requires Closed(lines) && AtLine(lines, base, k, m) && ExprOk(e) && c <= 4 && e.NotE?
    requires ExprCode(e, c).Some? && CodeAt(lines, k, ExprCode(e, c).value)
    ensures Reaches(lines, base, m, steps, m')
    ensures Computed(lines, base, k + |ExprCode(e, c).value|, c, Eval(e, StoreOf(m)), m, m')
    decreases e, 0
  {
    hide Reaches, Index, AddressOfLine, Closed, Patch, ExprCode, BinValue, Eval, Computed, StoreOf, ExprOk, AtLine;
    NotCode(e, c);
    var x, one, rest := e.e, [MoveLine(c, FromNum(1))], NotRest(e.e, c);
    CodeAtSplit(lines, k, one, rest);
    var m1 := OneLoads(lines, base, k, x, c, m);
    assert e == NotE(x);
    NotValue(x, StoreOf(m));
    if x.NumE? {
      steps, m' := NotNumberRuns(lines, base, k + 1, x, c, m1);
    } else {
      steps, m' := RestRuns(lines, base, k + 1, ArithB(Sub), x, c, rest, m1);
    }
    Join(lines, base, m, 1, m1, steps, m', k + 1, k + 1 + |rest|, c, Value(Int(1)), c, Eval(e, StoreOf(m)));
    steps := 1 + steps;
  }

  /** Negation loads even a constant into a register. */
  lemma NotNumberRuns(lines: seq<Line>, base: int, k: nat, x: Expr, c: nat, m: State) returns (steps: nat, m': State)
    requires Closed(lines) && AtLine(lines, base, k, m) && c < 4 && x.NumE? && ExprCode(x, c + 1).Some?
    requires CodeAt(lines, k, ExprCode(x, c + 1).value + [Ins(BinInstr(ArithB(Sub), Scr(c), Scr(c + 1)))])
    ensures Reaches(lines, base, m, steps, m')
    ensures Computed(lines, base, k + 2, c, BinValue(ArithB(Sub), m.regs[Scr(c)], Int(x.n)), m, m')
  {
    hide Reaches, Index, AddressOfLine, Closed, Patch;
    CodeAtSplit(lines, k, ExprCode(x, c + 1).value, [Ins(BinInstr(ArithB(Sub), Scr(c), Scr(c + 1)))]);
    var m1 := LoadStep(lines, base, k, c + 1, FromNum(x.n), m);
    m' := Combine(lines, base, k + 1, ArithB(Sub), c, Scr(c + 1), false, m1);
    ReachesAdd(lines, base, m, 1, m1, 1, m');
    steps := 2;
  }

  /** A register and a register or constant: no operand needs code of its own. */
  lemma {:induction false} BothSmallRuns(lines: seq<Line>, base: int, k: nat, e: Expr, c: nat, m: State)
    returns (steps: nat, m': State)
    requires Closed(lines) && AtLine(lines, base, k, m) && ExprOk(e) && c <= 4 && e.BinE? && e.left.RegE?
    requires e.right.RegE? || (e.right.NumE? && e.op.ArithB?)
    requires ExprCode(e, c).Some? && CodeAt(lines, k, ExprCode(e, c).value)
    ensures Reaches(lines, base, m, steps, m')
    ensures Computed(lines, base, k + |ExprCode(e, c).value|, c, Eval(e, StoreOf(m)), m, m')
  {
    hide Reaches, Index, AddressOfLine, Closed, Patch, FlippedInstr;
    var first, last := [ExprCode(e, c).value[0]], [ExprCode(e, c).value[1]];
    assert ExprCode(e, c).value == first + last;
    CodeAtSplit(lines, k, first, last);
    m' := LoadStep(lines, base, k, c, FromReg(e.left.r), m);
    steps := 1;
    if e.left.r == IP {
      assert Eval(e.left, StoreOf(m)) == NoValue;
    } else {
      var m1 := m';
      assert Eval(e.left, StoreOf(m)) == Value(m1.regs[Scr(c)]);
      if e.right.RegE? {
        var r := e.right.r;
        assert m1.regs[r] == m.regs[r];
        assert Eval(e.right, StoreOf(m)) == (if r == IP then NoValue else Value(m1.regs[r]));
        m' := Combine(lines, base, k + 1, e.op, c, r, false, m1);
      } else {
        assert Eval(e.right, StoreOf(m)) == Value(Int(e.right.n));
        m' := CombineNumber(lines, base, k + 1, e.op.aop, c, e.right.n, m1);
      }
      assert Eval(e, StoreOf(m)) == (if e.right == RegE(IP) then NoValue
                                     else BinValue(e.op, m1.regs[Scr(c)], Eval(e.right, StoreOf(m)).w));
      Join(lines, base, m, 1, m1, 1, m', k + 1, k + 2, c, Value(m.regs[e.left.r]), c, Eval(e, StoreOf(m)));
      steps := 2;
    }
  }

  /** The right operand is computed first and the operator is exchanged. */
  lemma {:induction false} FlippedRuns(lines: seq<Line>, base: int, k: nat, e: Expr, c: nat, m: State)
    returns (steps: nat, m': State)
    requires Closed(lines) && AtLine(lines, base, k, m) && ExprOk(e) && c <= 4 && e.BinE? && e.left.RegE?
    requires Flippable(e.op) && !(e.right.RegE? || (e.right.NumE? && e.op.ArithB?))
    requires ExprCode(e, c).Some? && CodeAt(lines, k, ExprCode(e, c).value)
    ensures Reaches(lines, base, m, steps, m')
    ensures Computed(lines, base, k + |ExprCode(e, c).value|, c, Eval(e, StoreOf(m)), m, m')
    decreases e, 0
  {
    hide Reaches, Index, AddressOfLine, Closed, Patch, BinValue, Fetch, FlippedInstr;
    var right := ExprCode(e.right, c).value;
    var last := [Ins(FlippedInstr(e.op, Scr(c), e.left.r))];
    assert ExprCode(e, c).value == right + last;
    CodeAtSplit(lines, k, right, last);
    steps, m' := ExprRuns(lines, base, k, e.right, c, m);
    var v := Eval(e.right, StoreOf(m));
    if v.Value? {
      var m1 := m';
      var l := e.left.r;
      assert m1.regs[l] == m.regs[l];
      assert Eval(e.left, StoreOf(m)) == (if l == IP then NoValue else Value(m.regs[l]));
      assert Eval(e, StoreOf(m)) == (if l == IP then NoValue else BinValue(e.op, m.regs[l], m1.regs[Scr(c)]));
      m' := Combine(lines, base, k + |right|, e.op, c, l, true, m1);
      Join(lines, base, m, steps, m1, 1, m', k + |right|, k + |right| + 1, c, v, c, Eval(e, StoreOf(m)));
      steps := steps + 1;
    }
  }

  /** What follows the left operand: the right operand, if it needs code, and the operator. */
  lemma {:induction false} RestRuns(lines: seq<Line>, base: int, k: nat, op: BinOp, r: Expr, c: nat, rest: seq<Line>, m: State)
    returns (steps: nat, m': State)
    requires Closed(lines) && AtLine(lines, base, k, m) && ExprOk(r) && c < 4 && CodeAt(lines, k, rest)
    requires if r.RegE? then rest == [Ins(BinInstr(op, Scr(c), r.r))]
             else if r.NumE? && op.ArithB? then rest == [Ins(Arith(op.aop, Scr(c), NumOp(r.n)))]
             else ExprCode(r, c + 1).Some? && rest == ExprCode(r, c + 1).value + [Ins(BinInstr(op, Scr(c), Scr(c + 1)))]
    ensures Reaches(lines, base, m, steps, m')
    ensures var v := Eval(r, StoreOf(m));
            Computed(lines, base, k + |rest|, c, if v.Value? then BinValue(op, m.regs[Scr(c)], v.w) else NoValue, m, m')
    decreases r, 2
  {
    hide Reaches, Index, AddressOfLine, Closed, Patch, BinValue, Fetch, FlippedInstr;
    CodeAtSplit(lines, k, rest, []);
    steps := 1;
    if r.RegE? {
      m' := Combine(lines, base, k, op, c, r.r, false, m);
    } else if r.NumE? && op.ArithB? {
      m' := CombineNumber(lines, base, k, op.aop, c, r.n, m);
    } else {
      var right, last := ExprCode(r, c + 1).value, [Ins(BinInstr(op, Scr(c), Scr(c + 1)))];
      CodeAtSplit(lines, k, right, last);
      steps, m' := ExprRuns(lines, base, k, r, c + 1, m);
      if Eval(r, StoreOf(m)).Value? {
        var m1 := m';
        m' := Combine(lines, base, k + |right|, op, c, Scr(c + 1), false, m1);
        ReachesAdd(lines, base, m, steps, m1, 1, m');
        steps := steps + 1;
      }
    }
  }

  /** The left operand first, then the right one, then the operator. */
  lemma {:induction false} BinRuns(lines: seq<Line>, base: int, k: nat, e: Expr, c: nat, m: State)
    returns (steps: nat, m': State)
    requires Closed(lines) && AtLine(lines, base, k, m) && ExprOk(e) && c <= 4 && e.BinE?
    requires !(e.left.RegE? && (Flippable(e.op) || e.right.RegE? || (e.right.NumE? && e.op.ArithB?)))
    requires ExprCode(e, c).Some? && CodeAt(lines, k, ExprCode(e, c).value)
    ensures Reaches(lines, base, m, steps, m')
    ensures Computed(lines, base, k + |ExprCode(e, c).value|, c, Eval(e, StoreOf(m)), m, m')
    decreases e, 0
  {
    hide Reaches, Index, AddressOfLine, Closed, Patch, BinValue, Fetch, FlippedInstr;
    var op, l, r := e.op, e.left, e.right;
    var left := ExprCode(l, c).value;
    var rest := if r.RegE? then [Ins(BinInstr(op, Scr(c), r.r))]
                else if r.NumE? && op.ArithB? then [Ins(Arith(op.aop, Scr(c), NumOp(r.n)))]
                else ExprCode(r, c + 1).value + [Ins(BinInstr(op, Scr(c), Scr(c + 1)))];
    assert ExprCode(e, c).value == left + rest;
    CodeAtSplit(lines, k, left, rest);
    var va := Eval(l, StoreOf(m));
    steps, m' := ExprRuns(lines, base, k, l, c, m);
    if va.Value? {
      var m1 := m';
      EvalFrame(r, StoreOf(m), StoreOf(m1));
      var b;
      b, m' := RestRuns(lines, base, k + |left|, op, r, c, rest, m1);
      Join(lines, base, m, steps, m1, b, m', k + |left|, k + |left| + |rest|, c, va, c, Eval(e, StoreOf(m)));
      steps := steps + b;
    }
  }
}
