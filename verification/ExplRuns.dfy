/** Compiled ExpL does what ExpL means: expressions deliver their value in the next
    register, and calls keep the stack frame convention at any depth of recursion. */
module ExplRuns {
  import opened Words
  import X = Xsm
  import opened Assembly
  import opened Expl
  import opened ExplCode
  import opened ExplBlocks
  import opened ExplSteps
  import opened ExplFrames

  /** The machine's word for the meaning v of e: for AND and OR any number that is
      positive exactly when e is true, otherwise v itself. */
  predicate Stands(e: Expr, v: Word, w: Word) {
    if Loose(e) then w.Int? && w.n >= 0 && (w.n > 0 <==> IsTrue(v)) else w == v
  }

  /** Where an expression's code gets in the given number of steps. */
  ghost predicate Ended(w: World, j: nat, k: nat, e: Expr, res: Res, globals: nat, m: State, m': State, steps: nat, fuel: nat)
    requires k <= MAX_REG
  {
    match res
    case Yields(v, g) =>
      Full(m') || (AtLine(w.lines, w.base, j, m') && Keeps(m, m', k, globals) && Stands(e, v, m'.regs[k]) && GlobalsAre(m', g))
    case Fails => m'.status == X.Faulted
    case Endless => Unfinished(m', steps, fuel)
    case Open => Settled(w, j, k, globals, m, m', steps, fuel)
  }

  // ---- leaves

  lemma LeafRuns(w: World, j: nat, fn: Fun, e: Expr, k: nat, n: nat, fr: Frame, g: seq<Word>, fuel: nat, m: State)
    returns (steps: nat, m': State)
    requires Closed(w.lines) && ProgramOk(w.p, |g|) && ExprOk(w.p, fn, |g|, e) && FrameOk(fn, fr) && Leaf(e)
    requires AtLine(w.lines, w.base, j, m) && Framed(m, fr, g)
    requires ExprCode(e, k, n).Code? && CodeAt(w.lines, j, ExprCode(e, k, n).lines)
    ensures k <= MAX_REG && Reaches(w.lines, w.base, m, steps, m')
    ensures Ended(w, j + |ExprCode(e, k, n).lines|, k, e, Eval(w.p, fn, e, fr, g, fuel), |g|, m, m', steps, fuel)
  {
    hide Closed, Reaches, ProgramOk, Index;
    var code := ExprCode(e, k, n).lines;
    LeafDoes(w.p, fn, e, k, n, fr, g, fuel, m);
    steps := StraightRuns(w.lines, w.base, j, code, m);
    m' := Straight(code, m);
  }

  // ---- expressions

  lemma {:induction false} ExprRuns(w: World, j: nat, fn: Fun, e: Expr, k: nat, n: nat, fr: Frame, g: seq<Word>, fuel: nat, m: State)
    returns (steps: nat, m': State)
    requires Loaded(w, |g|) && ExprOk(w.p, fn, |g|, e) && FrameOk(fn, fr)
    requires AtLine(w.lines, w.base, j, m) && Framed(m, fr, g)
    requires ExprCode(e, k, n).Code? && CodeAt(w.lines, j, ExprCode(e, k, n).lines)
    ensures k <= MAX_REG && Reaches(w.lines, w.base, m, steps, m')
    ensures Ended(w, j + |ExprCode(e, k, n).lines|, k, e, Eval(w.p, fn, e, fr, g, fuel), |g|, m, m', steps, fuel)
    decreases fuel, 1, e, 1
  {
    hide Closed, Reaches, ProgramOk, Index, Framed, Ended, Eval, DistinctLabels, ExprOk;
    if Leaf(e) {
      steps, m' := LeafRuns(w, j, fn, e, k, n, fr, g, fuel, m);
    } else if e.Arith? || e.Rel? {
      steps, m' := BinaryRuns(w, j, fn, e, k, n, fr, g, fuel, m);
    } else if e.And? || e.Or? {
      steps, m' := ShortCutRuns(w, j, fn, e, k, n, fr, g, fuel, m);
    } else if e.Not? {
      steps, m' := NotRuns(w, j, fn, e, k, n, fr, g, fuel, m);
    } else {
      steps, m' := CallRuns(w, j, fn, e, k, n, fr, g, fuel, m);
    }
  }

  lemma {:induction false} BinaryRuns(w: World, j: nat, fn: Fun, e: Expr, k: nat, n: nat, fr: Frame, g: seq<Word>, fuel: nat, m: State)
    returns (steps: nat, m': State)
    requires Loaded(w, |g|) && ExprOk(w.p, fn, |g|, e) && FrameOk(fn, fr) && (e.Arith? || e.Rel?)
    requires AtLine(w.lines, w.base, j, m) && Framed(m, fr, g)
    requires ExprCode(e, k, n).Code? && CodeAt(w.lines, j, ExprCode(e, k, n).lines)
    ensures k <= MAX_REG && Reaches(w.lines, w.base, m, steps, m')
    ensures Ended(w, j + |ExprCode(e, k, n).lines|, k, e, Eval(w.p, fn, e, fr, g, fuel), |g|, m, m', steps, fuel)
    decreases fuel, 1, e, 0
  {
    hide Closed, Reaches, ProgramOk, Index, Framed, DistinctLabels, AddressOfLine, Present, FrameOk, Eval, ExprOk, CodeAt,
      ExprCode, Do, Keeps, OnlyRegs, GlobalsAre, LastOf, BinaryValue;
    if Eval(w.p, fn, e, fr, g, fuel).Open? {
      FramedHasRoom(fn, fr, g, m);
      steps, m' := ExprFrames(w, j, fn, e, k, n, |g|, fuel, m);
      return;
    }
    EvalBinary(w.p, fn, e, fr, g, fuel);
    BinaryCode(e, k, n);
    var a := ExprCode(e.left, k, n);
    var b := ExprCode(e.right, k + 1, a.n);
    var last := LastOf(e, k);
    CodeAtSplit(w.lines, j, a.lines, b.lines + [last]);
    CodeAtSplit(w.lines, j + |a.lines|, b.lines, [last]);
    steps, m' := ExprRuns(w, j, fn, e.left, k, n, fr, g, fuel, m);
    var va := Eval(w.p, fn, e.left, fr, g, fuel);
    if va.Yields? && !Full(m') {
      var m1 := m';
      FrameStays(m, m1, k, fr, g, va.g);
      var s2, m2 := ExprRuns(w, j + |a.lines|, fn, e.right, k + 1, a.n, fr, va.g, fuel, m1);
      steps := Then(w, m, steps, m1, s2, m2);
      m' := m2;
      var vb := Eval(w.p, fn, e.right, fr, va.g, fuel);
      if vb.Yields? && !Full(m2) {
        KeptBelow(m1, m2, k, |g|);
        Operates(e, k, va.w, vb.w, vb.g, m2);
        OneRuns(w.lines, w.base, j + |a.lines| + |b.lines|, m2);
        m' := Do(last, m2);
        steps := Then(w, m, steps, m2, 1, m');
        KeepsTwice(m, m1, m2, k, k + 1, |g|);
        if m'.status == X.Running {
          ScratchKeeps(m, m2, m', k, k, k, |g|, vb.g);
        }
      }
    }
  }

  lemma EvalBinary(p: Program, fn: Fun, e: Expr, fr: Frame, g: seq<Word>, fuel: nat)
    requires ProgramOk(p, |g|) && ExprOk(p, fn, |g|, e) && FrameOk(fn, fr) && (e.Arith? || e.Rel?)
    ensures ExprOk(p, fn, |g|, e.left) && ExprOk(p, fn, |g|, e.right) && !Loose(e.left) && !Loose(e.right)
    ensures var a := Eval(p, fn, e.left, fr, g, fuel);
            Eval(p, fn, e, fr, g, fuel) ==
              if !a.Yields? then a
              else
                var b := Eval(p, fn, e.right, fr, a.g, fuel);
                if !b.Yields? then b else BinaryValue(e, a.w, b.w, b.g)
  {
  }

  /** A boolean tree's word is a number that is positive exactly when the tree is true. */
  predicate IsTruth(v: Word, x: Word) {
    (v == Int(0) || v == Int(1)) && x.Int? && x.n >= 0 && (x.n > 0 <==> IsTrue(v))
  }

  lemma StandsForTruth(p: Program, fn: Fun, e: Expr, fr: Frame, g: seq<Word>, fuel: nat, x: Word)
    requires ProgramOk(p, |g|) && ExprOk(p, fn, |g|, e) && FrameOk(fn, fr) && Boolean(e)
    requires Eval(p, fn, e, fr, g, fuel).Yields? && Stands(e, Eval(p, fn, e, fr, g, fuel).w, x)
    ensures IsTruth(Eval(p, fn, e, fr, g, fuel).w, x)
  {
    hide Eval, ProgramOk, ExprOk;
    BooleanIsBit(p, fn, e, fr, g, fuel);
  }

  lemma {:induction false} ShortCutRuns(w: World, j: nat, fn: Fun, e: Expr, k: nat, n: nat, fr: Frame, g: seq<Word>, fuel: nat, m: State)
    returns (steps: nat, m': State)
    requires Loaded(w, |g|) && ExprOk(w.p, fn, |g|, e) && FrameOk(fn, fr) && (e.And? || e.Or?)
    requires AtLine(w.lines, w.base, j, m) && Framed(m, fr, g)
    requires ExprCode(e, k, n).Code? && CodeAt(w.lines, j, ExprCode(e, k, n).lines)
    ensures k <= MAX_REG && Reaches(w.lines, w.base, m, steps, m')
    ensures Ended(w, j + |ExprCode(e, k, n).lines|, k, e, Eval(w.p, fn, e, fr, g, fuel), |g|, m, m', steps, fuel)
    decreases fuel, 1, e, 0
  {
    hide Closed, Reaches, ProgramOk, Index, Framed, DistinctLabels, AddressOfLine, Present, FrameOk, SkipTest, SkipEnd,
         Eval, ExprOk, CodeAt, Boolean, ExprCode, Keeps, GlobalsAre, LabelOffset;
    if Eval(w.p, fn, e, fr, g, fuel).Open? {
      FramedHasRoom(fn, fr, g, m);
      steps, m' := ExprFrames(w, j, fn, e, k, n, |g|, fuel, m);
      return;
    }
    EvalShortCut(w.p, fn, e, fr, g, fuel);
    ShortCutCode(e, k, n);
    var a := ExprCode(e.left, k, n);
    var x := a.n + 1;
    var b := ExprCode(e.right, k + 2, x);
    var j1 := j + |a.lines|;
    CodeAtSplit(w.lines, j, a.lines, SkipTest(e, k, x) + (b.lines + SkipEnd(e, k, x)));
    CodeAtSplit(w.lines, j1, SkipTest(e, k, x), b.lines + SkipEnd(e, k, x));
    CodeAtSplit(w.lines, j1 + 2, b.lines, SkipEnd(e, k, x));
    steps, m' := ExprRuns(w, j, fn, e.left, k, n, fr, g, fuel, m);
    var va := Eval(w.p, fn, e.left, fr, g, fuel);
    if va.Yields? && !Full(m') {
      var m1 := m';
      StandsForTruth(w.p, fn, e.left, fr, g, fuel, m1.regs[k]);
      var m2 := TestRuns(w, j1, e, k, x, m1, j1 + 2 + |b.lines|);
      steps := Then(w, m, steps, m1, 2, m2);
      ScratchKeeps(m, m1, m2, k, k + 1, k + 1, |g|, va.g);
      if Skips(e, va.w) {
        m' := SkipRuns(w, j1 + 2 + |b.lines| + 1, e, k, x, m2);
        steps := Then(w, m, steps, m2, 1, m');
        ScratchKeeps(m, m2, m', k, k, k, |g|, va.g);
      } else {
        FrameStays(m, m2, k, fr, g, va.g);
        var s3, m3 := RightRuns(w, j1 + 2, fn, e, k, x, fr, va.g, fuel, va.w, m2);
        m' := m3;
        steps := Then(w, m, steps, m2, s3, m3);
        if !Full(m3) && Eval(w.p, fn, e.right, fr, va.g, fuel).Yields? {
          KeepsTwice(m, m2, m3, k, k, |g|);
        }
      }
    }
  }

  /** The right operand of AND or OR, after a left one of value v that does not decide. */
  lemma {:induction false} RightRuns(w: World, j: nat, fn: Fun, e: Expr, k: nat, x: nat, fr: Frame, g: seq<Word>, fuel: nat, v: Word, m: State)
    returns (steps: nat, m': State)
    requires Loaded(w, |g|) && (e.And? || e.Or?) && ExprOk(w.p, fn, |g|, e.right) && Boolean(e.right) && FrameOk(fn, fr)
    requires AtLine(w.lines, w.base, j, m) && Framed(m, fr, g) && k + 2 <= MAX_REG
    requires ExprCode(e.right, k + 2, x).Code? && CodeAt(w.lines, j, ExprCode(e.right, k + 2, x).lines)
    requires CodeAt(w.lines, j + |ExprCode(e.right, k + 2, x).lines|, SkipEnd(e, k, x))
    requires IsTruth(v, m.regs[k]) && !Skips(e, v)
    ensures Reaches(w.lines, w.base, m, steps, m')
    ensures var r := Truthy(Eval(w.p, fn, e.right, fr, g, fuel));
            r.Open? || Ended(w, j + |ExprCode(e.right, k + 2, x).lines| + 3, k, e, r, |g|, m, m', steps, fuel)
    decreases fuel, 1, e.right, 2
  {
    hide Closed, Reaches, ProgramOk, Index, Framed, DistinctLabels, AddressOfLine, Present, FrameOk, SkipEnd,
         Eval, ExprOk, CodeAt, Boolean, ExprCode, GlobalsAre, LabelOffset;
    var b := ExprCode(e.right, k + 2, x);
    steps, m' := ExprRuns(w, j, fn, e.right, k + 2, x, fr, g, fuel, m);
    var vb := Eval(w.p, fn, e.right, fr, g, fuel);
    if vb.Yields? && !Full(m') {
      var m1 := m';
      StandsForTruth(w.p, fn, e.right, fr, g, fuel, m1.regs[k + 2]);
      assert Keeps(m, m1, k, |g|);
      m' := CombineRuns(w, j + |b.lines|, e, k, x, m1);
      steps := Then(w, m, steps, m1, 2, m');
      ScratchKeeps(m, m1, m', k, k, k + 1, |g|, vb.g);
      Positive(m1.regs[k].n, m1.regs[k + 2].n);
    }
  }

  lemma Positive(a: int, b: int)
    requires a >= 0 && b >= 0
    ensures a * b >= 0 && (a * b > 0 <==> a > 0 && b > 0)
  {
    if a == 0 || b == 0 {
      assert a * b == 0;
    } else {
      assert a * b == a + a * (b - 1) && a * (b - 1) >= 0;
    }
  }

  predicate Skips(e: Expr, v: Word) {
    if e.And? then !IsTrue(v) else IsTrue(v)
  }

  lemma EvalShortCut(p: Program, fn: Fun, e: Expr, fr: Frame, g: seq<Word>, fuel: nat)
    requires ProgramOk(p, |g|) && ExprOk(p, fn, |g|, e) && FrameOk(fn, fr) && (e.And? || e.Or?)
    ensures ExprOk(p, fn, |g|, e.left) && ExprOk(p, fn, |g|, e.right) && Boolean(e.left) && Boolean(e.right)
    ensures var a := Eval(p, fn, e.left, fr, g, fuel);
            Eval(p, fn, e, fr, g, fuel) ==
              if !a.Yields? then a
              else if Skips(e, a.w) then Yields(Bool(e.Or?), a.g)
              else Truthy(Eval(p, fn, e.right, fr, a.g, fuel))
  {
  }

  lemma NotMeans(p: Program, fn: Fun, e: Expr, fr: Frame, g: seq<Word>, fuel: nat)
    requires ProgramOk(p, |g|) && ExprOk(p, fn, |g|, e) && FrameOk(fn, fr) && e.Not? && ExprOk(p, fn, |g|, e.e)
    ensures var a := Eval(p, fn, e.e, fr, g, fuel); Eval(p, fn, e, fr, g, fuel) == if a.Yields? then Yields(Bool(!IsTrue(a.w)), a.g) else a
  {
    hide ProgramOk, FrameOk;
  }

  lemma {:induction false} NotRuns(w: World, j: nat, fn: Fun, e: Expr, k: nat, n: nat, fr: Frame, g: seq<Word>, fuel: nat, m: State)
    returns (steps: nat, m': State)
    requires Loaded(w, |g|) && ExprOk(w.p, fn, |g|, e) && FrameOk(fn, fr) && e.Not?
    requires AtLine(w.lines, w.base, j, m) && Framed(m, fr, g)
    requires ExprCode(e, k, n).Code? && CodeAt(w.lines, j, ExprCode(e, k, n).lines)
    ensures k <= MAX_REG && Reaches(w.lines, w.base, m, steps, m')
    ensures Ended(w, j + |ExprCode(e, k, n).lines|, k, e, Eval(w.p, fn, e, fr, g, fuel), |g|, m, m', steps, fuel)
    decreases fuel, 1, e, 0
  {
    hide Closed, Reaches, ProgramOk, Index, Framed, DistinctLabels, AddressOfLine, Present, FrameOk, CodeAt, ExprCode, Eval, ExprOk;
    if Eval(w.p, fn, e, fr, g, fuel).Open? {
      FramedHasRoom(fn, fr, g, m);
      steps, m' := ExprFrames(w, j, fn, e, k, n, |g|, fuel, m);
      return;
    }
    NotShape(w.p, fn, e, k, n, |g|);
    NotMeans(w.p, fn, e, fr, g, fuel);
    var a := ExprCode(e.e, k, n);
    var tail := NotTail(k, a.n);
    CodeAtSplit(w.lines, j, a.lines, tail);
    steps, m' := ExprRuns(w, j, fn, e.e, k, n, fr, g, fuel, m);
    var va := Eval(w.p, fn, e.e, fr, g, fuel);
    if va.Yields? && !Full(m') {
      var m1 := m';
      StandsForTruth(w.p, fn, e.e, fr, g, fuel, m1.regs[k]);
      var s2, m2 := NegateRuns(w, j + |a.lines|, k, a.n, m1);
      m' := m2;
      steps := Then(w, m, steps, m1, s2, m');
      KeepsTwice(m, m1, m', k, k, |g|);
    }
  }

  // ---- calls

  lemma {:induction false} ArgsRuns(w: World, j: nat, fn: Fun, args: seq<Expr>, n: nat, fr: Frame, g: seq<Word>, fuel: nat, m: State)
    returns (steps: nat, m': State)
    requires Loaded(w, |g|) && FrameOk(fn, fr) && forall a | a in args :: ExprOk(w.p, fn, |g|, a) && CallFree(a) && !Loose(a)
    requires AtLine(w.lines, w.base, j, m) && Framed(m, fr, g)
    requires ArgsCode(args, n).Code? && CodeAt(w.lines, j, ArgsCode(args, n).lines)
    ensures Reaches(w.lines, w.base, m, steps, m')
    ensures match EvalArgs(w.p, fn, args, fr, g, fuel)
            case Words(ws) => Full(m') || (AtLine(w.lines, w.base, j + |ArgsCode(args, n).lines|, m') && ArgsOn(m, m', ws, g))
            case NoWords(r) => (r == Fails ==> m'.status == X.Faulted) && (r == Endless ==> Unfinished(m', steps, fuel))
    decreases fuel, 1, args, 0
  {
    hide Closed, Reaches, ProgramOk, Index, DistinctLabels, Present, ExprCode, ExprOk, Eval, AddressOfLine, CodeAt, Framed, ArgsOn, Unfinished;
    if args == [] {
      steps, m' := 0, m;
      ReachesNone(w.lines, w.base, m);
      NoArgsOn(m, fr, g);
    } else {
      var rest := ArgsCode(args[1..], n);
      var a := ExprCode(args[0], 0, rest.n);
      CodeAtSplit(w.lines, j, rest.lines, a.lines + [Ins(X.Push(0))]);
      steps, m' := ArgsRuns(w, j, fn, args[1..], n, fr, g, fuel, m);
      var vs := EvalArgs(w.p, fn, args[1..], fr, g, fuel);
      if vs.Words? && !Full(m') {
        var m1 := m';
        var s2, m2 := ArgRuns(w, j + |rest.lines|, fn, args[0], rest.n, fr, g, fuel, vs.ws, m, m1);
        m' := m2;
        steps := Then(w, m, steps, m1, s2, m2);
        LaterStill(m2, s2, steps, fuel);
      } else {
        FullIsUnfinished(m', steps, fuel);
      }
    }
  }

  /** One more argument: computed in R0 and pushed. */
  lemma {:induction false} ArgRuns(w: World, j: nat, fn: Fun, e: Expr, n: nat, fr: Frame, g: seq<Word>, fuel: nat, ws: seq<Word>, m: State, m1: State)
    returns (steps: nat, m': State)
    requires Loaded(w, |g|) && FrameOk(fn, fr) && ExprOk(w.p, fn, |g|, e) && CallFree(e) && !Loose(e)
    requires AtLine(w.lines, w.base, j, m1) && Framed(m, fr, g) && ArgsOn(m, m1, ws, g)
    requires ExprCode(e, 0, n).Code? && CodeAt(w.lines, j, ExprCode(e, 0, n).lines + [Ins(X.Push(0))])
    ensures Reaches(w.lines, w.base, m1, steps, m')
    ensures match Eval(w.p, fn, e, fr, g, fuel)
            case Yields(v, _) => Full(m') || (AtLine(w.lines, w.base, j + |ExprCode(e, 0, n).lines| + 1, m') && ArgsOn(m, m', [v] + ws, g))
            case Fails => m'.status == X.Faulted
            case Endless => Unfinished(m', steps, fuel)
            case Open => true
    decreases fuel, 1, e, 2
  {
    hide Closed, Reaches, ProgramOk, Index, DistinctLabels, Present, ExprCode, Eval, AddressOfLine, Do, CodeAt, Framed, ArgsOn, Keeps, GlobalsAre;
    var code, push := ExprCode(e, 0, n).lines, [Ins(X.Push(0))];
    CodeAtSplit(w.lines, j, code, push);
    InFile(w.lines, j + |code|, push);
    ArgsFramed(m, m1, fr, ws, g);
    steps, m' := ExprRuns(w, j, fn, e, 0, n, fr, g, fuel, m1);
    var v := Eval(w.p, fn, e, fr, g, fuel);
    CallFreeIsPure(w.p, fn, e, fr, g, fuel);
    if v.Yields? && !Full(m') {
      var m2 := m';
      OneRuns(w.lines, w.base, j + |code|, m2);
      m' := Do(push[0], m2);
      steps := Then(w, m1, steps, m2, 1, m');
      FramedStack(m, fr, g);
      PushedArg(m, m1, m2, m', ws, v.w, g);
    }
  }

  lemma {:induction false} CallRuns(w: World, j: nat, fn: Fun, e: Expr, k: nat, n: nat, fr: Frame, g: seq<Word>, fuel: nat, m: State)
    returns (steps: nat, m': State)
    requires Loaded(w, |g|) && ExprOk(w.p, fn, |g|, e) && FrameOk(fn, fr) && e.Call?
    requires AtLine(w.lines, w.base, j, m) && Framed(m, fr, g)
    requires ExprCode(e, k, n).Code? && CodeAt(w.lines, j, ExprCode(e, k, n).lines)
    ensures k <= MAX_REG && Reaches(w.lines, w.base, m, steps, m')
    ensures Ended(w, j + |ExprCode(e, k, n).lines|, k, e, Eval(w.p, fn, e, fr, g, fuel), |g|, m, m', steps, fuel)
    decreases fuel, 1, e, 0
  {
    hide Closed, Reaches, ProgramOk, Index, DistinctLabels, AddressOfLine, Present, FrameOk,
         CodeAt, GlobalsAre, LabelOffset, EvalArgs, Apply, ArgsCode, Framed, SavedAt, Straight;
    if Eval(w.p, fn, e, fr, g, fuel).Open? {
      FramedHasRoom(fn, fr, g, m);
      steps, m' := ExprFrames(w, j, fn, e, k, n, |g|, fuel, m);
      return;
    }
    var c := ArgsCode(e.args, n);
    CodeAtSplit(w.lines, j, Saves(k), c.lines + CallTail(e.f, |e.args|, k));
    CodeAtSplit(w.lines, j + k, c.lines, CallTail(e.f, |e.args|, k));
    assert StackIs(m, Sp(m)) by { FramedStack(m, fr, g); }
    SavesDo(k, m);
    var m1 := Straight(Saves(k), m);
    steps := StraightRuns(w.lines, w.base, j, Saves(k), m);
    m' := m1;
    if !Full(m1) {
      PushedFramed(m, m1, fr, g);
      var s2, m2 := ArgsRuns(w, j + k, fn, e.args, n, fr, g, fuel, m1);
      steps := Then(w, m, steps, m1, s2, m2);
      m' := m2;
      var vs := EvalArgs(w.p, fn, e.args, fr, g, fuel);
      if vs.Words? && !Full(m2) && fuel > 0 {
        var s3, m3 := EnterRuns(w, j + k + |c.lines|, fn, e, k, fr, g, fuel, vs.ws, m, m1, m2);
        steps := Then(w, m, steps, m2, s3, m3);
        m' := m3;
      }
    } else {
      FullIsNoValue(m1);
    }
  }

  /** From the last argument on: the call, the function, and the caller's unwinding. */
  lemma {:induction false} EnterRuns(w: World, j: nat, fn: Fun, e: Expr, k: nat, fr: Frame, g: seq<Word>, fuel: nat, ws: seq<Word>,
                                     m: State, m1: State, m2: State)
    returns (steps: nat, m': State)
    requires Loaded(w, |g|) && e.Call? && e.f < |w.p| && |ws| == |e.args| == w.p[e.f].params && fuel > 0 && k <= MAX_REG
    requires Framed(m, fr, g) && Pushed(m, m1, Sp(m)) && StackIs(m1, Sp(m) + k) && SavedAt(m1.mem, Sp(m), k, m)
    requires AtLine(w.lines, w.base, j, m2) && ArgsOn(m1, m2, ws, g)
    requires CodeAt(w.lines, j, CallTail(e.f, |e.args|, k))
    ensures Reaches(w.lines, w.base, m2, steps, m')
    ensures var r := Apply(w.p, e.f, ws, g, fuel - 1); r.Open? || Ended(w, j + |CallTail(e.f, |e.args|, k)|, k, e, r, |g|, m, m', steps, fuel)
    decreases fuel, 0, e, 0
  {
    hide Closed, Reaches, ProgramOk, Index, DistinctLabels, Present, FrameOk, LabelOffset, Apply, Straight, GlobalsAre, AddressOfLine, Framed, ArgsOn, SavedAt;
    FramedStack(m, fr, g);
    var un := [Ins(X.Pop(k))] + (Pops(Drop(k), |ws|) + Restores(k));
    assert CallTail(e.f, |e.args|, k) == [Ins(X.Push(0))] + ([Ins(X.Call(F(e.f)))] + un);
    CodeAtSplit(w.lines, j, [Ins(X.Push(0))], [Ins(X.Call(F(e.f)))] + un);
    CodeAtSplit(w.lines, j + 1, [Ins(X.Call(F(e.f)))], un);
    OneRuns(w.lines, w.base, j, m2);
    var m3 := Do(Ins(X.Push(0)), m2);
    steps, m' := 1, m3;
    ArgsStack(m, m1, m2, k, ws, g);
    if m3.status == X.Running {
      var m4 := CallStep(w, j + 1, e.f, m3);
      steps := Then(w, m2, 1, m3, 1, m4);
      m' := m4;
      if !Full(m4) {
        var ret := AddressOfLine(w.lines, w.base, j + 2);
        PushStep(m2);
        ReadyToEnter(m, m1, m2, m3, m4, k, ws, g, ret);
        var s5, m5 := FunRuns(w, e.f, ws, g, fuel - 1, m4, ret);
        steps := Then(w, m2, steps, m4, s5, m5);
        m' := m5;
        var r := Apply(w.p, e.f, ws, g, fuel - 1);
        if r.Yields? && !Full(m5) {
          assert AtLine(w.lines, w.base, j + 2, m5) by { assert j + 2 <= |w.lines|; }
          StillSaved(m, m1, m2, m3, m4, m5, k, ws, g, ret, r.w, r.g);
          UnwindDoes(k, |ws|, Sp(m), m5, m);
          m' := Straight(un, m5);
          var s6 := StraightRuns(w.lines, w.base, j + 2, un, m5);
          steps := Then(w, m2, steps, m5, s6, m');
          CallKept(m, m5, m', k, |g|, r.g);
        }
      }
    }
  }

  // ---- statements

  ghost predicate StmtEnded(w: World, j: nat, params: nat, out: Out, globals: nat, m: State, m': State, steps: nat, fuel: nat) {
    match out
    case Done(fr, g) =>
      Full(m') || (AtLine(w.lines, w.base, j, m') && Framed(m', fr, g) && Outside(m, m', params, globals))
    case Stops(r) => (r == Fails ==> m'.status == X.Faulted) && (r == Endless ==> Unfinished(m', steps, fuel))
  }

  lemma {:induction false} StmtRuns(w: World, j: nat, fn: Fun, s: Stmt, k: nat, n: nat, fr: Frame, g: seq<Word>, fuel: nat, m: State)
    returns (steps: nat, m': State)
    requires Loaded(w, |g|) && StmtOk(w.p, fn, |g|, s) && FrameOk(fn, fr)
    requires AtLine(w.lines, w.base, j, m) && Framed(m, fr, g)
    requires StmtCode(s, k, n).Piece? && CodeAt(w.lines, j, StmtCode(s, k, n).lines)
    ensures Reaches(w.lines, w.base, m, steps, m')
    ensures StmtEnded(w, j + |StmtCode(s, k, n).lines|, fn.params, Exec(w.p, fn, s, fr, g, fuel), |g|, m, m', steps, fuel)
    ensures Exec(w.p, fn, s, fr, g, fuel) == Stops(Open) ==> StmtSettled(w, j + |StmtCode(s, k, n).lines|, fn.params, |g|, m, m', steps, fuel)
    decreases fuel, 1, s, 2
  {
    hide Closed, Reaches, ProgramOk, Index, DistinctLabels, Present, AddressOfLine, Framed, ExprOk, Eval, ExprCode, LabelOffset, Unfinished;
    if Exec(w.p, fn, s, fr, g, fuel) == Stops(Open) {
      FramedHasRoom(fn, fr, g, m);
      steps, m' := StmtFrames(w, j, fn, s, k, n, |g|, fuel, m);
      return;
    }
    match s {
      case Skip =>
        steps, m' := 0, m;
        ReachesNone(w.lines, w.base, m);
      case Seq(_, _) => steps, m' := SeqRuns(w, j, fn, s, k, n, fr, g, fuel, m);
      case SetLocal(_, _) => steps, m' := SetRuns(w, j, fn, s, k, n, fr, g, fuel, m);
      case SetParam(_, _) => steps, m' := SetRuns(w, j, fn, s, k, n, fr, g, fuel, m);
      case SetGlobal(_, _) => steps, m' := SetRuns(w, j, fn, s, k, n, fr, g, fuel, m);
      case If(_, _) => steps, m' := IfRuns(w, j, fn, s, k, n, fr, g, fuel, m);
      case IfElse(_, _, _) => steps, m' := IfElseRuns(w, j, fn, s, k, n, fr, g, fuel, m);
      case While(_, _) => steps, m' := WhileRuns(w, j, fn, s, k, n, fr, g, fuel, m);
    }
  }

  lemma {:induction false} SeqRuns(w: World, j: nat, fn: Fun, s: Stmt, k: nat, n: nat, fr: Frame, g: seq<Word>, fuel: nat, m: State)
    returns (steps: nat, m': State)
    requires Loaded(w, |g|) && StmtOk(w.p, fn, |g|, s) && FrameOk(fn, fr) && s.Seq?
    requires AtLine(w.lines, w.base, j, m) && Framed(m, fr, g)
    requires StmtCode(s, k, n).Piece? && CodeAt(w.lines, j, StmtCode(s, k, n).lines)
    ensures Reaches(w.lines, w.base, m, steps, m')
    ensures StmtEnded(w, j + |StmtCode(s, k, n).lines|, fn.params, Exec(w.p, fn, s, fr, g, fuel), |g|, m, m', steps, fuel)
    decreases fuel, 1, s, 1
  {
    hide Closed, Reaches, ProgramOk, Index, DistinctLabels, Present, AddressOfLine, Framed, ExprOk, Eval, ExprCode, LabelOffset, Outside, CodeAt;
    var x := StmtCode(s.first, k, n);
    var y := StmtCode(s.second, x.k, x.n);
    CodeAtSplit(w.lines, j, x.lines, y.lines);
    steps, m' := StmtRuns(w, j, fn, s.first, k, n, fr, g, fuel, m);
    var o := Exec(w.p, fn, s.first, fr, g, fuel);
    if o.Done? && !Full(m') {
      var m1 := m';
      var s2, m2 := StmtRuns(w, j + |x.lines|, fn, s.second, x.k, x.n, o.fr, o.g, fuel, m1);
      m' := m2;
      steps := Then(w, m, steps, m1, s2, m2);
      if Exec(w.p, fn, s.second, o.fr, o.g, fuel).Done? && !Full(m2) {
        OutsideTwice(m, m1, m2, fn.params, |g|);
      }
    }
  }

  lemma {:induction false} SetRuns(w: World, j: nat, fn: Fun, s: Stmt, k: nat, n: nat, fr: Frame, g: seq<Word>, fuel: nat, m: State)
    returns (steps: nat, m': State)
    requires Loaded(w, |g|) && StmtOk(w.p, fn, |g|, s) && FrameOk(fn, fr) && Sets(s)
    requires AtLine(w.lines, w.base, j, m) && Framed(m, fr, g)
    requires StmtCode(s, k, n).Piece? && CodeAt(w.lines, j, StmtCode(s, k, n).lines)
    ensures Reaches(w.lines, w.base, m, steps, m')
    ensures StmtEnded(w, j + |StmtCode(s, k, n).lines|, fn.params, Exec(w.p, fn, s, fr, g, fuel), |g|, m, m', steps, fuel)
    decreases fuel, 1, s, 1
  {
    hide Closed, Reaches, ProgramOk, Index, DistinctLabels, Present, AddressOfLine, Framed, ExprOk, Eval, ExprCode, LabelOffset, Outside, Straight, CodeAt,
      StmtCode, StmtTail;
    SetCode(s, k, n);
    var c := ExprCode(s.e, k, n);
    var tail := StmtTail(s, k);
    CodeAtSplit(w.lines, j, c.lines, tail);
    steps, m' := ExprRuns(w, j, fn, s.e, k, n, fr, g, fuel, m);
    var v := Eval(w.p, fn, s.e, fr, g, fuel);
    if v.Yields? && !Full(m') {
      var m1 := m';
      FrameStays(m, m1, k, fr, g, v.g);
      KeepsOutside(m, m1, k, fr, g);
      TailDoes(fn, s, k, fr, v.g, v.w, m1);
      m' := Straight(tail, m1);
      var s2 := StraightRuns(w.lines, w.base, j + |c.lines|, tail, m1);
      steps := Then(w, m, steps, m1, s2, m');
      OutsideTwice(m, m1, m', fn.params, |g|);
    }
  }

  /** A condition in R_k, and the jump to label x (which stands at line t) when it is false. */
  lemma {:induction false} ConditionRuns(w: World, j: nat, fn: Fun, c: Expr, k: nat, n: nat, x: nat, t: nat, fr: Frame, g: seq<Word>, fuel: nat, m: State)
    returns (steps: nat, m': State)
    requires Loaded(w, |g|) && ExprOk(w.p, fn, |g|, c) && FrameOk(fn, fr) && Boolean(c)
    requires AtLine(w.lines, w.base, j, m) && Framed(m, fr, g)
    requires ExprCode(c, k, n).Code? && k <= MAX_REG && CodeAt(w.lines, j, ExprCode(c, k, n).lines + [Ins(X.Jz(k, L(x)))])
    requires t < |w.lines| && w.lines[t] == LabelDef(L(x))
    ensures Reaches(w.lines, w.base, m, steps, m')
    ensures var v := Eval(w.p, fn, c, fr, g, fuel);
            match v
            case Yields(b, g') =>
              Full(m') || (AtLine(w.lines, w.base, if IsTrue(b) then j + |ExprCode(c, k, n).lines| + 1 else t + 1, m')
                           && Framed(m', fr, g') && Outside(m, m', fn.params, |g|) && steps >= 1)
            case Fails => m'.status == X.Faulted
            case Endless => Unfinished(m', steps, fuel)
            case Open => true
    decreases fuel, 1, c, 2
  {
    hide Closed, Reaches, ProgramOk, Index, DistinctLabels, Present, AddressOfLine, Framed, ExprOk, Eval, ExprCode, LabelOffset, Outside, CodeAt, Boolean, Keeps, GlobalsAre;
    var code := ExprCode(c, k, n).lines;
    CodeAtSplit(w.lines, j, code, [Ins(X.Jz(k, L(x)))]);
    steps, m' := ExprRuns(w, j, fn, c, k, n, fr, g, fuel, m);
    var v := Eval(w.p, fn, c, fr, g, fuel);
    if v.Yields? && !Full(m') {
      var m1 := m';
      StandsForTruth(w.p, fn, c, fr, g, fuel, m1.regs[k]);
      m' := JzRuns(w.lines, w.base, j + |code|, k, L(x), m1);
      AtLabelLine(w.lines, w.base, t, m');
      steps := Then(w, m, steps, m1, 1, m');
      SameKeeps(m, m1, m', k, |g|, v.g);
      FrameStays(m, m', k, fr, g, v.g);
      KeepsOutside(m, m', k, fr, g);
    }
  }

  lemma {:induction false} IfRuns(w: World, j: nat, fn: Fun, s: Stmt, k: nat, n: nat, fr: Frame, g: seq<Word>, fuel: nat, m: State)
    returns (steps: nat, m': State)
    requires Loaded(w, |g|) && StmtOk(w.p, fn, |g|, s) && FrameOk(fn, fr) && s.If?
    requires AtLine(w.lines, w.base, j, m) && Framed(m, fr, g)
    requires StmtCode(s, k, n).Piece? && CodeAt(w.lines, j, StmtCode(s, k, n).lines)
    ensures Reaches(w.lines, w.base, m, steps, m')
    ensures StmtEnded(w, j + |StmtCode(s, k, n).lines|, fn.params, Exec(w.p, fn, s, fr, g, fuel), |g|, m, m', steps, fuel)
    decreases fuel, 1, s, 1
  {
    hide Closed, Reaches, ProgramOk, Index, DistinctLabels, Present, AddressOfLine, Framed, ExprOk, Eval, ExprCode, LabelOffset, Outside, CodeAt, Boolean;
    var c := ExprCode(s.c, k, n + 1);
    var x := StmtCode(s.body, k + 1, c.n);
    var test := c.lines + [Ins(X.Jz(k, L(n + 1)))];
    var end := [LabelDef(L(n + 1))];
    assert StmtCode(s, k, n).lines == test + (x.lines + end);
    CodeAtSplit(w.lines, j, test, x.lines + end);
    CodeAtSplit(w.lines, j + |test|, x.lines, end);
    var t := j + |test| + |x.lines|;
    InFile(w.lines, t, end);
    steps, m' := ConditionRuns(w, j, fn, s.c, k, n + 1, n + 1, t, fr, g, fuel, m);
    var v := Eval(w.p, fn, s.c, fr, g, fuel);
    if v.Yields? && !Full(m') && IsTrue(v.w) {
      var m1 := m';
      var s2, m2 := StmtRuns(w, j + |test|, fn, s.body, k + 1, c.n, fr, v.g, fuel, m1);
      m' := m2;
      steps := Then(w, m, steps, m1, s2, m2);
      if Exec(w.p, fn, s.body, fr, v.g, fuel).Done? && !Full(m2) {
        OutsideTwice(m, m1, m2, fn.params, |g|);
        AtLabelLine(w.lines, w.base, t, m2);
      }
    }
  }

  lemma ExecIfElse(p: Program, fn: Fun, s: Stmt, fr: Frame, g: seq<Word>, fuel: nat)
    requires ProgramOk(p, |g|) && StmtOk(p, fn, |g|, s) && FrameOk(fn, fr) && s.IfElse?
    ensures ExprOk(p, fn, |g|, s.c) && Boolean(s.c) && StmtOk(p, fn, |g|, s.a) && StmtOk(p, fn, |g|, s.b)
    ensures var v := Eval(p, fn, s.c, fr, g, fuel);
            Exec(p, fn, s, fr, g, fuel) ==
              if !v.Yields? then Stops(v) else if IsTrue(v.w) then Exec(p, fn, s.a, fr, v.g, fuel) else Exec(p, fn, s.b, fr, v.g, fuel)
  {
    hide ProgramOk;
  }

  lemma {:induction false} IfElseRuns(w: World, j: nat, fn: Fun, s: Stmt, k: nat, n: nat, fr: Frame, g: seq<Word>, fuel: nat, m: State)
    returns (steps: nat, m': State)
    requires Loaded(w, |g|) && StmtOk(w.p, fn, |g|, s) && FrameOk(fn, fr) && s.IfElse?
    requires AtLine(w.lines, w.base, j, m) && Framed(m, fr, g)
    requires StmtCode(s, k, n).Piece? && CodeAt(w.lines, j, StmtCode(s, k, n).lines)
    ensures Reaches(w.lines, w.base, m, steps, m')
    ensures StmtEnded(w, j + |StmtCode(s, k, n).lines|, fn.params, Exec(w.p, fn, s, fr, g, fuel), |g|, m, m', steps, fuel)
    decreases fuel, 1, s, 1
  {
    hide Closed, Reaches, ProgramOk, Index, DistinctLabels, Present, AddressOfLine, Framed, ExprOk, Eval, ExprCode, LabelOffset, Outside, CodeAt, Boolean, Exec, StmtCode, StmtOk;
    ExecIfElse(w.p, fn, s, fr, g, fuel);
    CodeIfElse(s, k, n);
    var c := ExprCode(s.c, k, n);
    var x := StmtCode(s.a, k, c.n + 2);
    var y := StmtCode(s.b, Less(x.k), x.n);
    var test := c.lines + [Ins(X.Jz(k, L(c.n + 1)))];
    var mid := [Ins(X.Jmp(L(c.n + 2))), LabelDef(L(c.n + 1))];
    var end := [LabelDef(L(c.n + 2))];
    CodeAtSplit(w.lines, j, test, x.lines + (mid + (y.lines + end)));
    CodeAtSplit(w.lines, j + |test|, x.lines, mid + (y.lines + end));
    var t := j + |test| + |x.lines|;
    CodeAtSplit(w.lines, t, mid, y.lines + end);
    CodeAtSplit(w.lines, t, mid[..1], mid[1..]);
    CodeAtSplit(w.lines, t + 2, y.lines, end);
    InFile(w.lines, t, mid[..1]);
    InFile(w.lines, t + 1, mid[1..]);
    InFile(w.lines, t + 2 + |y.lines|, end);
    steps, m' := ConditionRuns(w, j, fn, s.c, k, n, c.n + 1, t + 1, fr, g, fuel, m);
    var v := Eval(w.p, fn, s.c, fr, g, fuel);
    if v.Yields? && !Full(m') {
      var m1 := m';
      if IsTrue(v.w) {
        var s2, m2 := StmtRuns(w, j + |test|, fn, s.a, k, c.n + 2, fr, v.g, fuel, m1);
        m' := m2;
        steps := Then(w, m, steps, m1, s2, m2);
        var o := Exec(w.p, fn, s.a, fr, v.g, fuel);
        if o.Done? && !Full(m2) {
          m' := JumpRuns(w.lines, w.base, t, L(c.n + 2), m2);
          steps := Then(w, m, steps, m2, 1, m');
          AtLabelLine(w.lines, w.base, t + 2 + |y.lines|, m');
          OutsideTwice(m, m1, m2, fn.params, |g|);
          SameFrame(m, m2, m', fn.params, |g|, o.fr, o.g);
        }
      } else {
        var s2, m2 := StmtRuns(w, t + 2, fn, s.b, Less(x.k), x.n, fr, v.g, fuel, m1);
        m' := m2;
        steps := Then(w, m, steps, m1, s2, m2);
        if Exec(w.p, fn, s.b, fr, v.g, fuel).Done? && !Full(m2) {
          OutsideTwice(m, m1, m2, fn.params, |g|);
          AtLabelLine(w.lines, w.base, t + 2 + |y.lines|, m2);
        }
      }
    }
  }

  lemma ExecWhile(p: Program, fn: Fun, s: Stmt, fr: Frame, g: seq<Word>, fuel: nat)
    requires ProgramOk(p, |g|) && StmtOk(p, fn, |g|, s) && FrameOk(fn, fr) && s.While?
    ensures ExprOk(p, fn, |g|, s.c) && Boolean(s.c) && StmtOk(p, fn, |g|, s.body)
    ensures var v := Eval(p, fn, s.c, fr, g, fuel);
            Exec(p, fn, s, fr, g, fuel) ==
              if !v.Yields? then Stops(v)
              else if !IsTrue(v.w) then Done(fr, v.g)
              else if fuel == 0 then Stops(Endless)
              else
                var o := Exec(p, fn, s.body, fr, v.g, fuel - 1);
                if o.Stops? then o else Exec(p, fn, s, o.fr, o.g, fuel - 1)
  {
    hide ProgramOk;
  }

  lemma {:induction false} WhileRuns(w: World, j: nat, fn: Fun, s: Stmt, k: nat, n: nat, fr: Frame, g: seq<Word>, fuel: nat, m: State)
    returns (steps: nat, m': State)
    requires Loaded(w, |g|) && StmtOk(w.p, fn, |g|, s) && FrameOk(fn, fr) && s.While?
    requires AtLine(w.lines, w.base, j, m) && Framed(m, fr, g)
    requires StmtCode(s, k, n).Piece? && CodeAt(w.lines, j, StmtCode(s, k, n).lines)
    ensures Reaches(w.lines, w.base, m, steps, m')
    ensures StmtEnded(w, j + |StmtCode(s, k, n).lines|, fn.params, Exec(w.p, fn, s, fr, g, fuel), |g|, m, m', steps, fuel)
    decreases fuel, 1, s, 1
  {
    hide Closed, Reaches, ProgramOk, Index, DistinctLabels, Present, AddressOfLine, Framed, ExprOk, Eval, ExprCode, LabelOffset, Outside, CodeAt, Boolean, Exec, StmtCode, StmtOk;
    ExecWhile(w.p, fn, s, fr, g, fuel);
    CodeWhile(s, k, n);
    var c := ExprCode(s.c, k, n + 2);
    var x := StmtCode(s.body, k, c.n);
    var head := [LabelDef(L(n + 1))];
    var test := c.lines + [Ins(X.Jz(k, L(n + 2)))];
    var end := [Ins(X.Jmp(L(n + 1))), LabelDef(L(n + 2))];
    CodeAtSplit(w.lines, j, head, test + (x.lines + end));
    CodeAtSplit(w.lines, j + 1, test, x.lines + end);
    CodeAtSplit(w.lines, j + 1 + |test|, x.lines, end);
    var t := j + 1 + |test| + |x.lines|;
    CodeAtSplit(w.lines, t, end[..1], end[1..]);
    InFile(w.lines, j, head);
    InFile(w.lines, t, end[..1]);
    InFile(w.lines, t + 1, end[1..]);
    AtLabelLine(w.lines, w.base, j, m);
    steps, m' := ConditionRuns(w, j + 1, fn, s.c, k, n + 2, n + 2, t + 1, fr, g, fuel, m);
    var v := Eval(w.p, fn, s.c, fr, g, fuel);
    if v.Yields? && !Full(m') && IsTrue(v.w) && fuel > 0 {
      var m1 := m';
      var s2, m2 := StmtRuns(w, j + 1 + |test|, fn, s.body, k, c.n, fr, v.g, fuel - 1, m1);
      m' := m2;
      steps := Then(w, m, steps, m1, s2, m2);
      var o := Exec(w.p, fn, s.body, fr, v.g, fuel - 1);
      if o.Done? && !Full(m2) {
        var m3 := JumpRuns(w.lines, w.base, t, L(n + 1), m2);
        AtLabelLine(w.lines, w.base, j, m3);
        OutsideTwice(m, m1, m2, fn.params, |g|);
        SameFrame(m, m2, m3, fn.params, |g|, o.fr, o.g);
        steps := Then(w, m, steps, m2, 1, m3);
        var s4, m4 := StmtRuns(w, j, fn, s, k, n, o.fr, o.g, fuel - 1, m3);
        m' := m4;
        steps := Then(w, m, steps, m3, s4, m4);
        if Exec(w.p, fn, s, o.fr, o.g, fuel - 1).Done? && !Full(m4) {
          OutsideTwice(m, m3, m4, fn.params, |g|);
        }
      }
    }
  }

  // ---- functions

  /** A function called at its label does what applying it means, and returns to ret. */
  lemma {:induction false} FunRuns(w: World, f: nat, ws: seq<Word>, g: seq<Word>, fuel: nat, m: State, ret: int) returns (steps: nat, m': State)
    requires Loaded(w, |g|) && f < |w.p| && |ws| == w.p[f].params
    requires AtLabel(w.lines, w.base, F(f), m) && Entered(m, ws, g, ret)
    ensures Reaches(w.lines, w.base, m, steps, m')
    ensures match Apply(w.p, f, ws, g, fuel)
            case Yields(v, g') => Full(m') || Left(m, m', |ws|, |g|, ret, v, g')
            case Fails => m'.status == X.Faulted
            case Endless => Unfinished(m', steps, fuel)
            case Open => Inside(m', steps, fuel) || LeftSomehow(m, m', |ws|, |g|, ret)
    decreases fuel, 2
  {
    hide Closed, Reaches, Index, DistinctLabels, AddressOfLine, Framed, ExprOk, StmtOk, Eval, Exec, ExprCode, StmtCode, LabelOffset, Outside,
         CodeAt, Boolean, Straight, Entered, Left, GlobalsAre, Keeps, Prologue, ReturnTail, HasFun;
    if Apply(w.p, f, ws, g, fuel).Open? {
      steps, m' := FunFrames(w, f, ws, g, fuel, m, ret);
      return;
    }
    var fn := w.p[f];
    assert Present(w, f);
    var j: nat, n: nat :| HasFun(w, f, j, n);
    FunParts(w, f, j, n);
    var x := StmtCode(fn.body, 0, n);
    var c := ExprCode(fn.ret, x.k, x.n);
    var j1 := j + 1;
    var j2 := j1 + |Prologue(fn.locals)|;
    var j3 := j2 + |x.lines|;
    var j4 := j3 + |c.lines|;
    AtLabelLine(w.lines, w.base, j, m);
    PrologueDoes(fn, ws, g, m, ret);
    var m1 := Straight(Prologue(fn.locals), m);
    steps := StraightRuns(w.lines, w.base, j1, Prologue(fn.locals), m);
    m' := m1;
    if !Full(m1) {
      var s2, m2 := StmtRuns(w, j2, fn, fn.body, 0, n, Fresh(fn, ws), g, fuel, m1);
      steps := Then(w, m, steps, m1, s2, m2);
      m' := m2;
      var o := Exec(w.p, fn, fn.body, Fresh(fn, ws), g, fuel);
      if o.Done? && !Full(m2) {
        var s3, m3 := ExprRuns(w, j3, fn, fn.ret, x.k, x.n, o.fr, o.g, fuel, m2);
        steps := Then(w, m, steps, m2, s3, m3);
        m' := m3;
        var r := Eval(w.p, fn, fn.ret, o.fr, o.g, fuel);
        if r.Yields? && !Full(m3) {
          ReadyToReturn(fn, m, m1, m2, m3, x.k, ws, g, o.fr, o.g, ret);
          var s4, m4 := ReturnRuns(w, j4, fn.locals, x.k, m3, Sp(m), ret, m.regs[X.BP]);
          steps := Then(w, m, steps, m3, s4, m4);
          m' := m4;
          HasLeft(m, m1, m2, m3, m4, x.k, ws, g, ret, r.w, r.g);
        }
      }
    }
  }
}
