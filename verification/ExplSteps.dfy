/** The steps that compiled ExpL code is made of, apart from what the code means: the
    layout of the frame, operators, tests, calls, stores and returns. */
module ExplSteps {
  import opened Words
  import X = Xsm
  import opened Assembly
  import opened Expl
  import opened ExplCode
  import opened ExplBlocks

  /** A program in a file of lines loaded at base. */
  datatype World = World(lines: seq<Line>, base: int, p: Program)

  /** The entry label of function f stands at line j, and its code follows. */
  ghost predicate HasFun(w: World, f: nat, j: nat, n: nat)
    requires f < |w.p|
  {
    FunCode(w.p, f, n).Code? && CodeAt(w.lines, j, FunCode(w.p, f, n).lines)
  }

  ghost predicate Present(w: World, f: nat)
    requires f < |w.p|
  {
    exists j: nat, n: nat :: HasFun(w, f, j, n)
  }

  ghost predicate Loaded(w: World, globals: nat) {
    && Closed(w.lines) && DistinctLabels(w.lines) && ProgramOk(w.p, globals)
    && forall f | 0 <= f < |w.p| :: Present(w, f)
  }

  predicate IsGlobal(a: int, globals: nat) {
    GLOBALS <= a < GLOBALS + globals
  }

  ghost predicate GlobalsAre(m: State, g: seq<Word>) {
    GLOBALS + |g| <= |m.mem| && forall i | 0 <= i < |g| :: m.mem[GLOBALS + i] == g[i]
  }

  /** The frame at BP: parameter i at BP - 2 - (i + 1), local i at BP + i + 1, everything
      above the globals and below SP. */
  ghost predicate Framed(m: State, fr: Frame, g: seq<Word>) {
    && m.regs[X.BP] == Int(Bp(m)) && StackIs(m, Sp(m)) && GlobalsAre(m, g)
    && GLOBALS + |g| <= Bp(m) - 2 - |fr.params| && Bp(m) + |fr.locals| <= Sp(m)
    && (forall i | 0 <= i < |fr.params| :: m.mem[Bp(m) - 3 - i] == fr.params[i])
    && (forall i | 0 <= i < |fr.locals| && fr.locals[i].Set? :: m.mem[Bp(m) + 1 + i] == fr.locals[i].w)
  }

  /** Registers below R_k, SP and BP, and the stack up to SP are as they were; the globals
      may have changed. */
  ghost predicate Keeps(m: State, m': State, k: nat, globals: nat) {
    && (forall r: X.Reg | r < k :: m'.regs[r] == m.regs[r]) && m'.regs[X.SP] == m.regs[X.SP] && m'.regs[X.BP] == m.regs[X.BP]
    && |m'.mem| == |m.mem|
    && forall a | 0 <= a <= Sp(m) && a < |m.mem| && !IsGlobal(a, globals) :: m'.mem[a] == m.mem[a]
  }

  /** Out of stack, or still running after as many steps as there was fuel. */
  ghost predicate Unfinished(m': State, steps: nat, fuel: nat) {
    Full(m') || (m'.status == X.Running && steps >= fuel)
  }

  lemma FrameStays(m: State, m': State, k: nat, fr: Frame, g: seq<Word>, g': seq<Word>)
    requires Framed(m, fr, g) && Keeps(m, m', k, |g|) && GlobalsAre(m', g') && |g'| == |g|
    ensures Framed(m', fr, g')
  {
  }

  /** One piece of a run after another. */
  lemma Then(w: World, m: State, a: nat, m1: State, b: nat, m2: State) returns (c: nat)
    requires Reaches(w.lines, w.base, m, a, m1) && Reaches(w.lines, w.base, m1, b, m2)
    ensures c == a + b && Reaches(w.lines, w.base, m, c, m2)
  {
    c := a + b;
    ReachesAdd(w.lines, w.base, m, a, m1, b, m2);
  }

  /** Registers from R_k on do not matter, nor do globals. */
  lemma ScratchKeeps(m0: State, m: State, m': State, k: nat, a: nat, b: nat, globals: nat, g: seq<Word>)
    requires Keeps(m0, m, k, globals) && OnlyRegs(m, m', a, b) && k <= a < 20 && k <= b < 20 && GlobalsAre(m, g)
    ensures Keeps(m0, m', k, globals) && GlobalsAre(m', g)
  {
  }

  lemma KeepsTwice(m: State, m1: State, m2: State, k: nat, l: nat, globals: nat)
    requires Keeps(m, m1, k, globals) && Keeps(m1, m2, l, globals) && k <= l
    ensures Keeps(m, m2, k, globals)
  {
  }

  // ---- leaves

  predicate Leaf(e: Expr) {
    e.Num? || e.Text? || e.Local? || e.Param? || e.Global?
  }

  /** The registers from R_k on may differ, R_k holds the value and nothing else differs. */
  ghost predicate Fetched(m: State, m': State, k: nat, r: Res, g: seq<Word>)
    requires k <= MAX_REG
  {
    && m'.status == X.Running && Keeps(m, m', k, |g|) && GlobalsAre(m', g)
    && (r.Yields? ==> r.g == g && m'.regs[k] == r.w) && r != Fails
  }

  lemma LeafDoes(p: Program, fn: Fun, e: Expr, k: nat, n: nat, fr: Frame, g: seq<Word>, fuel: nat, m: State)
    requires ProgramOk(p, |g|) && ExprOk(p, fn, |g|, e) && FrameOk(fn, fr) && Leaf(e)
    requires m.status == X.Running && Framed(m, fr, g) && ExprCode(e, k, n).Code?
    ensures AllPlain(ExprCode(e, k, n).lines)
    ensures Fetched(m, Straight(ExprCode(e, k, n).lines, m), k, Eval(p, fn, e, fr, g, fuel), g)
  {
    hide ProgramOk, Straight, LocalAddress, ParamAddress;
    var code := ExprCode(e, k, n).lines;
    if e.Local? || e.Param? {
      VariableDoes(p, fn, e, k, n, fr, g, fuel, m);
    } else {
      OneStraight(code[0], m);
      assert code == [code[0]];
    }
  }

  lemma VariableDoes(p: Program, fn: Fun, e: Expr, k: nat, n: nat, fr: Frame, g: seq<Word>, fuel: nat, m: State)
    requires ProgramOk(p, |g|) && ExprOk(p, fn, |g|, e) && FrameOk(fn, fr) && (e.Local? || e.Param?)
    requires m.status == X.Running && Framed(m, fr, g) && ExprCode(e, k, n).Code?
    ensures AllPlain(ExprCode(e, k, n).lines)
    ensures Fetched(m, Straight(ExprCode(e, k, n).lines, m), k, Eval(p, fn, e, fr, g, fuel), g)
  {
    hide ProgramOk, Straight, LocalAddress, ParamAddress, OnlyRegs, Do, Keeps, GlobalsAre;
    var addr := if e.Local? then LocalAddress(e.i, k + 1, k) else ParamAddress(e.i, k + 1, k + 2);
    var last := Mov(k, X.FromCell(X.ByReg(k + 1)));
    if e.Local? { LocalAddressDoes(e.i, k + 1, k, m); } else { ParamAddressDoes(e.i, k + 1, k + 2, m); }
    StraightAppend(addr, [last], m);
    OneStraight(last, Straight(addr, m));
    CellRead(m, Straight(addr, m), k, k + 1, if e.Local? then k else k + 2, if e.Local? then Bp(m) + e.i + 1 else Bp(m) - 2 - (e.i + 1), g);
  }

  /** R_k takes the word at the address in R_a. */
  lemma CellRead(m: State, m1: State, k: nat, a: nat, b: nat, x: int, g: seq<Word>)
    requires OnlyRegs(m, m1, a, b) && k <= a < 20 && k <= b < 20 && m1.regs[a] == Int(x) && 0 <= x < |m.mem| && GlobalsAre(m, g)
    ensures var m2 := Do(Mov(k, X.FromCell(X.ByReg(a))), m1);
            m2.status == X.Running && Keeps(m, m2, k, |g|) && GlobalsAre(m2, g) && m2.regs[k] == m.mem[x]
  {
  }

  // ---- expressions

  function BinaryValue(e: Expr, a: Word, b: Word, g: seq<Word>): Res
    requires e.Arith? || e.Rel?
  {
    if e.Rel? then Yields(RelValue(e.rop, a, b), g)
    else if !ArithDefined(e.aop, ToInt(b)) then Fails
    else Yields(Int(ArithValue(e.aop, ToInt(a), ToInt(b))), g)
  }

  function LastOf(e: Expr, k: nat): Line
    requires (e.Arith? || e.Rel?) && k + 1 <= MAX_REG
  {
    if e.Arith? then Op(e.aop, k, k + 1) else Ins(X.Logic(e.rop, k, k + 1))
  }

  lemma BinaryCode(e: Expr, k: nat, n: nat)
    requires ExprCode(e, k, n).Code? && (e.Arith? || e.Rel?)
    ensures var a := ExprCode(e.left, k, n);
            a.Code? && k + 1 <= MAX_REG
            && var b := ExprCode(e.right, k + 1, a.n); b.Code? && ExprCode(e, k, n).lines == a.lines + (b.lines + [LastOf(e, k)])
  {
  }

  /** The last instruction of a binary operator. */
  lemma KeptBelow(m: State, m': State, k: nat, globals: nat)
    requires Keeps(m, m', k + 1, globals) && k < 33
    ensures m'.regs[k] == m.regs[k]
  {
  }

  lemma Operates(e: Expr, k: nat, a: Word, b: Word, g: seq<Word>, m: State)
    requires (e.Arith? || e.Rel?) && k + 1 <= MAX_REG && m.status == X.Running && m.regs[k] == a && m.regs[k + 1] == b
    ensures Plain(LastOf(e, k))
    ensures var m', v := Do(LastOf(e, k), m), BinaryValue(e, a, b, g);
            if v.Yields? then v.g == g && OnlyRegs(m, m', k, k) && m'.status == X.Running && m'.regs[k] == v.w
            else v == Fails && m'.status == X.Faulted
  {
  }

  lemma ShortCutCode(e: Expr, k: nat, n: nat)
    requires ExprCode(e, k, n).Code? && (e.And? || e.Or?)
    ensures var a := ExprCode(e.left, k, n);
            a.Code? && k + 2 <= MAX_REG
            && var b := ExprCode(e.right, k + 2, a.n + 1);
               b.Code? && ExprCode(e, k, n).lines == a.lines + (SkipTest(e, k, a.n + 1) + (b.lines + SkipEnd(e, k, a.n + 1)))
  {
  }

  /** MOV R(k+1),1 and the jump over the right operand. */
  lemma TestRuns(w: World, j: nat, e: Expr, k: nat, x: nat, m: State, t: nat) returns (m': State)
    requires Closed(w.lines) && DistinctLabels(w.lines) && (e.And? || e.Or?) && k + 1 <= MAX_REG
    requires AtLine(w.lines, w.base, j, m) && CodeAt(w.lines, j, SkipTest(e, k, x))
    requires CodeAt(w.lines, t, SkipEnd(e, k, x)) && k + 2 <= MAX_REG
    ensures Reaches(w.lines, w.base, m, 2, m')
    ensures OnlyRegs(m, m', k + 1, k + 1) && m'.regs[k + 1] == Int(1)
    ensures AtLine(w.lines, w.base, if Truth(m.regs[k]) == e.And? then j + 2 else t + 1, m')
  {
    hide Closed, Reaches, Index, DistinctLabels;
    var first, second := SkipTest(e, k, x)[0], SkipTest(e, k, x)[1];
    CodeAtSplit(w.lines, j, [first], [second]);
    CodeAtSplit(w.lines, t, [SkipEnd(e, k, x)[0]], SkipEnd(e, k, x)[1..]);
    assert w.lines[t + 1] == LabelDef(L(x));
    OneRuns(w.lines, w.base, j, m);
    var m1 := Do(first, m);
    AtLabelLine(w.lines, w.base, t + 1, m1);
    if e.And? {
      m' := JzRuns(w.lines, w.base, j + 1, k, L(x), m1);
    } else {
      m' := JnzRuns(w.lines, w.base, j + 1, k, L(x), m1);
    }
    AtLabelLine(w.lines, w.base, t + 1, m');
    ReachesAdd(w.lines, w.base, m, 1, m1, 1, m');
  }

  lemma JnzRuns(lines: seq<Line>, base: int, k: nat, r: X.Reg, exit: nat, m: State) returns (m': State)
    requires Closed(lines) && AtLine(lines, base, k, m) && k < |lines| && lines[k] == Ins(X.Jnz(r, exit))
    ensures Reaches(lines, base, m, 1, m') && m'.regs == m.regs && m'.mem == m.mem
    ensures if r == X.IP then m'.status == X.Faulted
            else if Truth(m.regs[r]) then AtLabel(lines, base, exit, m') else AtLine(lines, base, k + 1, m')
  {
    ReachesOne(lines, base, k, m);
    m' := X.Exec(Patch(lines, base, lines[k].i), m.(ip := AddressOfLine(lines, base, k + 1)));
  }

  /** From the label on when the right operand is skipped: the left value times or plus one. */
  lemma SkipRuns(w: World, t: nat, e: Expr, k: nat, x: nat, m: State) returns (m': State)
    requires Closed(w.lines) && DistinctLabels(w.lines) && (e.And? || e.Or?) && k + 2 <= MAX_REG && t >= 1
    requires AtLine(w.lines, w.base, t, m) && CodeAt(w.lines, t - 1, SkipEnd(e, k, x)) && m.regs[k + 1] == Int(1)
    ensures Reaches(w.lines, w.base, m, 1, m') && AtLine(w.lines, w.base, t + 2, m') && OnlyRegs(m, m', k, k)
    ensures m'.regs[k] == Int(if e.And? then ToInt(m.regs[k]) else ToInt(m.regs[k]) + 1)
  {
    hide Closed, Reaches, Index, DistinctLabels;
    var end := SkipEnd(e, k, x);
    CodeAtSplit(w.lines, t - 1, end[..1], end[1..]);
    CodeAtSplit(w.lines, t, [end[1]], [end[2]]);
    AtLabelLine(w.lines, w.base, t, m);
    OneRuns(w.lines, w.base, t + 1, m);
    m' := Do(end[2], m);
  }

  /** The right value is moved next to the left one and combined with it. */
  lemma CombineRuns(w: World, t: nat, e: Expr, k: nat, x: nat, m: State) returns (m': State)
    requires Closed(w.lines) && DistinctLabels(w.lines) && (e.And? || e.Or?) && k + 2 <= MAX_REG
    requires AtLine(w.lines, w.base, t, m) && CodeAt(w.lines, t, SkipEnd(e, k, x))
    ensures Reaches(w.lines, w.base, m, 2, m') && AtLine(w.lines, w.base, t + 3, m') && OnlyRegs(m, m', k, k + 1)
    ensures m'.regs[k] == Int(if e.And? then ToInt(m.regs[k]) * ToInt(m.regs[k + 2]) else ToInt(m.regs[k + 2]) + ToInt(m.regs[k]))
  {
    hide Closed, Reaches, Index, DistinctLabels;
    var end := SkipEnd(e, k, x);
    CodeAtSplit(w.lines, t, [end[0]], end[1..]);
    CodeAtSplit(w.lines, t + 1, [end[1]], [end[2]]);
    OneRuns(w.lines, w.base, t, m);
    var m1 := Do(end[0], m);
    AtLabelLine(w.lines, w.base, t + 1, m1);
    OneRuns(w.lines, w.base, t + 2, m1);
    m' := Do(end[2], m1);
    ReachesAdd(w.lines, w.base, m, 1, m1, 1, m');
  }

  lemma NotShape(p: Program, fn: Fun, e: Expr, k: nat, n: nat, globals: nat)
    requires ExprOk(p, fn, globals, e) && e.Not? && ExprCode(e, k, n).Code?
    ensures k <= MAX_REG && ExprOk(p, fn, globals, e.e) && Boolean(e.e) && ExprCode(e.e, k, n).Code?
    ensures var a := ExprCode(e.e, k, n); ExprCode(e, k, n).lines == a.lines + NotTail(k, a.n)
  {
  }

  function NotTail(k: nat, n: nat): (r: seq<Line>)
    requires k <= MAX_REG
    ensures |r| == 6
  {
    [Ins(X.Jnz(k, L(n + 1))), Mov(k, X.FromNum(1)), Ins(X.Jmp(L(n + 2))), LabelDef(L(n + 1)), Mov(k, X.FromNum(0)), LabelDef(L(n + 2))]
  }

  lemma NegateRuns(w: World, j: nat, k: nat, n: nat, m: State) returns (steps: nat, m': State)
    requires Closed(w.lines) && DistinctLabels(w.lines) && k <= MAX_REG
    requires AtLine(w.lines, w.base, j, m) && CodeAt(w.lines, j, NotTail(k, n))
    ensures Reaches(w.lines, w.base, m, steps, m') && AtLine(w.lines, w.base, j + 6, m') && OnlyRegs(m, m', k, k)
    ensures m'.regs[k] == Bool(!Truth(m.regs[k]))
  {
    hide Closed, Reaches, Index, DistinctLabels;
    var t := NotTail(k, n);
    assert forall i | 0 <= i < 6 :: w.lines[j + i] == t[i];
    assert w.lines[j + 0] == t[0] && w.lines[j + 1] == t[1] && w.lines[j + 2] == t[2] && w.lines[j + 3] == t[3] && w.lines[j + 4] == t[4] && w.lines[j + 5] == t[5];
    var m1 := JnzRuns(w.lines, w.base, j, k, L(n + 1), m);
    AtLabelLine(w.lines, w.base, j + 3, m1);
    if !Truth(m.regs[k]) {
      OneRuns(w.lines, w.base, j + 1, m1);
      var m2 := Do(t[1], m1);
      m' := JumpRuns(w.lines, w.base, j + 2, L(n + 2), m2);
      AtLabelLine(w.lines, w.base, j + 5, m');
      steps := Then(w, m, 1, m1, 1, m2);
      steps := Then(w, m, steps, m2, 1, m');
    } else {
      OneRuns(w.lines, w.base, j + 4, m1);
      m' := Do(t[4], m1);
      AtLabelLine(w.lines, w.base, j + 5, m');
      steps := Then(w, m, 1, m1, 1, m');
    }
  }

  // ---- calls

  /** The arguments are on the stack, the first one on top. */
  ghost predicate ArgsOn(m: State, m': State, ws: seq<Word>, g: seq<Word>) {
    && m'.regs[X.BP] == m.regs[X.BP] && |m'.mem| == |m.mem| && StackIs(m', Sp(m) + |ws|) && GlobalsAre(m', g)
    && (forall a | 0 <= a <= Sp(m) && a < |m.mem| :: m'.mem[a] == m.mem[a])
    && 0 <= Sp(m) && forall i | 0 <= i < |ws| :: m'.mem[Sp(m') - i] == ws[i]
  }

  lemma NoArgsOn(m: State, fr: Frame, g: seq<Word>)
    requires Framed(m, fr, g)
    ensures ArgsOn(m, m, [], g)
  {
  }

  lemma LaterStill(m: State, steps: nat, later: nat, fuel: nat)
    requires steps <= later
    ensures Unfinished(m, steps, fuel) ==> Unfinished(m, later, fuel)
  {
  }

  lemma FullIsUnfinished(m: State, steps: nat, fuel: nat)
    ensures Full(m) ==> Unfinished(m, steps, fuel) && m.status == X.Faulted
  {
  }

  lemma ArgsFramed(m: State, m1: State, fr: Frame, ws: seq<Word>, g: seq<Word>)
    requires Framed(m, fr, g) && ArgsOn(m, m1, ws, g)
    ensures Framed(m1, fr, g)
  {
  }

  lemma PushedArg(m: State, m1: State, m2: State, m3: State, ws: seq<Word>, v: Word, g: seq<Word>)
    requires ArgsOn(m, m1, ws, g) && Keeps(m1, m2, 0, |g|) && GlobalsAre(m2, g) && m2.regs[0] == v && m2.status == X.Running
    requires m3 == Do(Ins(X.Push(0)), m2) && 0 <= Sp(m) && GLOBALS + |g| <= Sp(m)
    ensures Full(m3) || (m3.status == X.Running && ArgsOn(m, m3, [v] + ws, g))
  {
    if m3.status != X.Running {
      return;
    }
    forall a | 0 <= a <= Sp(m) && a < |m.mem| ensures m3.mem[a] == m.mem[a] {
      assert m2.mem[a] == m1.mem[a] by {
        if IsGlobal(a, |g|) { assert m2.mem[GLOBALS + (a - GLOBALS)] == g[a - GLOBALS] == m1.mem[GLOBALS + (a - GLOBALS)]; }
      }
    }
    forall i | 0 <= i < |ws| + 1 ensures m3.mem[Sp(m3) - i] == ([v] + ws)[i] {
      if i > 0 {
        assert m2.mem[Sp(m1) - (i - 1)] == m1.mem[Sp(m1) - (i - 1)] == ws[i - 1];
      }
    }
  }

  /** At a function's entry: the return address on top, the slot for the result below it,
      then the arguments. */
  ghost predicate Entered(m: State, ws: seq<Word>, g: seq<Word>, ret: int) {
    && m.status == X.Running && StackIs(m, Sp(m)) && GlobalsAre(m, g) && GLOBALS + |g| <= Sp(m) - 1 - |ws|
    && m.mem[Sp(m)] == Int(ret) && forall i | 0 <= i < |ws| :: m.mem[Sp(m) - 2 - i] == ws[i]
  }

  /** After the return: the result on top of the stack, BP as before, the stack below the
      arguments untouched. */
  ghost predicate Left(m: State, m': State, args: nat, globals: nat, ret: int, v: Word, g: seq<Word>) {
    && m'.status == X.Running && m'.ip == ret && StackIs(m', Sp(m) - 1) && m'.regs[X.BP] == m.regs[X.BP] && |m'.mem| == |m.mem|
    && m'.mem[Sp(m) - 1] == v && GlobalsAre(m', g)
    && forall a | 0 <= a <= Sp(m) - 2 - args && a < |m.mem| && !IsGlobal(a, globals) :: m'.mem[a] == m.mem[a]
  }

  lemma PushedFramed(m: State, m': State, fr: Frame, g: seq<Word>)
    requires Framed(m, fr, g) && Pushed(m, m', Sp(m)) && StackIs(m', Sp(m')) && Sp(m') >= Sp(m)
    ensures Framed(m', fr, g)
  {
  }

  lemma CallStep(w: World, j: nat, f: nat, m: State) returns (m': State)
    requires Closed(w.lines) && AtLine(w.lines, w.base, j, m) && j < |w.lines| && w.lines[j] == Ins(X.Call(F(f))) && StackIs(m, Sp(m))
    ensures Reaches(w.lines, w.base, m, 1, m')
    ensures Full(m') || (AtLabel(w.lines, w.base, F(f), m') && Pushed(m, m', Sp(m)) && StackIs(m', Sp(m) + 1)
                         && m'.mem[Sp(m')] == Int(AddressOfLine(w.lines, w.base, j + 1)))
  {
    hide Reaches;
    ReachesOne(w.lines, w.base, j, m);
    m' := X.Exec(Patch(w.lines, w.base, w.lines[j].i), m.(ip := AddressOfLine(w.lines, w.base, j + 1)));
  }

  /** Result into R_k, arguments off, saved registers back. */
  lemma UnwindDoes(k: nat, args: nat, s: int, m: State, was: State)
    requires k <= MAX_REG && m.status == X.Running && 0 <= s && StackIs(m, s + k + args + 1) && SavedAt(m.mem, s, k, was)
    ensures var ls := [Ins(X.Pop(k))] + (Pops(Drop(k), args) + Restores(k));
            AllPlain(ls)
            && var m' := Straight(ls, m);
               m'.status == X.Running && m'.mem == m.mem && StackIs(m', s) && m'.regs[X.BP] == m.regs[X.BP]
               && m'.regs[k] == m.mem[s + k + args + 1] && forall q: X.Reg | q < k :: m'.regs[q] == was.regs[q]
  {
    hide SavedAt, Straight;
    PlainStack();
    var pop := [Ins(X.Pop(k))];
    var m1 := Do(pop[0], m);
    assert Straight(pop, m) == m1 by { OneStraight(pop[0], m); }
    PopsDo(Drop(k), args, m1);
    var m2 := Straight(Pops(Drop(k), args), m1);
    RestoresDo(k, m2, was);
    StraightAppend(Pops(Drop(k), args), Restores(k), m1);
    StraightAppend(pop, Pops(Drop(k), args) + Restores(k), m);
  }

  lemma OneStraight(l: Line, m: State)
    requires Plain(l)
    ensures AllPlain([l]) && Straight([l], m) == Do(l, m)
  {
    assert [l][1..] == [];
  }

  lemma FullIsNoValue(m: State)
    requires Full(m)
    ensures m.status == X.Faulted
  {
  }

  lemma FramedStack(m: State, fr: Frame, g: seq<Word>)
    requires Framed(m, fr, g)
    ensures StackIs(m, Sp(m)) && GLOBALS + |g| <= Sp(m) && GlobalsAre(m, g)
  {
  }

  lemma ArgsStack(m: State, m1: State, m2: State, k: nat, ws: seq<Word>, g: seq<Word>)
    requires 0 <= Sp(m) && StackIs(m1, Sp(m) + k) && ArgsOn(m1, m2, ws, g)
    ensures StackIs(m2, Sp(m) + k + |ws|)
  {
  }

  lemma PushStep(m: State)
    requires m.status == X.Running && StackIs(m, Sp(m)) && Do(Ins(X.Push(0)), m).status == X.Running
    ensures var m' := Do(Ins(X.Push(0)), m); Pushed(m, m', Sp(m)) && StackIs(m', Sp(m) + 1)
  {
  }

  lemma ReadyToEnter(m: State, m1: State, m2: State, m3: State, m4: State, k: nat, ws: seq<Word>, g: seq<Word>, ret: int)
    requires StackIs(m, Sp(m)) && GLOBALS + |g| <= Sp(m) && Pushed(m, m1, Sp(m)) && StackIs(m1, Sp(m) + k) && ArgsOn(m1, m2, ws, g)
    requires Pushed(m2, m3, Sp(m2)) && StackIs(m3, Sp(m2) + 1)
    requires Pushed(m3, m4, Sp(m3)) && StackIs(m4, Sp(m3) + 1) && m4.mem[Sp(m4)] == Int(ret)
    ensures Entered(m4, ws, g, ret) && Sp(m4) == Sp(m) + k + |ws| + 2
    ensures m4.regs[X.BP] == m.regs[X.BP] && |m4.mem| == |m.mem|
    ensures forall a | 0 <= a <= Sp(m) + k && a < |m.mem| :: m4.mem[a] == m1.mem[a]
  {
    forall i | 0 <= i < |ws| ensures m4.mem[Sp(m4) - 2 - i] == ws[i] {
      assert m2.mem[Sp(m2) - i] == ws[i];
    }
  }

  lemma StillSaved(m: State, m1: State, m2: State, m3: State, m4: State, m5: State, k: nat, ws: seq<Word>, g: seq<Word>, ret: int, v: Word, g': seq<Word>)
    requires StackIs(m, Sp(m)) && GLOBALS + |g| <= Sp(m) && k <= MAX_REG && SavedAt(m1.mem, Sp(m), k, m) && Pushed(m, m1, Sp(m))
    requires Sp(m4) == Sp(m) + k + |ws| + 2 && Left(m4, m5, |ws|, |g|, ret, v, g') && StackIs(m4, Sp(m4))
    requires m4.regs[X.BP] == m.regs[X.BP] && |m4.mem| == |m.mem| && |m1.mem| == |m.mem|
    requires forall a | 0 <= a <= Sp(m) + k && a < |m.mem| && !IsGlobal(a, |g|) :: m4.mem[a] == m1.mem[a]
    ensures SavedAt(m5.mem, Sp(m), k, m) && StackIs(m5, Sp(m) + k + |ws| + 1) && m5.mem[Sp(m) + k + |ws| + 1] == v
    ensures m5.regs[X.BP] == m.regs[X.BP] && |m5.mem| == |m.mem| && GlobalsAre(m5, g')
    ensures forall a | 0 <= a <= Sp(m) && a < |m.mem| && !IsGlobal(a, |g|) :: m5.mem[a] == m.mem[a]
  {
    hide GlobalsAre;
    forall a | 0 <= a <= Sp(m) && a < |m.mem| && !IsGlobal(a, |g|) ensures m5.mem[a] == m.mem[a] {
      assert m5.mem[a] == m4.mem[a] == m1.mem[a];
    }
  }

  lemma CallKept(m: State, m5: State, m': State, k: nat, globals: nat, g': seq<Word>)
    requires StackIs(m, Sp(m)) && StackIs(m', Sp(m)) && m'.mem == m5.mem && m'.regs[X.BP] == m.regs[X.BP] && |m5.mem| == |m.mem|
    requires forall q: X.Reg | q < k :: m'.regs[q] == m.regs[q]
    requires forall a | 0 <= a <= Sp(m) && a < |m.mem| && !IsGlobal(a, globals) :: m5.mem[a] == m.mem[a]
    requires GlobalsAre(m5, g')
    ensures Keeps(m, m', k, globals) && GlobalsAre(m', g')
  {
  }

  // ---- statements

  /** Below the frame, and from the result slot to the saved BP, nothing changes but
      globals. */
  ghost predicate Outside(m: State, m': State, params: nat, globals: nat) {
    && |m'.mem| == |m.mem| && m'.regs[X.SP] == m.regs[X.SP] && m'.regs[X.BP] == m.regs[X.BP]
    && forall a | 0 <= a <= Bp(m) && a < |m.mem| && !IsGlobal(a, globals) && !(Bp(m) - 2 - params <= a <= Bp(m) - 3) :: m'.mem[a] == m.mem[a]
  }

  lemma OutsideTwice(m: State, m1: State, m2: State, params: nat, globals: nat)
    requires Outside(m, m1, params, globals) && Outside(m1, m2, params, globals)
    ensures Outside(m, m2, params, globals)
  {
  }

  lemma KeepsOutside(m: State, m': State, k: nat, fr: Frame, g: seq<Word>)
    requires Framed(m, fr, g) && Keeps(m, m', k, |g|)
    ensures Outside(m, m', |fr.params|, |g|)
  {
  }

  lemma SeqCode(s: Stmt, k: nat, n: nat)
    requires StmtCode(s, k, n).Piece? && s.Seq?
    ensures var x := StmtCode(s.first, k, n);
            x.Piece? && var y := StmtCode(s.second, x.k, x.n); y.Piece? && StmtCode(s, k, n).lines == x.lines + y.lines
  {
    hide ExprCode;
  }

  predicate Sets(s: Stmt) {
    s.SetLocal? || s.SetParam? || s.SetGlobal?
  }

  /** The lines after the value is in R_k. */
  function SetTail(s: Stmt, k: nat): seq<Line>
    requires Sets(s) && k + 2 <= MAX_REG
  {
    match s
    case SetLocal(i, _) => LocalAddress(i, k + 2, k + 1) + [Ins(X.Mov(X.ToCell(X.ByReg(k + 2)), X.FromReg(k)))]
    case SetParam(i, _) => ParamAddress(i, k + 1, k + 2) + [Ins(X.Mov(X.ToCell(X.ByReg(k + 1)), X.FromReg(k)))]
    case SetGlobal(i, _) => [Ins(X.Mov(X.ToCell(X.ByNum(GLOBALS + i)), X.FromReg(k)))]
  }

  lemma SetCode(s: Stmt, k: nat, n: nat)
    requires StmtCode(s, k, n).Piece? && Sets(s)
    ensures ExprCode(s.e, k, n).Code? && k <= MAX_REG && (s.SetGlobal? || k + 2 <= MAX_REG)
    ensures StmtCode(s, k, n).lines == ExprCode(s.e, k, n).lines + StmtTail(s, k)
  {
    hide ExprCode, LocalAddress, ParamAddress;
  }

  /** As SetTail; a store to a global needs no registers of its own. */
  function StmtTail(s: Stmt, k: nat): seq<Line>
    requires Sets(s) && k <= MAX_REG && (s.SetGlobal? || k + 2 <= MAX_REG)
  {
    if s.SetGlobal? then [Ins(X.Mov(X.ToCell(X.ByNum(GLOBALS + s.i)), X.FromReg(k)))] else SetTail(s, k)
  }

  /** The store reaches the variable's word and nothing else of the frame. */
  lemma TailDoes(fn: Fun, s: Stmt, k: nat, fr: Frame, g: seq<Word>, v: Word, m: State)
    requires Sets(s) && k <= MAX_REG && (s.SetGlobal? || k + 2 <= MAX_REG) && m.status == X.Running && Framed(m, fr, g) && m.regs[k] == v
    requires FrameOk(fn, fr) && VariableOk(s, fn, |g|)
    ensures AllPlain(StmtTail(s, k))
    ensures var m' := Straight(StmtTail(s, k), m);
            m'.status == X.Running && Outside(m, m', fn.params, |g|) && FramedAfter(s, m', fr, g, v)
  {
    hide Straight, Framed, Outside, LocalAddress, ParamAddress;
    FramedStack(m, fr, g);
    if s.SetGlobal? {
      OneStraight(StmtTail(s, k)[0], m);
      StoreDoes(s, fr, g, v, m, Straight(StmtTail(s, k), m), GLOBALS + s.i);
    } else {
      var addr := if s.SetLocal? then LocalAddress(s.i, k + 2, k + 1) else ParamAddress(s.i, k + 1, k + 2);
      if s.SetLocal? { LocalAddressDoes(s.i, k + 2, k + 1, m); } else { ParamAddressDoes(s.i, k + 1, k + 2, m); }
      var m1 := Straight(addr, m);
      var last := Ins(X.Mov(X.ToCell(X.ByReg(if s.SetLocal? then k + 2 else k + 1)), X.FromReg(k)));
      OneStraight(last, m1);
      StraightAppend(addr, [last], m);
      var a := if s.SetLocal? then Bp(m) + s.i + 1 else Bp(m) - 2 - (s.i + 1);
      VariableInMemory(s, fn, fr, g, m);
      StoreDoes(s, fr, g, v, m, Do(last, m1), a);
    }
  }

  predicate VariableOk(s: Stmt, fn: Fun, globals: nat)
    requires Sets(s)
  {
    match s
    case SetLocal(i, _) => i < fn.locals
    case SetParam(i, _) => i < fn.params
    case SetGlobal(i, _) => i < globals
  }

  ghost predicate FramedAfter(s: Stmt, m: State, fr: Frame, g: seq<Word>, v: Word)
    requires Sets(s) && VariableOk(s, Fun(|fr.params|, |fr.locals|, Skip, Num(0)), |g|)
  {
    match s
    case SetLocal(i, _) => Framed(m, fr.(locals := fr.locals[i := Set(v)]), g)
    case SetParam(i, _) => Framed(m, fr.(params := fr.params[i := v]), g)
    case SetGlobal(i, _) => Framed(m, fr, g[i := v])
  }

  lemma VariableInMemory(s: Stmt, fn: Fun, fr: Frame, g: seq<Word>, m: State)
    requires Sets(s) && FrameOk(fn, fr) && VariableOk(s, fn, |g|) && Framed(m, fr, g) && !s.SetGlobal?
    ensures 0 <= (if s.SetLocal? then Bp(m) + s.i + 1 else Bp(m) - 2 - (s.i + 1)) < |m.mem|
  {
  }

  lemma StoreDoes(s: Stmt, fr: Frame, g: seq<Word>, v: Word, m: State, m': State, a: int)
    requires Sets(s) && VariableOk(s, Fun(|fr.params|, |fr.locals|, Skip, Num(0)), |g|) && Framed(m, fr, g)
    requires a == match s case SetLocal(i, _) => Bp(m) + i + 1 case SetParam(i, _) => Bp(m) - 2 - (i + 1) case SetGlobal(i, _) => GLOBALS + i
    requires 0 <= a < |m.mem| && m'.mem == m.mem[a := v] && m'.regs[X.SP] == m.regs[X.SP] && m'.regs[X.BP] == m.regs[X.BP]
    ensures Outside(m, m', |fr.params|, |g|) && FramedAfter(s, m', fr, g, v)
  {
    match s {
      case SetLocal(i, _) => StoreLocal(i, fr, g, v, m, m');
      case SetParam(i, _) => StoreParam(i, fr, g, v, m, m');
      case SetGlobal(i, _) => StoreGlobal(i, fr, g, v, m, m');
    }
  }

  lemma StoreLocal(i: nat, fr: Frame, g: seq<Word>, v: Word, m: State, m': State)
    requires Framed(m, fr, g) && i < |fr.locals| && 0 <= Bp(m) + i + 1 < |m.mem|
    requires m'.mem == m.mem[Bp(m) + i + 1 := v] && m'.regs[X.SP] == m.regs[X.SP] && m'.regs[X.BP] == m.regs[X.BP]
    ensures Framed(m', fr.(locals := fr.locals[i := Set(v)]), g)
  {
  }

  lemma StoreParam(i: nat, fr: Frame, g: seq<Word>, v: Word, m: State, m': State)
    requires Framed(m, fr, g) && i < |fr.params| && 0 <= Bp(m) - 2 - (i + 1) < |m.mem|
    requires m'.mem == m.mem[Bp(m) - 2 - (i + 1) := v] && m'.regs[X.SP] == m.regs[X.SP] && m'.regs[X.BP] == m.regs[X.BP]
    ensures Framed(m', fr.(params := fr.params[i := v]), g)
  {
  }

  lemma StoreGlobal(i: nat, fr: Frame, g: seq<Word>, v: Word, m: State, m': State)
    requires Framed(m, fr, g) && i < |g| && GLOBALS + i < |m.mem|
    requires m'.mem == m.mem[GLOBALS + i := v] && m'.regs[X.SP] == m.regs[X.SP] && m'.regs[X.BP] == m.regs[X.BP]
    ensures Framed(m', fr, g[i := v])
  {
  }

  lemma SameKeeps(m: State, m1: State, m2: State, k: nat, globals: nat, g: seq<Word>)
    requires Keeps(m, m1, k, globals) && m2.regs == m1.regs && m2.mem == m1.mem && GlobalsAre(m1, g)
    ensures Keeps(m, m2, k, globals) && GlobalsAre(m2, g)
  {
  }

  lemma InFile(lines: seq<Line>, k: nat, c: seq<Line>)
    requires CodeAt(lines, k, c) && c != []
    ensures k < |lines| && lines[k] == c[0] && k + |c| <= |lines|
  {
    assert lines[k + 0] == c[0];
  }

  lemma CodeIfElse(s: Stmt, k: nat, n: nat)
    requires StmtCode(s, k, n).Piece? && s.IfElse?
    ensures var c := ExprCode(s.c, k, n);
            c.Code? && k <= MAX_REG
            && (var x := StmtCode(s.a, k, c.n + 2);
                x.Piece?
                && (var y := StmtCode(s.b, Less(x.k), x.n);
                    y.Piece? && StmtCode(s, k, n).n == y.n
                    && StmtCode(s, k, n).lines ==
                      c.lines + [Ins(X.Jz(k, L(c.n + 1)))]
                      + (x.lines + ([Ins(X.Jmp(L(c.n + 2))), LabelDef(L(c.n + 1))] + (y.lines + [LabelDef(L(c.n + 2))])))))
  {
    hide ExprCode, StmtCode;
    StmtCodeIfElse(s, k, n);
  }

  lemma SameFrame(m: State, m1: State, m2: State, params: nat, globals: nat, fr: Frame, g: seq<Word>)
    requires Outside(m, m1, params, globals) && Framed(m1, fr, g) && m2.regs == m1.regs && m2.mem == m1.mem
    ensures Outside(m, m2, params, globals) && Framed(m2, fr, g)
  {
  }

  lemma CodeWhile(s: Stmt, k: nat, n: nat)
    requires StmtCode(s, k, n).Piece? && s.While?
    ensures var c := ExprCode(s.c, k, n + 2);
            c.Code? && k <= MAX_REG
            && (var x := StmtCode(s.body, k, c.n);
                x.Piece?
                && StmtCode(s, k, n).lines ==
                  [LabelDef(L(n + 1))] + (c.lines + [Ins(X.Jz(k, L(n + 2)))] + (x.lines + [Ins(X.Jmp(L(n + 1))), LabelDef(L(n + 2))])))
  {
    hide ExprCode;
  }

  // ---- functions

  /** The frame is set up. */
  lemma PrologueDoes(fn: Fun, ws: seq<Word>, g: seq<Word>, m: State, ret: int)
    requires Entered(m, ws, g, ret) && |ws| == fn.params
    ensures AllPlain(Prologue(fn.locals))
    ensures var m' := Straight(Prologue(fn.locals), m);
            Full(m') || (m'.status == X.Running && Framed(m', Fresh(fn, ws), g) && m'.regs[X.BP] == Int(Sp(m) + 1) && StackIs(m', Sp(m) + 1 + fn.locals)
                         && |m'.mem| == |m.mem| && m'.mem[Sp(m) + 1] == m.regs[X.BP]
                         && forall a | 0 <= a <= Sp(m) && a < |m.mem| :: m'.mem[a] == m.mem[a])
  {
    hide Straight;
    var push, mov := Ins(X.Push(X.BP)), Mov(X.BP, X.FromReg(X.SP));
    var m1 := Do(push, m);
    var m2 := Do(mov, m1);
    OneStraight(push, m);
    OneStraight(mov, m1);
    StraightAppend([push], [mov], m);
    assert [push, mov] == [push] + [mov];
    PlainStack();
    StraightAppend([push, mov], Pushes(fn.locals), m);
    if m1.status == X.Running {
      PushesDo(fn.locals, m2);
    } else {
      StraightStops(Pushes(fn.locals), m2);
    }
  }

  /** The result stored at BP - 2, locals off, BP back, return. */
  lemma ReturnRuns(w: World, j: nat, locals: nat, k: nat, m: State, s: int, ret: int, bp: Word) returns (steps: nat, m': State)
    requires Closed(w.lines) && AtLine(w.lines, w.base, j, m) && k + 2 <= MAX_REG && CodeAt(w.lines, j, ReturnTail(locals, k))
    requires s >= 1 && m.regs[X.BP] == Int(s + 1) && StackIs(m, s + 1 + locals) && m.mem[s + 1] == bp && m.mem[s] == Int(ret)
    ensures Reaches(w.lines, w.base, m, steps, m')
    ensures m'.status == X.Running && m'.ip == ret && StackIs(m', s - 1) && m'.regs[X.BP] == bp && m'.mem == m.mem[s - 1 := m.regs[k]]
  {
    hide Closed, Reaches, Index, Straight;
    var addr := [Mov(k + 1, X.FromReg(X.BP)), Mov(k + 2, X.FromNum(2)), Op(Sub, k + 1, k + 2), Ins(X.Mov(X.ToCell(X.ByReg(k + 1)), X.FromReg(k)))];
    var down := [Mov(X.BP, X.FromCell(X.ByReg(X.SP))), Ins(X.Pop(0))];
    var plain := addr + (Pops(0, locals) + down);
    assert ReturnTail(locals, k) == plain + [Ins(X.Ret)];
    CodeAtSplit(w.lines, j, plain, [Ins(X.Ret)]);
    ResultDoes(k, m, s);
    var m1 := Straight(addr, m);
    PopsDo(0, locals, m1);
    var m2 := Straight(Pops(0, locals), m1);
    DownDoes(m2, s);
    var m3 := Straight(down, m2);
    StraightAppend(Pops(0, locals), down, m1);
    StraightAppend(addr, Pops(0, locals) + down, m);
    var s1 := StraightRuns(w.lines, w.base, j, plain, m);
    m' := RetRuns(w, j + |plain|, m3);
    steps := Then(w, m, s1, m3, 1, m');
  }

  lemma ResultDoes(k: nat, m: State, s: int)
    requires k + 2 <= MAX_REG && m.status == X.Running && m.regs[X.BP] == Int(s + 1) && s >= 1 && s - 1 < |m.mem|
    ensures var ls := [Mov(k + 1, X.FromReg(X.BP)), Mov(k + 2, X.FromNum(2)), Op(Sub, k + 1, k + 2), Ins(X.Mov(X.ToCell(X.ByReg(k + 1)), X.FromReg(k)))];
            AllPlain(ls)
            && var m' := Straight(ls, m);
               m'.status == X.Running && m'.mem == m.mem[s - 1 := m.regs[k]] && m'.regs[X.SP] == m.regs[X.SP] && m'.regs[X.BP] == m.regs[X.BP]
  {
    var ls := [Mov(k + 1, X.FromReg(X.BP)), Mov(k + 2, X.FromNum(2)), Op(Sub, k + 1, k + 2), Ins(X.Mov(X.ToCell(X.ByReg(k + 1)), X.FromReg(k)))];
    var m1 := Do(ls[0], m);
    var m2 := Do(ls[1], m1);
    var m3 := Do(ls[2], m2);
    var m4 := Do(ls[3], m3);
    assert ls[1..][0] == ls[1] && ls[1..][1..] == ls[2..] && ls[2..][0] == ls[2] && ls[2..][1..] == ls[3..];
    assert ls[3..][0] == ls[3] && ls[3..][1..] == [];
    assert Straight(ls, m) == Straight(ls[1..], m1) == Straight(ls[2..], m2) == Straight(ls[3..], m3) == m4;
  }

  lemma DownDoes(m: State, s: int)
    requires m.status == X.Running && StackIs(m, s + 1) && s >= 0
    ensures var ls := [Mov(X.BP, X.FromCell(X.ByReg(X.SP))), Ins(X.Pop(0))];
            AllPlain(ls)
            && var m' := Straight(ls, m);
               m'.status == X.Running && m'.mem == m.mem && StackIs(m', s) && m'.regs[X.BP] == m.mem[s + 1]
  {
    var ls := [Mov(X.BP, X.FromCell(X.ByReg(X.SP))), Ins(X.Pop(0))];
    var m1 := Do(ls[0], m);
    assert ls[1..][0] == ls[1] && ls[1..][1..] == [];
    assert Straight(ls, m) == Straight(ls[1..], m1) == Do(ls[1], m1);
  }

  lemma RetRuns(w: World, j: nat, m: State) returns (m': State)
    requires Closed(w.lines) && AtLine(w.lines, w.base, j, m) && j < |w.lines| && w.lines[j] == Ins(X.Ret) && StackIs(m, Sp(m)) && Sp(m) >= 1
    ensures Reaches(w.lines, w.base, m, 1, m') && m'.status == X.Running && m'.mem == m.mem && m'.ip == ToInt(m.mem[Sp(m)])
    ensures StackIs(m', Sp(m) - 1) && m'.regs[X.BP] == m.regs[X.BP]
  {
    hide Reaches;
    ReachesOne(w.lines, w.base, j, m);
    m' := X.Exec(Patch(w.lines, w.base, w.lines[j].i), m.(ip := AddressOfLine(w.lines, w.base, j + 1)));
  }

  /** Label, prologue, body, value and return follow each other. */
  lemma FunParts(w: World, f: nat, j: nat, n: nat)
    requires f < |w.p| && HasFun(w, f, j, n)
    ensures j < |w.lines| && w.lines[j] == LabelDef(F(f)) && StmtCode(w.p[f].body, 0, n).Piece?
    ensures var fn := w.p[f]; var x := StmtCode(fn.body, 0, n); var c := ExprCode(fn.ret, x.k, x.n);
            var j1 := j + 1; var j2 := j1 + |Prologue(fn.locals)|;
            && c.Code? && x.k + 2 <= MAX_REG
            && CodeAt(w.lines, j1, Prologue(fn.locals)) && CodeAt(w.lines, j2, x.lines)
            && CodeAt(w.lines, j2 + |x.lines|, c.lines) && CodeAt(w.lines, j2 + |x.lines| + |c.lines|, ReturnTail(fn.locals, x.k))
  {
    hide ExprCode, StmtCode, CodeAt, Prologue, ReturnTail;
    var fn := w.p[f];
    var x := StmtCode(fn.body, 0, n);
    var c := ExprCode(fn.ret, x.k, x.n);
    var tail := ReturnTail(fn.locals, x.k);
    var j1 := j + 1;
    var j2 := j1 + |Prologue(fn.locals)|;
    CodeAtSplit(w.lines, j, [LabelDef(F(f))], Prologue(fn.locals) + (x.lines + (c.lines + tail)));
    CodeAtSplit(w.lines, j1, Prologue(fn.locals), x.lines + (c.lines + tail));
    CodeAtSplit(w.lines, j2, x.lines, c.lines + tail);
    CodeAtSplit(w.lines, j2 + |x.lines|, c.lines, tail);
    InFile(w.lines, j, [LabelDef(F(f))]);
  }

  lemma ReadyToReturn(fn: Fun, m: State, m1: State, m2: State, m3: State, k: nat, ws: seq<Word>, g: seq<Word>, fr: Frame, g2: seq<Word>, ret: int)
    requires Entered(m, ws, g, ret) && |ws| == fn.params && FrameOk(fn, fr) && |g2| == |g|
    requires Bp(m1) == Sp(m) + 1 && m1.regs[X.BP] == Int(Bp(m1)) && StackIs(m1, Sp(m) + 1 + fn.locals) && |m1.mem| == |m.mem|
    requires m1.mem[Sp(m) + 1] == m.regs[X.BP] && forall a | 0 <= a <= Sp(m) && a < |m.mem| :: m1.mem[a] == m.mem[a]
    requires Outside(m1, m2, fn.params, |g|) && Keeps(m2, m3, k, |g|)
    ensures m3.regs[X.BP] == Int(Sp(m) + 1) && StackIs(m3, Sp(m) + 1 + fn.locals) && Sp(m) >= 1
    ensures m3.mem[Sp(m) + 1] == m.regs[X.BP] && m3.mem[Sp(m)] == Int(ret)
  {
    assert m2.mem[Sp(m) + 1] == m1.mem[Sp(m) + 1] && m2.mem[Sp(m)] == m1.mem[Sp(m)];
  }

  lemma HasLeft(m: State, m1: State, m2: State, m3: State, m4: State, k: nat, ws: seq<Word>, g: seq<Word>, ret: int, v: Word, g': seq<Word>)
    requires Entered(m, ws, g, ret) && |g'| == |g| && Bp(m1) == Sp(m) + 1 && |m1.mem| == |m.mem| && StackIs(m1, Sp(m1)) && Sp(m1) >= Sp(m) + 1
    requires forall a | 0 <= a <= Sp(m) && a < |m.mem| :: m1.mem[a] == m.mem[a]
    requires Outside(m1, m2, |ws|, |g|) && Keeps(m2, m3, k, |g|) && GlobalsAre(m3, g')
    requires m4.status == X.Running && m4.ip == ret && StackIs(m4, Sp(m) - 1) && m4.regs[X.BP] == m.regs[X.BP]
    requires 0 <= Sp(m) - 1 < |m3.mem| && m4.mem == m3.mem[Sp(m) - 1 := v]
    ensures Left(m, m4, |ws|, |g|, ret, v, g')
  {
    forall a | 0 <= a <= Sp(m) - 2 - |ws| && a < |m.mem| && !IsGlobal(a, |g|) ensures m4.mem[a] == m.mem[a] {
      assert m3.mem[a] == m2.mem[a] == m1.mem[a];
    }
  }
}
