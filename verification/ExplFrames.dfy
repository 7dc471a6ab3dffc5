/** The stack frame convention apart from meaning: whatever words compiled code finds in
    memory, also in a local variable that was never set, it faults, goes on, or ends with
    SP, BP and the caller's registers and stack as they were. */
module ExplFrames {
  import opened Words
  import X = Xsm
  import opened Assembly
  import opened Expl
  import opened ExplCode
  import opened ExplBlocks
  import opened ExplSteps

  // ---- what memory holds

  function WordIn(m: State, a: int): Word {
    if 0 <= a < |m.mem| then m.mem[a] else Int(0)
  }

  function GlobalsOf(m: State, globals: nat): (g: seq<Word>)
    ensures |g| == globals && forall i | 0 <= i < globals :: g[i] == WordIn(m, GLOBALS + i)
  {
    seq(globals, i => WordIn(m, GLOBALS + i))
  }

  /** The frame at BP, every local taken as it is found. */
  function FrameOf(fn: Fun, m: State): (fr: Frame)
    ensures FrameOk(fn, fr)
  {
    Frame(seq(fn.params, i => WordIn(m, Bp(m) - 3 - i)), seq(fn.locals, i => Set(WordIn(m, Bp(m) + 1 + i))))
  }

  /** There is a frame at BP. */
  ghost predicate Room(fn: Fun, globals: nat, m: State) {
    Framed(m, FrameOf(fn, m), GlobalsOf(m, globals))
  }

  lemma FramedHasRoom(fn: Fun, fr: Frame, g: seq<Word>, m: State)
    requires Framed(m, fr, g) && FrameOk(fn, fr)
    ensures Room(fn, |g|, m)
  {
  }

  lemma RoomStays(fn: Fun, globals: nat, m: State, m': State)
    requires Room(fn, globals, m) && m'.regs[X.BP] == m.regs[X.BP] && |m'.mem| == |m.mem| && StackIs(m', Sp(m')) && Sp(m') >= Sp(m)
    ensures Room(fn, globals, m')
  {
  }

  lemma RoomStack(fn: Fun, globals: nat, m: State)
    requires Room(fn, globals, m)
    ensures StackIs(m, Sp(m)) && GLOBALS + globals <= Sp(m)
  {
  }

  lemma GlobalsThere(m: State, globals: nat)
    requires GLOBALS + globals <= |m.mem|
    ensures GlobalsAre(m, GlobalsOf(m, globals))
  {
  }

  // ---- expressions

  /** A fault, or no end after as many steps as there is fuel. */
  ghost predicate Inside(m: State, steps: nat, fuel: nat) {
    m.status == X.Faulted || (m.status == X.Running && steps >= fuel)
  }

  ghost predicate Settled(w: World, j: nat, k: nat, globals: nat, m: State, m': State, steps: nat, fuel: nat) {
    Inside(m', steps, fuel) || (AtLine(w.lines, w.base, j, m') && Keeps(m, m', k, globals))
  }

  lemma ExprParts(p: Program, fn: Fun, globals: nat, e: Expr)
    requires ExprOk(p, fn, globals, e)
    ensures e.Arith? || e.Rel? || e.And? || e.Or? ==> ExprOk(p, fn, globals, e.left) && ExprOk(p, fn, globals, e.right)
    ensures e.Call? ==> e.f < |p| && |e.args| == p[e.f].params && forall a | a in e.args :: ExprOk(p, fn, globals, a)
  {
  }

  /** An expression's code, in any frame. */
  lemma {:induction false} ExprFrames(w: World, j: nat, fn: Fun, e: Expr, k: nat, n: nat, globals: nat, fuel: nat, m: State)
    returns (steps: nat, m': State)
    requires Loaded(w, globals) && ExprOk(w.p, fn, globals, e) && Room(fn, globals, m) && AtLine(w.lines, w.base, j, m)
    requires ExprCode(e, k, n).Code? && CodeAt(w.lines, j, ExprCode(e, k, n).lines)
    ensures k <= MAX_REG && Reaches(w.lines, w.base, m, steps, m')
    ensures Settled(w, j + |ExprCode(e, k, n).lines|, k, globals, m, m', steps, fuel)
    decreases fuel, 1, e, 1
  {
    hide Closed, Reaches, ProgramOk, Index, Framed, Settled, Eval, DistinctLabels, ExprOk, Room;
    if Leaf(e) {
      steps, m' := LeafFrames(w, j, fn, e, k, n, globals, fuel, m);
    } else if e.Arith? || e.Rel? {
      steps, m' := BinaryFrames(w, j, fn, e, k, n, globals, fuel, m);
    } else if e.And? || e.Or? {
      steps, m' := ShortCutFrames(w, j, fn, e, k, n, globals, fuel, m);
    } else if e.Not? {
      steps, m' := NotFrames(w, j, fn, e, k, n, globals, fuel, m);
    } else {
      steps, m' := CallFrames(w, j, fn, e, k, n, globals, fuel, m);
    }
  }

  lemma LeafFrames(w: World, j: nat, fn: Fun, e: Expr, k: nat, n: nat, globals: nat, fuel: nat, m: State)
    returns (steps: nat, m': State)
    requires Loaded(w, globals) && ExprOk(w.p, fn, globals, e) && Room(fn, globals, m) && AtLine(w.lines, w.base, j, m) && Leaf(e)
    requires ExprCode(e, k, n).Code? && CodeAt(w.lines, j, ExprCode(e, k, n).lines)
    ensures k <= MAX_REG && Reaches(w.lines, w.base, m, steps, m')
    ensures Settled(w, j + |ExprCode(e, k, n).lines|, k, globals, m, m', steps, fuel)
  {
    hide Closed, Reaches, ProgramOk, Index, Framed, DistinctLabels, ExprOk, Eval, Straight, ExprCode;
    var code := ExprCode(e, k, n).lines;
    LeafDoes(w.p, fn, e, k, n, FrameOf(fn, m), GlobalsOf(m, globals), fuel, m);
    steps := StraightRuns(w.lines, w.base, j, code, m);
    m' := Straight(code, m);
  }

  lemma {:induction false} BinaryFrames(w: World, j: nat, fn: Fun, e: Expr, k: nat, n: nat, globals: nat, fuel: nat, m: State)
    returns (steps: nat, m': State)
    requires Loaded(w, globals) && ExprOk(w.p, fn, globals, e) && Room(fn, globals, m) && AtLine(w.lines, w.base, j, m) && (e.Arith? || e.Rel?)
    requires ExprCode(e, k, n).Code? && CodeAt(w.lines, j, ExprCode(e, k, n).lines)
    ensures k <= MAX_REG && Reaches(w.lines, w.base, m, steps, m')
    ensures Settled(w, j + |ExprCode(e, k, n).lines|, k, globals, m, m', steps, fuel)
    decreases fuel, 1, e, 0
  {
    hide Closed, Reaches, ProgramOk, Index, DistinctLabels, AddressOfLine, Present, ExprOk, CodeAt, ExprCode, Do, OnlyRegs, LastOf, BinaryValue, Room, Keeps;
    ExprParts(w.p, fn, globals, e);
    BinaryCode(e, k, n);
    var a := ExprCode(e.left, k, n);
    var b := ExprCode(e.right, k + 1, a.n);
    var last := LastOf(e, k);
    CodeAtSplit(w.lines, j, a.lines, b.lines + [last]);
    CodeAtSplit(w.lines, j + |a.lines|, b.lines, [last]);
    steps, m' := ExprFrames(w, j, fn, e.left, k, n, globals, fuel, m);
    if !Inside(m', steps, fuel) {
      var m1 := m';
      KeepsRoom(fn, globals, m, m1, k);
      var s2, m2 := ExprFrames(w, j + |a.lines|, fn, e.right, k + 1, a.n, globals, fuel, m1);
      steps := Then(w, m, steps, m1, s2, m2);
      m' := m2;
      if !Inside(m2, s2, fuel) {
        Operates(e, k, m2.regs[k], m2.regs[k + 1], [], m2);
        OneRuns(w.lines, w.base, j + |a.lines| + |b.lines|, m2);
        m' := Do(last, m2);
        steps := Then(w, m, steps, m2, 1, m');
        KeepsTwice(m, m1, m2, k, k + 1, globals);
        if m'.status == X.Running {
          RegsKept(m, m2, m', k, k, k, globals);
        }
      }
    }
  }

  lemma KeepsRoom(fn: Fun, globals: nat, m: State, m': State, k: nat)
    requires Room(fn, globals, m) && Keeps(m, m', k, globals)
    ensures Room(fn, globals, m')
  {
    hide Framed;
    RoomStack(fn, globals, m);
    RoomStays(fn, globals, m, m');
  }

  lemma RegsKept(m0: State, m: State, m': State, k: nat, a: nat, b: nat, globals: nat)
    requires Keeps(m0, m, k, globals) && OnlyRegs(m, m', a, b) && k <= a < 20 && k <= b < 20
    ensures Keeps(m0, m', k, globals)
  {
  }

  lemma {:induction false} ShortCutFrames(w: World, j: nat, fn: Fun, e: Expr, k: nat, n: nat, globals: nat, fuel: nat, m: State)
    returns (steps: nat, m': State)
    requires Loaded(w, globals) && ExprOk(w.p, fn, globals, e) && Room(fn, globals, m) && AtLine(w.lines, w.base, j, m) && (e.And? || e.Or?)
    requires ExprCode(e, k, n).Code? && CodeAt(w.lines, j, ExprCode(e, k, n).lines)
    ensures k <= MAX_REG && Reaches(w.lines, w.base, m, steps, m')
    ensures Settled(w, j + |ExprCode(e, k, n).lines|, k, globals, m, m', steps, fuel)
    decreases fuel, 1, e, 0
  {
    hide Closed, Reaches, ProgramOk, Index, DistinctLabels, AddressOfLine, Present, SkipTest, SkipEnd, ExprOk, CodeAt, ExprCode, LabelOffset, Room, Keeps;
    ExprParts(w.p, fn, globals, e);
    ShortCutCode(e, k, n);
    var a := ExprCode(e.left, k, n);
    var x := a.n + 1;
    var b := ExprCode(e.right, k + 2, x);
    var j1 := j + |a.lines|;
    var t := j1 + 2 + |b.lines|;
    CodeAtSplit(w.lines, j, a.lines, SkipTest(e, k, x) + (b.lines + SkipEnd(e, k, x)));
    CodeAtSplit(w.lines, j1, SkipTest(e, k, x), b.lines + SkipEnd(e, k, x));
    CodeAtSplit(w.lines, j1 + 2, b.lines, SkipEnd(e, k, x));
    steps, m' := ExprFrames(w, j, fn, e.left, k, n, globals, fuel, m);
    if !Inside(m', steps, fuel) {
      var m1 := m';
      var m2 := TestRuns(w, j1, e, k, x, m1, t);
      steps := Then(w, m, steps, m1, 2, m2);
      RegsKept(m, m1, m2, k, k + 1, k + 1, globals);
      if X.Running == m2.status && Truth(m1.regs[k]) != e.And? {
        m' := SkipRuns(w, t + 1, e, k, x, m2);
        steps := Then(w, m, steps, m2, 1, m');
        RegsKept(m, m2, m', k, k, k, globals);
      } else {
        KeepsRoom(fn, globals, m, m2, k);
        var s3, m3 := ExprFrames(w, j1 + 2, fn, e.right, k + 2, x, globals, fuel, m2);
        steps := Then(w, m, steps, m2, s3, m3);
        m' := m3;
        if !Inside(m3, s3, fuel) {
          KeepsTwice(m, m2, m3, k, k + 2, globals);
          m' := CombineRuns(w, t, e, k, x, m3);
          steps := Then(w, m, steps, m3, 2, m');
          RegsKept(m, m3, m', k, k, k + 1, globals);
        }
      }
    }
  }

  lemma {:induction false} NotFrames(w: World, j: nat, fn: Fun, e: Expr, k: nat, n: nat, globals: nat, fuel: nat, m: State)
    returns (steps: nat, m': State)
    requires Loaded(w, globals) && ExprOk(w.p, fn, globals, e) && Room(fn, globals, m) && AtLine(w.lines, w.base, j, m) && e.Not?
    requires ExprCode(e, k, n).Code? && CodeAt(w.lines, j, ExprCode(e, k, n).lines)
    ensures k <= MAX_REG && Reaches(w.lines, w.base, m, steps, m')
    ensures Settled(w, j + |ExprCode(e, k, n).lines|, k, globals, m, m', steps, fuel)
    decreases fuel, 1, e, 0
  {
    hide Closed, Reaches, ProgramOk, Index, DistinctLabels, AddressOfLine, Present, CodeAt, ExprCode, ExprOk, Room, Keeps;
    NotShape(w.p, fn, e, k, n, globals);
    var a := ExprCode(e.e, k, n);
    CodeAtSplit(w.lines, j, a.lines, NotTail(k, a.n));
    steps, m' := ExprFrames(w, j, fn, e.e, k, n, globals, fuel, m);
    if !Inside(m', steps, fuel) {
      var m1 := m';
      var s2, m2 := NegateRuns(w, j + |a.lines|, k, a.n, m1);
      m' := m2;
      steps := Then(w, m, steps, m1, s2, m');
      RegsKept(m, m1, m', k, k, k, globals);
    }
  }

  // ---- calls

  /** The stack has grown by c words above what it was; below it only globals differ. */
  ghost predicate Grown(m: State, m': State, c: nat, globals: nat) {
    && m'.regs[X.BP] == m.regs[X.BP] && |m'.mem| == |m.mem| && StackIs(m', Sp(m) + c) && 0 <= Sp(m)
    && forall a | 0 <= a <= Sp(m) && a < |m.mem| && !IsGlobal(a, globals) :: m'.mem[a] == m.mem[a]
  }

  lemma GrownRoom(fn: Fun, globals: nat, m: State, m': State, c: nat)
    requires Room(fn, globals, m) && Grown(m, m', c, globals)
    ensures Room(fn, globals, m')
  {
    hide Framed;
    RoomStays(fn, globals, m, m');
  }

  lemma NothingGrown(fn: Fun, globals: nat, m: State)
    requires Room(fn, globals, m)
    ensures Grown(m, m, 0, globals)
  {
    RoomStack(fn, globals, m);
  }

  lemma {:induction false} ArgsFrames(w: World, j: nat, fn: Fun, args: seq<Expr>, n: nat, globals: nat, fuel: nat, m: State)
    returns (steps: nat, m': State)
    requires Loaded(w, globals) && (forall a | a in args :: ExprOk(w.p, fn, globals, a)) && Room(fn, globals, m) && AtLine(w.lines, w.base, j, m)
    requires ArgsCode(args, n).Code? && CodeAt(w.lines, j, ArgsCode(args, n).lines)
    ensures Reaches(w.lines, w.base, m, steps, m')
    ensures Inside(m', steps, fuel) || (AtLine(w.lines, w.base, j + |ArgsCode(args, n).lines|, m') && Grown(m, m', |args|, globals))
    decreases fuel, 1, args, 0
  {
    hide Closed, Reaches, ProgramOk, Index, DistinctLabels, Present, ExprCode, ExprOk, AddressOfLine, CodeAt, Room, Grown, Keeps;
    if args == [] {
      steps, m' := 0, m;
      ReachesNone(w.lines, w.base, m);
      NothingGrown(fn, globals, m);
    } else {
      var rest := ArgsCode(args[1..], n);
      var a := ExprCode(args[0], 0, rest.n);
      CodeAtSplit(w.lines, j, rest.lines, a.lines + [Ins(X.Push(0))]);
      steps, m' := ArgsFrames(w, j, fn, args[1..], n, globals, fuel, m);
      if !Inside(m', steps, fuel) {
        var m1 := m';
        CodeAtSplit(w.lines, j + |rest.lines|, a.lines, [Ins(X.Push(0))]);
        InFile(w.lines, j + |rest.lines| + |a.lines|, [Ins(X.Push(0))]);
        GrownRoom(fn, globals, m, m1, |args| - 1);
        var s2, m2 := ExprFrames(w, j + |rest.lines|, fn, args[0], 0, rest.n, globals, fuel, m1);
        steps := Then(w, m, steps, m1, s2, m2);
        m' := m2;
        if !Inside(m2, s2, fuel) {
          OneRuns(w.lines, w.base, j + |rest.lines| + |a.lines|, m2);
          m' := Do(Ins(X.Push(0)), m2);
          steps := Then(w, m, steps, m2, 1, m');
          OneGrown(m, m1, m2, |args| - 1, globals);
        }
      }
    }
  }

  lemma OneGrown(m: State, m1: State, m2: State, c: nat, globals: nat)
    requires Grown(m, m1, c, globals) && Keeps(m1, m2, 0, globals) && m2.status == X.Running
    ensures var m3 := Do(Ins(X.Push(0)), m2); m3.status == X.Faulted || (m3.status == X.Running && Grown(m, m3, c + 1, globals))
  {
  }

  lemma {:induction false} CallFrames(w: World, j: nat, fn: Fun, e: Expr, k: nat, n: nat, globals: nat, fuel: nat, m: State)
    returns (steps: nat, m': State)
    requires Loaded(w, globals) && ExprOk(w.p, fn, globals, e) && Room(fn, globals, m) && AtLine(w.lines, w.base, j, m) && e.Call?
    requires ExprCode(e, k, n).Code? && CodeAt(w.lines, j, ExprCode(e, k, n).lines)
    ensures k <= MAX_REG && Reaches(w.lines, w.base, m, steps, m')
    ensures Settled(w, j + |ExprCode(e, k, n).lines|, k, globals, m, m', steps, fuel)
    decreases fuel, 1, e, 0
  {
    hide Closed, Reaches, ProgramOk, Index, DistinctLabels, AddressOfLine, Present, CodeAt, LabelOffset, ArgsCode, SavedAt, Straight, Room, Keeps, Grown, ExprOk;
    ExprParts(w.p, fn, globals, e);
    var c := ArgsCode(e.args, n);
    CodeAtSplit(w.lines, j, Saves(k), c.lines + CallTail(e.f, |e.args|, k));
    CodeAtSplit(w.lines, j + k, c.lines, CallTail(e.f, |e.args|, k));
    RoomStack(fn, globals, m);
    SavesDo(k, m);
    var m1 := Straight(Saves(k), m);
    steps := StraightRuns(w.lines, w.base, j, Saves(k), m);
    m' := m1;
    if !Full(m1) {
      RoomStays(fn, globals, m, m1);
      var s2, m2 := ArgsFrames(w, j + k, fn, e.args, n, globals, fuel, m1);
      steps := Then(w, m, steps, m1, s2, m2);
      m' := m2;
      if !Inside(m2, s2, fuel) {
        var s3, m3 := EnterFrames(w, j + k + |c.lines|, e, k, globals, fuel, m, m1, m2);
        steps := Then(w, m, steps, m2, s3, m3);
        m' := m3;
      }
    }
  }

  function ArgsOf(m: State, args: nat): (ws: seq<Word>)
    ensures |ws| == args
  {
    seq(args, i => WordIn(m, Sp(m) - 2 - i))
  }

  /** As ExplSteps.Left, whatever the result and the globals are. */
  ghost predicate LeftSomehow(m: State, m': State, args: nat, globals: nat, ret: int) {
    Left(m, m', args, globals, ret, WordIn(m', Sp(m) - 1), GlobalsOf(m', globals))
  }

  lemma EntersSomehow(m: State, m1: State, m2: State, m3: State, m4: State, k: nat, c: nat, globals: nat, ret: int)
    requires StackIs(m, Sp(m)) && GLOBALS + globals <= Sp(m) && Pushed(m, m1, Sp(m)) && StackIs(m1, Sp(m) + k) && Grown(m1, m2, c, globals)
    requires Pushed(m2, m3, Sp(m2)) && StackIs(m3, Sp(m2) + 1)
    requires Pushed(m3, m4, Sp(m3)) && StackIs(m4, Sp(m3) + 1) && m4.mem[Sp(m4)] == Int(ret)
    ensures Entered(m4, ArgsOf(m4, c), GlobalsOf(m4, globals), ret) && Sp(m4) == Sp(m) + k + c + 2
    ensures m4.regs[X.BP] == m.regs[X.BP] && |m4.mem| == |m.mem|
    ensures forall a | 0 <= a <= Sp(m) + k && a < |m.mem| && !IsGlobal(a, globals) :: m4.mem[a] == m1.mem[a]
  {
  }

  lemma {:induction false} EnterFrames(w: World, j: nat, e: Expr, k: nat, globals: nat, fuel: nat, m: State, m1: State, m2: State)
    returns (steps: nat, m': State)
    requires Loaded(w, globals) && e.Call? && e.f < |w.p| && |e.args| == w.p[e.f].params && fuel > 0 && k <= MAX_REG
    requires StackIs(m, Sp(m)) && GLOBALS + globals <= Sp(m)
    requires Pushed(m, m1, Sp(m)) && StackIs(m1, Sp(m) + k) && SavedAt(m1.mem, Sp(m), k, m)
    requires AtLine(w.lines, w.base, j, m2) && Grown(m1, m2, |e.args|, globals) && CodeAt(w.lines, j, CallTail(e.f, |e.args|, k))
    ensures Reaches(w.lines, w.base, m2, steps, m')
    ensures Settled(w, j + |CallTail(e.f, |e.args|, k)|, k, globals, m, m', steps, fuel)
    decreases fuel, 0, e, 0
  {
    hide Closed, Reaches, ProgramOk, Index, DistinctLabels, Present, LabelOffset, Straight, GlobalsAre, AddressOfLine, SavedAt, Keeps, Left, Entered;
    var c := |e.args|;
    var un := [Ins(X.Pop(k))] + (Pops(Drop(k), c) + Restores(k));
    assert CallTail(e.f, c, k) == [Ins(X.Push(0))] + ([Ins(X.Call(F(e.f)))] + un);
    CodeAtSplit(w.lines, j, [Ins(X.Push(0))], [Ins(X.Call(F(e.f)))] + un);
    CodeAtSplit(w.lines, j + 1, [Ins(X.Call(F(e.f)))], un);
    OneRuns(w.lines, w.base, j, m2);
    var m3 := Do(Ins(X.Push(0)), m2);
    steps, m' := 1, m3;
    if m3.status == X.Running {
      var m4 := CallStep(w, j + 1, e.f, m3);
      steps := Then(w, m2, 1, m3, 1, m4);
      m' := m4;
      if !Full(m4) {
        var ret := AddressOfLine(w.lines, w.base, j + 2);
        PushStep(m2);
        EntersSomehow(m, m1, m2, m3, m4, k, c, globals, ret);
        var s5, m5 := FunFrames(w, e.f, ArgsOf(m4, c), GlobalsOf(m4, globals), fuel - 1, m4, ret);
        steps := Then(w, m2, steps, m4, s5, m5);
        m' := m5;
        if !Inside(m5, s5, fuel - 1) {
          assert AtLine(w.lines, w.base, j + 2, m5) by { LeftAt(m4, m5, c, globals, ret); assert j + 2 <= |w.lines|; }
          StillSaved(m, m1, m2, m3, m4, m5, k, ArgsOf(m4, c), GlobalsOf(m4, globals), ret, WordIn(m5, Sp(m4) - 1), GlobalsOf(m5, globals));
          UnwindDoes(k, c, Sp(m), m5, m);
          m' := Straight(un, m5);
          var s6 := StraightRuns(w.lines, w.base, j + 2, un, m5);
          steps := Then(w, m2, steps, m5, s6, m');
          CallKept(m, m5, m', k, globals, GlobalsOf(m5, globals));
        }
      }
    }
  }

  lemma LeftAt(m: State, m': State, args: nat, globals: nat, ret: int)
    requires LeftSomehow(m, m', args, globals, ret)
    ensures m'.status == X.Running && m'.ip == ret
  {
  }

  // ---- statements

  ghost predicate StmtSettled(w: World, j: nat, params: nat, globals: nat, m: State, m': State, steps: nat, fuel: nat) {
    Inside(m', steps, fuel) || (AtLine(w.lines, w.base, j, m') && Outside(m, m', params, globals))
  }

  lemma OutsideRoom(fn: Fun, globals: nat, m: State, m': State)
    requires Room(fn, globals, m) && Outside(m, m', fn.params, globals)
    ensures Room(fn, globals, m')
  {
    hide Framed;
    RoomStack(fn, globals, m);
    RoomStays(fn, globals, m, m');
  }

  lemma StmtParts(p: Program, fn: Fun, globals: nat, s: Stmt)
    requires StmtOk(p, fn, globals, s)
    ensures s.Seq? ==> StmtOk(p, fn, globals, s.first) && StmtOk(p, fn, globals, s.second)
    ensures Sets(s) ==> ExprOk(p, fn, globals, s.e) && VariableOk(s, fn, globals)
    ensures s.If? || s.IfElse? || s.While? ==> ExprOk(p, fn, globals, s.c)
    ensures s.If? || s.While? ==> StmtOk(p, fn, globals, s.body)
    ensures s.IfElse? ==> StmtOk(p, fn, globals, s.a) && StmtOk(p, fn, globals, s.b)
  {
  }

  lemma {:induction false} StmtFrames(w: World, j: nat, fn: Fun, s: Stmt, k: nat, n: nat, globals: nat, fuel: nat, m: State)
    returns (steps: nat, m': State)
    requires Loaded(w, globals) && StmtOk(w.p, fn, globals, s) && Room(fn, globals, m) && AtLine(w.lines, w.base, j, m)
    requires StmtCode(s, k, n).Piece? && CodeAt(w.lines, j, StmtCode(s, k, n).lines)
    ensures Reaches(w.lines, w.base, m, steps, m')
    ensures StmtSettled(w, j + |StmtCode(s, k, n).lines|, fn.params, globals, m, m', steps, fuel)
    decreases fuel, 1, s, 2
  {
    hide Closed, Reaches, ProgramOk, Index, DistinctLabels, Present, AddressOfLine, StmtOk, Room, CodeAt;
    match s {
      case Skip =>
        steps, m' := 0, m;
        ReachesNone(w.lines, w.base, m);
      case Seq(_, _) => steps, m' := SeqFrames(w, j, fn, s, k, n, globals, fuel, m);
      case SetLocal(_, _) => steps, m' := SetFrames(w, j, fn, s, k, n, globals, fuel, m);
      case SetParam(_, _) => steps, m' := SetFrames(w, j, fn, s, k, n, globals, fuel, m);
      case SetGlobal(_, _) => steps, m' := SetFrames(w, j, fn, s, k, n, globals, fuel, m);
      case If(_, _) => steps, m' := IfFrames(w, j, fn, s, k, n, globals, fuel, m);
      case IfElse(_, _, _) => steps, m' := IfElseFrames(w, j, fn, s, k, n, globals, fuel, m);
      case While(_, _) => steps, m' := WhileFrames(w, j, fn, s, k, n, globals, fuel, m);
    }
  }

  lemma {:induction false} SeqFrames(w: World, j: nat, fn: Fun, s: Stmt, k: nat, n: nat, globals: nat, fuel: nat, m: State)
    returns (steps: nat, m': State)
    requires Loaded(w, globals) && StmtOk(w.p, fn, globals, s) && Room(fn, globals, m) && AtLine(w.lines, w.base, j, m) && s.Seq?
    requires StmtCode(s, k, n).Piece? && CodeAt(w.lines, j, StmtCode(s, k, n).lines)
    ensures Reaches(w.lines, w.base, m, steps, m')
    ensures StmtSettled(w, j + |StmtCode(s, k, n).lines|, fn.params, globals, m, m', steps, fuel)
    decreases fuel, 1, s, 1
  {
    hide Closed, Reaches, ProgramOk, Index, DistinctLabels, Present, AddressOfLine, StmtOk, Room, CodeAt, Outside, StmtCode;
    StmtParts(w.p, fn, globals, s);
    SeqCode(s, k, n);
    var x := StmtCode(s.first, k, n);
    var y := StmtCode(s.second, x.k, x.n);
    CodeAtSplit(w.lines, j, x.lines, y.lines);
    steps, m' := StmtFrames(w, j, fn, s.first, k, n, globals, fuel, m);
    if !Inside(m', steps, fuel) {
      var m1 := m';
      OutsideRoom(fn, globals, m, m1);
      var s2, m2 := StmtFrames(w, j + |x.lines|, fn, s.second, x.k, x.n, globals, fuel, m1);
      m' := m2;
      steps := Then(w, m, steps, m1, s2, m2);
      if !Inside(m2, s2, fuel) {
        OutsideTwice(m, m1, m2, fn.params, globals);
      }
    }
  }

  lemma {:induction false} SetFrames(w: World, j: nat, fn: Fun, s: Stmt, k: nat, n: nat, globals: nat, fuel: nat, m: State)
    returns (steps: nat, m': State)
    requires Loaded(w, globals) && StmtOk(w.p, fn, globals, s) && Room(fn, globals, m) && AtLine(w.lines, w.base, j, m) && Sets(s)
    requires StmtCode(s, k, n).Piece? && CodeAt(w.lines, j, StmtCode(s, k, n).lines)
    ensures Reaches(w.lines, w.base, m, steps, m')
    ensures StmtSettled(w, j + |StmtCode(s, k, n).lines|, fn.params, globals, m, m', steps, fuel)
    decreases fuel, 1, s, 1
  {
    hide Closed, Reaches, ProgramOk, Index, DistinctLabels, Present, AddressOfLine, StmtOk, ExprOk, Framed, CodeAt, Outside, Straight, StmtCode, StmtTail, ExprCode, Keeps;
    StmtParts(w.p, fn, globals, s);
    SetCode(s, k, n);
    var c := ExprCode(s.e, k, n);
    var tail := StmtTail(s, k);
    CodeAtSplit(w.lines, j, c.lines, tail);
    steps, m' := ExprFrames(w, j, fn, s.e, k, n, globals, fuel, m);
    if !Inside(m', steps, fuel) {
      var m1 := m';
      KeepsRoom(fn, globals, m, m1, k);
      KeepsOutside(m, m1, k, FrameOf(fn, m), GlobalsOf(m, globals));
      TailDoes(fn, s, k, FrameOf(fn, m1), GlobalsOf(m1, globals), m1.regs[k], m1);
      m' := Straight(tail, m1);
      var s2 := StraightRuns(w.lines, w.base, j + |c.lines|, tail, m1);
      steps := Then(w, m, steps, m1, s2, m');
      OutsideTwice(m, m1, m', fn.params, globals);
    }
  }

  /** A condition and its jump to the label that stands at line t. */
  lemma {:induction false} ConditionFrames(w: World, j: nat, fn: Fun, c: Expr, k: nat, n: nat, x: nat, t: nat, globals: nat, fuel: nat, m: State)
    returns (steps: nat, m': State)
    requires Loaded(w, globals) && ExprOk(w.p, fn, globals, c) && Room(fn, globals, m) && AtLine(w.lines, w.base, j, m)
    requires ExprCode(c, k, n).Code? && k <= MAX_REG && CodeAt(w.lines, j, ExprCode(c, k, n).lines + [Ins(X.Jz(k, L(x)))])
    requires t < |w.lines| && w.lines[t] == LabelDef(L(x))
    ensures Reaches(w.lines, w.base, m, steps, m')
    ensures Inside(m', steps, fuel)
            || (steps >= 1 && Outside(m, m', fn.params, globals) && Room(fn, globals, m')
                && (AtLine(w.lines, w.base, j + |ExprCode(c, k, n).lines| + 1, m') || AtLine(w.lines, w.base, t + 1, m')))
    decreases fuel, 1, c, 2
  {
    hide Closed, Reaches, ProgramOk, Index, DistinctLabels, Present, AddressOfLine, ExprOk, ExprCode, LabelOffset, CodeAt, Outside, Keeps, Framed;
    var code := ExprCode(c, k, n).lines;
    CodeAtSplit(w.lines, j, code, [Ins(X.Jz(k, L(x)))]);
    steps, m' := ExprFrames(w, j, fn, c, k, n, globals, fuel, m);
    if !Inside(m', steps, fuel) {
      var m1 := m';
      m' := JzRuns(w.lines, w.base, j + |code|, k, L(x), m1);
      AtLabelLine(w.lines, w.base, t, m');
      steps := Then(w, m, steps, m1, 1, m');
      assert Keeps(m, m', k, globals) by { SameRegs(m, m1, m', k, globals); }
      KeepsRoom(fn, globals, m, m', k);
      KeepsOutside(m, m', k, FrameOf(fn, m), GlobalsOf(m, globals));
    }
  }

  lemma SameRegs(m: State, m1: State, m2: State, k: nat, globals: nat)
    requires Keeps(m, m1, k, globals) && m2.regs == m1.regs && m2.mem == m1.mem
    ensures Keeps(m, m2, k, globals)
  {
  }

  lemma SameOutside(m: State, m1: State, m2: State, params: nat, globals: nat)
    requires Outside(m, m1, params, globals) && m2.regs == m1.regs && m2.mem == m1.mem
    ensures Outside(m, m2, params, globals)
  {
  }

  lemma {:induction false} IfFrames(w: World, j: nat, fn: Fun, s: Stmt, k: nat, n: nat, globals: nat, fuel: nat, m: State)
    returns (steps: nat, m': State)
    requires Loaded(w, globals) && StmtOk(w.p, fn, globals, s) && Room(fn, globals, m) && AtLine(w.lines, w.base, j, m) && s.If?
    requires StmtCode(s, k, n).Piece? && CodeAt(w.lines, j, StmtCode(s, k, n).lines)
    ensures Reaches(w.lines, w.base, m, steps, m')
    ensures StmtSettled(w, j + |StmtCode(s, k, n).lines|, fn.params, globals, m, m', steps, fuel)
    decreases fuel, 1, s, 1
  {
    hide Closed, Reaches, ProgramOk, Index, DistinctLabels, Present, AddressOfLine, StmtOk, ExprOk, ExprCode, LabelOffset, CodeAt, Outside, Room;
    StmtParts(w.p, fn, globals, s);
    var c := ExprCode(s.c, k, n + 1);
    var x := StmtCode(s.body, k + 1, c.n);
    var test := c.lines + [Ins(X.Jz(k, L(n + 1)))];
    var end := [LabelDef(L(n + 1))];
    assert StmtCode(s, k, n).lines == test + (x.lines + end);
    CodeAtSplit(w.lines, j, test, x.lines + end);
    CodeAtSplit(w.lines, j + |test|, x.lines, end);
    var t := j + |test| + |x.lines|;
    InFile(w.lines, t, end);
    steps, m' := ConditionFrames(w, j, fn, s.c, k, n + 1, n + 1, t, globals, fuel, m);
    if !Inside(m', steps, fuel) && AtLine(w.lines, w.base, j + |test|, m') {
      var m1 := m';
      var s2, m2 := StmtFrames(w, j + |test|, fn, s.body, k + 1, c.n, globals, fuel, m1);
      m' := m2;
      steps := Then(w, m, steps, m1, s2, m2);
      if !Inside(m2, s2, fuel) {
        OutsideTwice(m, m1, m2, fn.params, globals);
        AtLabelLine(w.lines, w.base, t, m2);
      }
    }
  }

  lemma {:induction false} IfElseFrames(w: World, j: nat, fn: Fun, s: Stmt, k: nat, n: nat, globals: nat, fuel: nat, m: State)
    returns (steps: nat, m': State)
    requires Loaded(w, globals) && StmtOk(w.p, fn, globals, s) && Room(fn, globals, m) && AtLine(w.lines, w.base, j, m) && s.IfElse?
    requires StmtCode(s, k, n).Piece? && CodeAt(w.lines, j, StmtCode(s, k, n).lines)
    ensures Reaches(w.lines, w.base, m, steps, m')
    ensures StmtSettled(w, j + |StmtCode(s, k, n).lines|, fn.params, globals, m, m', steps, fuel)
    decreases fuel, 1, s, 1
  {
    hide Closed, Reaches, ProgramOk, Index, DistinctLabels, Present, AddressOfLine, StmtOk, ExprOk, ExprCode, LabelOffset, CodeAt, Outside, Room, StmtCode;
    StmtParts(w.p, fn, globals, s);
    CodeIfElse(s, k, n);
    var c := ExprCode(s.c, k, n);
    var x := StmtCode(s.a, k, c.n + 2);
    var y := StmtCode(s.b, Less(x.k), x.n);
    var test := c.lines + [Ins(X.Jz(k, L(c.n + 1)))];
    var mid := [Ins(X.Jmp(L(c.n + 2))), LabelDef(L(c.n + 1))];
    var end := [LabelDef(L(c.n + 2))];
    CodeAtSplit(w.lines, j, test, x.lines + (mid + (y.lines + end)));
    CodeAtSplit(w.lines, j + |test|, x.lines, mid + (y.lines + end));
    var t := j + |test| + |x.lines|;
    CodeAtSplit(w.lines, t, mid, y.lines + end);
    CodeAtSplit(w.lines, t, mid[..1], mid[1..]);
    CodeAtSplit(w.lines, t + 2, y.lines, end);
    InFile(w.lines, t, mid[..1]);
    InFile(w.lines, t + 1, mid[1..]);
    InFile(w.lines, t + 2 + |y.lines|, end);
    steps, m' := ConditionFrames(w, j, fn, s.c, k, n, c.n + 1, t + 1, globals, fuel, m);
    if !Inside(m', steps, fuel) {
      var m1 := m';
      if AtLine(w.lines, w.base, j + |test|, m1) {
        var s2, m2 := StmtFrames(w, j + |test|, fn, s.a, k, c.n + 2, globals, fuel, m1);
        m' := m2;
        steps := Then(w, m, steps, m1, s2, m2);
        if !Inside(m2, s2, fuel) {
          m' := JumpRuns(w.lines, w.base, t, L(c.n + 2), m2);
          steps := Then(w, m, steps, m2, 1, m');
          AtLabelLine(w.lines, w.base, t + 2 + |y.lines|, m');
          OutsideTwice(m, m1, m2, fn.params, globals);
          SameOutside(m, m2, m', fn.params, globals);
        }
      } else {
        var s2, m2 := StmtFrames(w, t + 2, fn, s.b, Less(x.k), x.n, globals, fuel, m1);
        m' := m2;
        steps := Then(w, m, steps, m1, s2, m2);
        if !Inside(m2, s2, fuel) {
          OutsideTwice(m, m1, m2, fn.params, globals);
          AtLabelLine(w.lines, w.base, t + 2 + |y.lines|, m2);
        }
      }
    }
  }

  lemma {:induction false} WhileFrames(w: World, j: nat, fn: Fun, s: Stmt, k: nat, n: nat, globals: nat, fuel: nat, m: State)
    returns (steps: nat, m': State)
    requires Loaded(w, globals) && StmtOk(w.p, fn, globals, s) && Room(fn, globals, m) && AtLine(w.lines, w.base, j, m) && s.While?
    requires StmtCode(s, k, n).Piece? && CodeAt(w.lines, j, StmtCode(s, k, n).lines)
    ensures Reaches(w.lines, w.base, m, steps, m')
    ensures StmtSettled(w, j + |StmtCode(s, k, n).lines|, fn.params, globals, m, m', steps, fuel)
    decreases fuel, 1, s, 1
  {
    hide Closed, Reaches, ProgramOk, Index, DistinctLabels, Present, AddressOfLine, StmtOk, ExprOk, ExprCode, LabelOffset, CodeAt, Outside, Room, StmtCode;
    StmtParts(w.p, fn, globals, s);
    CodeWhile(s, k, n);
    var c := ExprCode(s.c, k, n + 2);
    var x := StmtCode(s.body, k, c.n);
    var head := [LabelDef(L(n + 1))];
    var test := c.lines + [Ins(X.Jz(k, L(n + 2)))];
    var end := [Ins(X.Jmp(L(n + 1))), LabelDef(L(n + 2))];
    CodeAtSplit(w.lines, j, head, test + (x.lines + end));
    CodeAtSplit(w.lines, j + 1, test, x.lines + end);
    CodeAtSplit(w.lines, j + 1 + |test|, x.lines, end);
    var t := j + 1 + |test| + |x.lines|;
    CodeAtSplit(w.lines, t, end[..1], end[1..]);
    InFile(w.lines, j, head);
    InFile(w.lines, t, end[..1]);
    InFile(w.lines, t + 1, end[1..]);
    AtLabelLine(w.lines, w.base, j, m);
    steps, m' := ConditionFrames(w, j + 1, fn, s.c, k, n + 2, n + 2, t + 1, globals, fuel, m);
    if !Inside(m', steps, fuel) && AtLine(w.lines, w.base, j + 1 + |test|, m') {
      var m1 := m';
      var s2, m2 := StmtFrames(w, j + 1 + |test|, fn, s.body, k, c.n, globals, fuel - 1, m1);
      m' := m2;
      steps := Then(w, m, steps, m1, s2, m2);
      if !Inside(m2, s2, fuel - 1) {
        var m3 := JumpRuns(w.lines, w.base, t, L(n + 1), m2);
        AtLabelLine(w.lines, w.base, j, m3);
        OutsideTwice(m, m1, m2, fn.params, globals);
        SameOutside(m, m2, m3, fn.params, globals);
        OutsideRoom(fn, globals, m, m3);
        steps := Then(w, m, steps, m2, 1, m3);
        var s4, m4 := StmtFrames(w, j, fn, s, k, n, globals, fuel - 1, m3);
        m' := m4;
        steps := Then(w, m, steps, m3, s4, m4);
        if !Inside(m4, s4, fuel - 1) {
          OutsideTwice(m, m3, m4, fn.params, globals);
        }
      }
    }
  }

  // ---- functions

  /** Every function of a compiled program, entered with any words in memory, returns to
      its caller with BP and the caller's stack as they were, unless it faults or goes on. */
  lemma {:induction false} FunFrames(w: World, f: nat, ws: seq<Word>, g: seq<Word>, fuel: nat, m: State, ret: int) returns (steps: nat, m': State)
    requires Loaded(w, |g|) && f < |w.p| && |ws| == w.p[f].params
    requires AtLabel(w.lines, w.base, F(f), m) && Entered(m, ws, g, ret)
    ensures Reaches(w.lines, w.base, m, steps, m')
    ensures Inside(m', steps, fuel) || LeftSomehow(m, m', |ws|, |g|, ret)
    decreases fuel, 2
  {
    hide Closed, Reaches, Index, DistinctLabels, AddressOfLine, Framed, ExprOk, StmtOk, ExprCode, StmtCode, LabelOffset, Outside,
         CodeAt, Straight, Entered, Left, GlobalsAre, Keeps, Prologue, ReturnTail, HasFun, Room;
    var fn := w.p[f];
    assert Present(w, f);
    var j: nat, n: nat :| HasFun(w, f, j, n);
    FunParts(w, f, j, n);
    var x := StmtCode(fn.body, 0, n);
    var c := ExprCode(fn.ret, x.k, x.n);
    var j1 := j + 1;
    var j2 := j1 + |Prologue(fn.locals)|;
    var j3 := j2 + |x.lines|;
    AtLabelLine(w.lines, w.base, j, m);
    PrologueDoes(fn, ws, g, m, ret);
    var m1 := Straight(Prologue(fn.locals), m);
    steps := StraightRuns(w.lines, w.base, j1, Prologue(fn.locals), m);
    m' := m1;
    if !Full(m1) {
      FramedHasRoom(fn, Fresh(fn, ws), g, m1);
      var s2, m2 := StmtFrames(w, j2, fn, fn.body, 0, n, |g|, fuel, m1);
      steps := Then(w, m, steps, m1, s2, m2);
      m' := m2;
      if !Inside(m2, s2, fuel) {
        OutsideRoom(fn, |g|, m1, m2);
        var s3, m3 := ExprFrames(w, j3, fn, fn.ret, x.k, x.n, |g|, fuel, m2);
        steps := Then(w, m, steps, m2, s3, m3);
        m' := m3;
        if !Inside(m3, s3, fuel) {
          ReadyToReturn(fn, m, m1, m2, m3, x.k, ws, g, FrameOf(fn, m2), GlobalsOf(m2, |g|), ret);
          var s4, m4 := ReturnRuns(w, j3 + |c.lines|, fn.locals, x.k, m3, Sp(m), ret, m.regs[X.BP]);
          steps := Then(w, m, steps, m3, s4, m4);
          m' := m4;
          ReturnsSomehow(m, m1, m2, m3, m4, x.k, ws, g, ret);
        }
      }
    }
  }

  lemma ReturnsSomehow(m: State, m1: State, m2: State, m3: State, m4: State, k: nat, ws: seq<Word>, g: seq<Word>, ret: int)
    requires Entered(m, ws, g, ret) && k <= MAX_REG && Bp(m1) == Sp(m) + 1 && |m1.mem| == |m.mem| && StackIs(m1, Sp(m1)) && Sp(m1) >= Sp(m) + 1
    requires forall a | 0 <= a <= Sp(m) && a < |m.mem| :: m1.mem[a] == m.mem[a]
    requires Outside(m1, m2, |ws|, |g|) && Keeps(m2, m3, k, |g|)
    requires m4.status == X.Running && m4.ip == ret && StackIs(m4, Sp(m) - 1) && m4.regs[X.BP] == m.regs[X.BP]
    requires 0 <= Sp(m) - 1 < |m3.mem| && m4.mem == m3.mem[Sp(m) - 1 := m3.regs[k]]
    ensures LeftSomehow(m, m4, |ws|, |g|, ret)
  {
    hide Outside, Keeps, GlobalsAre;
    assert GlobalsAre(m3, GlobalsOf(m3, |g|)) && GlobalsOf(m4, |g|) == GlobalsOf(m3, |g|) by { GlobalsRead(m, m1, m2, m3, m4, k, ws, g, ret); }
    HasLeft(m, m1, m2, m3, m4, k, ws, g, ret, m3.regs[k], GlobalsOf(m3, |g|));
  }

  lemma GlobalsRead(m: State, m1: State, m2: State, m3: State, m4: State, k: nat, ws: seq<Word>, g: seq<Word>, ret: int)
    requires Entered(m, ws, g, ret) && |m1.mem| == |m.mem| && Outside(m1, m2, |ws|, |g|) && Keeps(m2, m3, k, |g|)
    requires k <= MAX_REG && 0 <= Sp(m) - 1 < |m3.mem| && m4.mem == m3.mem[Sp(m) - 1 := m3.regs[k]]
    ensures GlobalsAre(m3, GlobalsOf(m3, |g|)) && GlobalsOf(m4, |g|) == GlobalsOf(m3, |g|)
  {
  }
}
