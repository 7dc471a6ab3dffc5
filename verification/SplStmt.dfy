/** Compiled SPL statements do what the statements mean, in every outcome: normal
    end, break, continue, machine fault and endless looping. */
module SplStmt {
  import opened Wrappers
  import opened Words
  import opened Xsm
  import opened Spl
  import opened Assembly
  import opened SplCode
  import opened SplExpr

  /** The machine has the store's memory and its user and port registers. */
  ghost predicate Agrees(m: State, st: Store) {
    SameForUser(StoreOf(m), st)
  }

  /** A condition's code falls through when the condition is true and goes to
      `exit` when it is false. */
  ghost predicate Tested(lines: seq<Line>, base: int, k: nat, exit: nat, v: Fetched, st: Store, m': State) {
    match v
    case NoValue => m'.status == Faulted
    case Value(w) => Agrees(m', st) && if Truth(w) then AtLine(lines, base, k, m') else AtLabel(lines, base, exit, m')
  }

  lemma TestRuns(lines: seq<Line>, base: int, k: nat, c: Expr, exit: nat, st: Store, m: State)
    returns (steps: nat, m': State)
    requires Closed(lines) && AtLine(lines, base, k, m) && Agrees(m, st) && ExprOk(c)
    requires TestCode(c, exit).Some? && CodeAt(lines, k, TestCode(c, exit).value)
    ensures Reaches(lines, base, m, steps, m') && steps >= 1
    ensures Tested(lines, base, k + |TestCode(c, exit).value|, exit, Eval(c, st), st, m')
  {
    hide Reaches, Index, AddressOfLine, LabelOffset, Closed;
    EvalFrame(c, StoreOf(m), st);
    CodeAtSplit(lines, k, TestCode(c, exit).value, []);
    if c.RegE? {
      assert m.regs[c.r] == st.regs[c.r];
      steps := 1;
      m' := JzRuns(lines, base, k, c.r, exit, m);
    } else {
      var code, last := ExprCode(c, 0).value, [Ins(Jz(Scr(0), exit))];
      CodeAtSplit(lines, k, code, last);
      steps, m' := ExprRuns(lines, base, k, c, 0, m);
      if Eval(c, st).Value? {
        var m1 := m';
        m' := JzRuns(lines, base, k + |code|, Scr(0), exit, m1);
        ReachesAdd(lines, base, m, steps, m1, 1, m');
        steps := steps + 1;
      } else {
        ReachesMoved(lines, base, m, steps, m');
      }
    }
  }

  // ---- assignments ----

  function DestOf(t: Target): Dest {
    match t
    case RegT(r) => ToReg(r)
    case CellT(NumE(n)) => ToCell(ByNum(n))
    case CellT(RegE(r)) => ToCell(ByReg(r))
    case CellT(_) => ToCell(ByReg(Scr(0)))
  }

  /** The destination is fixed before the value is computed and not touched by it. */
  predicate DestOk(d: Dest, c: nat) {
    match d
    case ToReg(r) => UserReg(r)
    case ToCell(ByNum(_)) => true
    case ToCell(ByReg(r)) => r != IP && !(16 + c <= r < 20)
  }

  /** Where storing value w through d leaves things. */
  ghost predicate Stored(lines: seq<Line>, base: int, k: nat, d: Dest, w: Word, m: State, m': State) {
    match d
    case ToReg(r) =>
      if r == IP then m'.status == Faulted
      else AtLine(lines, base, k, m') && SameForUser(StoreOf(m'), Store(m.regs[r := w], m.mem))
    case ToCell(a) =>
      var x := AddressOf(a, m.regs, m.ip);
      if !InMemory(x, m.mem) then m'.status == Faulted
      else AtLine(lines, base, k, m') && SameForUser(StoreOf(m'), Store(m.regs, m.mem[x := w]))
  }

  lemma PutRuns(lines: seq<Line>, base: int, k: nat, d: Dest, src: Source, c: nat, m0: State, m: State) returns (m': State)
    requires Closed(lines) && AtLine(lines, base, k, m) && k < |lines| && lines[k] == Ins(Mov(d, src))
    requires c <= 4 && DestOk(d, c) && ScratchFrom(c, m0, m) && !src.FromCell?
    ensures Reaches(lines, base, m, 1, m')
    ensures match Fetch(src, m) case NoValue => m'.status == Faulted
                                case Value(w) => Stored(lines, base, k + 1, d, w, m0, m')
  {
    ReachesOne(lines, base, k, m);
    m' := Exec(Patch(lines, base, lines[k].i), m.(ip := AddressOfLine(lines, base, k + 1)));
    if d.ToCell? && d.a.ByReg? {
      assert m.regs[d.a.r] == m0.regs[d.a.r];
    }
  }

  /** Stores what an earlier stretch of code left in scratch register c. */
  lemma FinishStore(lines: seq<Line>, base: int, k: nat, d: Dest, c: nat, v: Fetched, m: State, a: nat, m1: State)
    returns (steps: nat, m': State)
    requires Closed(lines) && c <= 1 && DestOk(d, c) && k < |lines| && lines[k] == Ins(Mov(d, FromReg(Scr(c))))
    requires Reaches(lines, base, m, a, m1) && Computed(lines, base, k, c, v, m, m1)
    ensures Reaches(lines, base, m, steps, m')
    ensures match v case NoValue => m'.status == Faulted case Value(w) => Stored(lines, base, k + 1, d, w, m, m')
  {
    hide Reaches, Index, AddressOfLine, Closed, Stored;
    steps, m' := a, m1;
    if v.Value? {
      m' := PutRuns(lines, base, k, d, FromReg(Scr(c)), c, m, m1);
      ReachesAdd(lines, base, m, a, m1, 1, m');
      steps := a + 1;
    }
  }

  /** A value that goes through a scratch register on its way to the destination. */
  lemma StoreThroughScratch(lines: seq<Line>, base: int, k: nat, d: Dest, rhs: Rhs, c: nat, m: State)
    returns (steps: nat, m': State)
    requires Closed(lines) && AtLine(lines, base, k, m) && c <= 1 && DestOk(d, c)
    requires rhs.ExprR? ==> ExprOk(rhs.e) && !(rhs.e.RegE? || rhs.e.NumE? || rhs.e.TextE?)
    requires rhs.PortR? ==> IsPort(rhs.p)
    requires StoreCode(d, rhs, c).Some? && CodeAt(lines, k, StoreCode(d, rhs, c).value)
    ensures Reaches(lines, base, m, steps, m')
    ensures match RhsValue(rhs, StoreOf(m))
            case NoValue => m'.status == Faulted
            case Value(w) => Stored(lines, base, k + |StoreCode(d, rhs, c).value|, d, w, m, m')
  {
    hide Reaches, Index, AddressOfLine, DistinctLabels, Closed, Patch, BinValue, Eval, Stored;
    var code := StoreCode(d, rhs, c).value;
    var last := [Ins(Mov(d, FromReg(Scr(c))))];
    var first := if rhs.PortR? then [MoveLine(c, FromReg(rhs.p))] else ExprCode(rhs.e, c).value;
    assert code == first + last;
    CodeAtSplit(lines, k, first, last);
    var v, a, m1 := RhsValue(rhs, StoreOf(m)), 1, m;
    if rhs.PortR? {
      m1 := LoadStep(lines, base, k, c, FromReg(rhs.p), m);
    } else {
      a, m1 := ExprRuns(lines, base, k, rhs.e, c, m);
    }
    steps, m' := FinishStore(lines, base, k + |first|, d, c, v, m, a, m1);
  }

  lemma StoreRuns(lines: seq<Line>, base: int, k: nat, d: Dest, rhs: Rhs, c: nat, m: State)
    returns (steps: nat, m': State)
    requires Closed(lines) && AtLine(lines, base, k, m) && c <= 1 && DestOk(d, c)
    requires match rhs case ExprR(e) => ExprOk(e) case PortR(p) => IsPort(p)
    requires StoreCode(d, rhs, c).Some? && CodeAt(lines, k, StoreCode(d, rhs, c).value)
    ensures Reaches(lines, base, m, steps, m')
    ensures match RhsValue(rhs, StoreOf(m))
            case NoValue => m'.status == Faulted
            case Value(w) => Stored(lines, base, k + |StoreCode(d, rhs, c).value|, d, w, m, m')
  {
    var code := StoreCode(d, rhs, c).value;
    CodeAtSplit(lines, k, code, []);
    steps := 1;
    if rhs.ExprR? && rhs.e.RegE? {
      m' := PutRuns(lines, base, k, d, FromReg(rhs.e.r), c, m, m);
    } else if rhs.ExprR? && rhs.e.NumE? {
      m' := PutRuns(lines, base, k, d, FromNum(rhs.e.n), c, m, m);
    } else if rhs.ExprR? && rhs.e.TextE? {
      m' := PutRuns(lines, base, k, d, FromText(rhs.e.s), c, m, m);
    } else {
      steps, m' := StoreThroughScratch(lines, base, k, d, rhs, c, m);
    }
  }

  /** Where a statement's code leaves the machine, outcome by outcome. */
  ghost predicate Ends(lines: seq<Line>, base: int, k: nat, loops: seq<Loop>, f: nat, o: Outcome, steps: nat, m': State) {
    match o
    case Normal(st) => AtLine(lines, base, k, m') && Agrees(m', st)
    case Broke(st) => loops != [] && AtLabel(lines, base, loops[0].end, m') && Agrees(m', st)
    case Continued(st) => loops != [] && AtLabel(lines, base, loops[0].start, m') && Agrees(m', st)
    case Fault => m'.status == Faulted
    case Timeout => m'.status == Running && steps >= f
  }

  /** NODE_ASSIGN whose destination needs no code. */
  lemma DirectAssignRuns(lines: seq<Line>, base: int, k: nat, t: Target, rhs: Rhs, st: Store, m: State)
    returns (steps: nat, m': State)
    requires Closed(lines) && AtLine(lines, base, k, m) && Agrees(m, st) && StmtOk(Assign(t, rhs))
    requires t.RegT? || t.a.NumE? || t.a.RegE?
    requires AssignCode(t, rhs).Some? && CodeAt(lines, k, AssignCode(t, rhs).value)
    ensures Reaches(lines, base, m, steps, m')
    ensures Ends(lines, base, k + |AssignCode(t, rhs).value|, [], 0, Sem(0, Assign(t, rhs), st), steps, m')
  {
    if rhs.ExprR? {
      EvalFrame(rhs.e, StoreOf(m), st);
    }
    assert RhsValue(rhs, StoreOf(m)) == RhsValue(rhs, st);
    steps, m' := StoreRuns(lines, base, k, DestOf(t), rhs, 0, m);
    if t.CellT? && t.a.RegE? {
      assert m.regs[t.a.r] == st.regs[t.a.r];
    }
  }

  /** NODE_ASSIGN whose destination is a computed address. */
  lemma CellAssignRuns(lines: seq<Line>, base: int, k: nat, t: Target, rhs: Rhs, st: Store, m: State)
    returns (steps: nat, m': State)
    requires Closed(lines) && AtLine(lines, base, k, m) && Agrees(m, st) && StmtOk(Assign(t, rhs))
    requires t.CellT? && !(t.a.NumE? || t.a.RegE?)
    requires AssignCode(t, rhs).Some? && CodeAt(lines, k, AssignCode(t, rhs).value)
    ensures Reaches(lines, base, m, steps, m')
    ensures Ends(lines, base, k + |AssignCode(t, rhs).value|, [], 0, Sem(0, Assign(t, rhs), st), steps, m')
  {
    hide Reaches, Index, AddressOfLine, LabelOffset, Closed, Eval;
    var c, s := ExprCode(t.a, 0).value, StoreCode(ToCell(ByReg(Scr(0))), rhs, 1).value;
    assert AssignCode(t, rhs).value == c + s;
    CodeAtSplit(lines, k, c, s);
    EvalFrame(t.a, StoreOf(m), st);
    steps, m' := ExprRuns(lines, base, k, t.a, 0, m);
    if Eval(t.a, st).Value? {
      var m1 := m';
      if rhs.ExprR? {
        EvalFrame(rhs.e, StoreOf(m1), st);
      }
      assert RhsValue(rhs, StoreOf(m1)) == RhsValue(rhs, st);
      var b;
      b, m' := StoreRuns(lines, base, k + |c|, ToCell(ByReg(Scr(0))), rhs, 1, m1);
      ReachesAdd(lines, base, m, steps, m1, b, m');
      steps := steps + b;
    }
  }

  // ---- stack statements ----

  lemma PushRuns(lines: seq<Line>, base: int, k: nat, rs: seq<Reg>, st: Store, m: State) returns (steps: nat, m': State)
    requires Closed(lines) && AtLine(lines, base, k, m) && Agrees(m, st)
    requires (forall i | 0 <= i < |rs| :: UserReg(rs[i])) && CodeAt(lines, k, PushLines(rs))
    ensures Reaches(lines, base, m, steps, m')
    ensures Ends(lines, base, k + |rs|, [], 0, PushAll(rs, st), steps, m')
    decreases |rs|
  {
    steps, m' := 0, m;
    if rs != [] {
      assert PushLines(rs) == [Ins(Push(rs[0]))] + PushLines(rs[1..]);
      CodeAtSplit(lines, k, [Ins(Push(rs[0]))], PushLines(rs[1..]));
      ReachesOne(lines, base, k, m);
      m' := Exec(Patch(lines, base, lines[k].i), m.(ip := AddressOfLine(lines, base, k + 1)));
      steps := 1;
      assert m.regs[rs[0]] == st.regs[rs[0]] && m.regs[SP] == st.regs[SP];
      var o := PushOne(rs[0], st);
      if o.Normal? {
        var m1, b := m', 0;
        b, m' := PushRuns(lines, base, k + 1, rs[1..], o.st, m1);
        ReachesAdd(lines, base, m, 1, m1, b, m');
        steps := 1 + b;
      }
    }
  }

  lemma PopRuns(lines: seq<Line>, base: int, k: nat, rs: seq<Reg>, st: Store, m: State) returns (steps: nat, m': State)
    requires Closed(lines) && AtLine(lines, base, k, m) && Agrees(m, st)
    requires (forall i | 0 <= i < |rs| :: UserReg(rs[i])) && CodeAt(lines, k, PopLines(rs))
    ensures Reaches(lines, base, m, steps, m')
    ensures Ends(lines, base, k + |rs|, [], 0, PopAll(rs, st), steps, m')
    decreases |rs|
  {
    steps, m' := 0, m;
    if rs != [] {
      var last, rest := rs[|rs| - 1], rs[..|rs| - 1];
      assert PopLines(rs) == [Ins(Pop(last))] + PopLines(rest);
      CodeAtSplit(lines, k, [Ins(Pop(last))], PopLines(rest));
      ReachesOne(lines, base, k, m);
      m' := Exec(Patch(lines, base, lines[k].i), m.(ip := AddressOfLine(lines, base, k + 1)));
      steps := 1;
      assert m.regs[SP] == st.regs[SP];
      var o := PopOne(last, st);
      if o.Normal? {
        var m1, b := m', 0;
        b, m' := PopRuns(lines, base, k + 1, rest, o.st, m1);
        ReachesAdd(lines, base, m, 1, m1, b, m');
        steps := 1 + b;
      }
    }
  }

  // ---- all statements ----

  /** The pieces of an if statement's code. */
  lemma IfLayout(lines: seq<Line>, k: nat, s: Stmt, n: nat, loops: seq<Loop>)
    returns (test: nat, x: Emitted, y: Emitted)
    requires s.If? && StmtCode(s, n, loops).Some? && CodeAt(lines, k, StmtCode(s, n, loops).value.lines)
    ensures TestCode(s.c, n).Some? && CodeAt(lines, k, TestCode(s.c, n).value) && test == |TestCode(s.c, n).value|
    ensures StmtCode(s.thn, n + 2, loops) == Some(x) && CodeAt(lines, k + test, x.lines)
    ensures StmtCode(s.els, x.next, loops) == Some(y) && CodeAt(lines, k + test + |x.lines| + 2, y.lines)
    ensures |StmtCode(s, n, loops).value.lines| == test + |x.lines| + 2 + |y.lines| + 1
    ensures var k2 := k + test + |x.lines|; var k3 := k2 + 2 + |y.lines|;
            k3 < |lines| && lines[k2] == Ins(Jmp(n + 1)) && lines[k2 + 1] == LabelDef(n) && lines[k3] == LabelDef(n + 1)
  {
    hide Index, ExprCode, TestCode, AssignCode;
    var t := TestCode(s.c, n).value;
    x, test := StmtCode(s.thn, n + 2, loops).value, |t|;
    y := StmtCode(s.els, x.next, loops).value;
    var mid, fin := [Ins(Jmp(n + 1)), LabelDef(n)], [LabelDef(n + 1)];
    CodeAtSplit(lines, k, t, x.lines + (mid + (y.lines + fin)));
    CodeAtSplit(lines, k + test, x.lines, mid + (y.lines + fin));
    CodeAtSplit(lines, k + test + |x.lines|, mid, y.lines + fin);
    CodeAtSplit(lines, k + test + |x.lines| + 2, y.lines, fin);
    assert lines[k + test + |x.lines| + 1] == mid[1];
  }

  /** The pieces of a loop's code. */
  lemma WhileLayout(lines: seq<Line>, k: nat, s: Stmt, n: nat, loops: seq<Loop>) returns (test: nat, x: Emitted)
    requires s.While? && StmtCode(s, n, loops).Some? && CodeAt(lines, k, StmtCode(s, n, loops).value.lines)
    ensures TestCode(s.c, n + 1).Some? && CodeAt(lines, k + 1, TestCode(s.c, n + 1).value)
    ensures test == |TestCode(s.c, n + 1).value|
    ensures StmtCode(s.body, n + 2, [Loop(n, n + 1)] + loops) == Some(x) && CodeAt(lines, k + 1 + test, x.lines)
    ensures |StmtCode(s, n, loops).value.lines| == 1 + test + |x.lines| + 2
    ensures var k2 := k + 1 + test + |x.lines|;
            k2 + 1 < |lines| && lines[k] == LabelDef(n) && lines[k2] == Ins(Jmp(n)) && lines[k2 + 1] == LabelDef(n + 1)
  {
    hide Index, ExprCode, TestCode, AssignCode;
    var t := TestCode(s.c, n + 1).value;
    x, test := StmtCode(s.body, n + 2, [Loop(n, n + 1)] + loops).value, |t|;
    var fin := [Ins(Jmp(n)), LabelDef(n + 1)];
    CodeAtSplit(lines, k, [LabelDef(n)], t + (x.lines + fin));
    CodeAtSplit(lines, k + 1, t, x.lines + fin);
    CodeAtSplit(lines, k + 1 + test, x.lines, fin);
    assert lines[k + 1 + test + |x.lines| + 1] == fin[1];
  }

  /** The simulation: from the first line of a statement's code the machine gets
      where the statement's meaning says it gets. */
  lemma {:induction false} StmtRuns(lines: seq<Line>, base: int, k: nat, s: Stmt, n: nat, loops: seq<Loop>, f: nat, st: Store, m: State)
    returns (steps: nat, m': State)
    requires Closed(lines) && DistinctLabels(lines) && StmtOk(s)
    requires AtLine(lines, base, k, m) && Agrees(m, st)
    requires StmtCode(s, n, loops).Some? && CodeAt(lines, k, StmtCode(s, n, loops).value.lines)
    ensures Reaches(lines, base, m, steps, m')
    ensures Ends(lines, base, k + |StmtCode(s, n, loops).value.lines|, loops, f, Sem(f, s, st), steps, m')
    decreases f, s, 1
  {
    hide Reaches, Index, AddressOfLine, LabelOffset, DistinctLabels, Closed, ExprCode, Eval, SameForUser;
    match s {
      case Skip => steps, m' := 0, m; ReachesNone(lines, base, m);
      case Seq(_, _) => steps, m' := SeqRuns(lines, base, k, s, n, loops, f, st, m);
      case Assign(t, rhs) =>
        if t.RegT? || t.a.NumE? || t.a.RegE? {
          steps, m' := DirectAssignRuns(lines, base, k, t, rhs, st, m);
        } else {
          steps, m' := CellAssignRuns(lines, base, k, t, rhs, st, m);
        }
      case If(_, _, _) => steps, m' := IfRuns(lines, base, k, s, n, loops, f, st, m);
      case While(_, _) =>
        if f == 0 {
          steps, m' := 0, m;
          ReachesNone(lines, base, m);
        } else {
          steps, m' := WhileRuns(lines, base, k, s, n, loops, f, st, m);
        }
      case Break =>
        CodeAtSplit(lines, k, StmtCode(s, n, loops).value.lines, []);
        steps := 1; m' := JumpRuns(lines, base, k, loops[0].end, m);
      case Continue =>
        CodeAtSplit(lines, k, StmtCode(s, n, loops).value.lines, []);
        steps := 1; m' := JumpRuns(lines, base, k, loops[0].start, m);
      case MultiPush(rs) => steps, m' := PushRuns(lines, base, k, rs, st, m);
      case MultiPop(rs) => steps, m' := PopRuns(lines, base, k, rs, st, m);
    }
  }

  lemma {:induction false} SeqRuns(lines: seq<Line>, base: int, k: nat, s: Stmt, n: nat, loops: seq<Loop>, f: nat, st: Store, m: State)
    returns (steps: nat, m': State)
    requires Closed(lines) && DistinctLabels(lines) && StmtOk(s) && s.Seq?
    requires AtLine(lines, base, k, m) && Agrees(m, st)
    requires StmtCode(s, n, loops).Some? && CodeAt(lines, k, StmtCode(s, n, loops).value.lines)
    ensures Reaches(lines, base, m, steps, m')
    ensures Ends(lines, base, k + |StmtCode(s, n, loops).value.lines|, loops, f, Sem(f, s, st), steps, m')
    decreases f, s, 0
  {
    hide Reaches, Index, AddressOfLine, LabelOffset, DistinctLabels, Closed, SameForUser, ExprCode, Eval, Truth, TestCode, AssignCode, AssignTo, RhsValue;
    var x := StmtCode(s.s1, n, loops).value;
    var y := StmtCode(s.s2, x.next, loops).value;
    CodeAtSplit(lines, k, x.lines, y.lines);
    steps, m' := StmtRuns(lines, base, k, s.s1, n, loops, f, st, m);
    var o := Sem(f, s.s1, st);
    if o.Normal? {
      var m1, c := m', 0;
      c, m' := StmtRuns(lines, base, k + |x.lines|, s.s2, x.next, loops, f, o.st, m1);
      ReachesAdd(lines, base, m, steps, m1, c, m');
      steps := steps + c;
    }
  }

  lemma {:induction false} IfRuns(lines: seq<Line>, base: int, k: nat, s: Stmt, n: nat, loops: seq<Loop>, f: nat, st: Store, m: State)
    returns (steps: nat, m': State)
    requires Closed(lines) && DistinctLabels(lines) && StmtOk(s) && s.If?
    requires AtLine(lines, base, k, m) && Agrees(m, st)
    requires StmtCode(s, n, loops).Some? && CodeAt(lines, k, StmtCode(s, n, loops).value.lines)
    ensures Reaches(lines, base, m, steps, m')
    ensures Ends(lines, base, k + |StmtCode(s, n, loops).value.lines|, loops, f, Sem(f, s, st), steps, m')
    decreases f, s, 0
  {
    hide Reaches, Index, AddressOfLine, LabelOffset, DistinctLabels, Closed, SameForUser, StmtCode, TestCode, Eval, Truth, CodeAt;
    var test, x, y := IfLayout(lines, k, s, n, loops);
    var k2 := k + test + |x.lines|;
    var k3 := k2 + 2 + |y.lines|;
    steps, m' := TestRuns(lines, base, k, s.c, n, st, m);
    var v := Eval(s.c, st);
    if v.Value? {
      var m1, b := m', 0;
      if Truth(v.w) {
        b, m' := StmtRuns(lines, base, k + test, s.thn, n + 2, loops, f, st, m1);
        ReachesAdd(lines, base, m, steps, m1, b, m');
        steps := steps + b;
        if Sem(f, s.thn, st).Normal? {
          var m2 := m';
          m' := JumpRuns(lines, base, k2, n + 1, m2);
          ReachesAdd(lines, base, m, steps, m2, 1, m');
          steps := steps + 1;
        }
      } else {
        AtLabelLine(lines, base, k2 + 1, m1);
        b, m' := StmtRuns(lines, base, k2 + 2, s.els, x.next, loops, f, st, m1);
        ReachesAdd(lines, base, m, steps, m1, b, m');
        steps := steps + b;
      }
      AtLabelLine(lines, base, k3, m');
    }
  }

  lemma {:induction false} WhileRuns(lines: seq<Line>, base: int, k: nat, s: Stmt, n: nat, loops: seq<Loop>, f: nat, st: Store, m: State)
    returns (steps: nat, m': State)
    requires Closed(lines) && DistinctLabels(lines) && StmtOk(s) && s.While? && f > 0
    requires AtLine(lines, base, k, m) && Agrees(m, st)
    requires StmtCode(s, n, loops).Some? && CodeAt(lines, k, StmtCode(s, n, loops).value.lines)
    ensures Reaches(lines, base, m, steps, m')
    ensures Ends(lines, base, k + |StmtCode(s, n, loops).value.lines|, loops, f, Sem(f, s, st), steps, m')
    decreases f, s, 0
  {
    hide Reaches, Index, AddressOfLine, LabelOffset, DistinctLabels, Closed, SameForUser, StmtCode, TestCode, Eval, Truth, CodeAt;
    var inner := [Loop(n, n + 1)] + loops;
    var test, x := WhileLayout(lines, k, s, n, loops);
    var k2 := k + 1 + test + |x.lines|;
    AtLabelLine(lines, base, k, m);
    steps, m' := TestRuns(lines, base, k + 1, s.c, n + 1, st, m);
    var v := Eval(s.c, st);
    if v.Value? && Truth(v.w) {
      var m1, b := m', 0;
      b, m' := StmtRuns(lines, base, k + 1 + test, s.body, n + 2, inner, f, st, m1);
      ReachesAdd(lines, base, m, steps, m1, b, m');
      steps := steps + b;
      var o := Sem(f, s.body, st);
      if o.Normal? {
        var m2 := m';
        m' := JumpRuns(lines, base, k2, n, m2);
        ReachesAdd(lines, base, m, steps, m2, 1, m');
        steps := steps + 1;
      }
      if o.Normal? || o.Continued? {
        var m3 := m';
        AtLabelLine(lines, base, k, m3);
        b, m' := StmtRuns(lines, base, k, s, n, loops, f - 1, o.st, m3);
        ReachesAdd(lines, base, m, steps, m3, b, m');
        steps := steps + b;
      } else {
        AtLabelLine(lines, base, k2 + 1, m');
      }
    } else {
      AtLabelLine(lines, base, k2 + 1, m');
    }
  }
}
