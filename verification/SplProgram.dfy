/** Whole SPL programs: the statement's code followed by HALT (spl/splparser.y),
    resolved and run. The machine stops exactly when the program's meaning does,
    and in the same state. */
module SplProgram {
  import opened Wrappers
  import opened Words
  import opened Xsm
  import opened Spl
  import opened Assembly
  import opened SplCode
  import opened SplExpr
  import opened SplStmt
  import opened AssemblyText
  import XsmText
  import opened LabelSets
  import Labels

  // ---- fresh labels ----

  lemma {:induction false} ExprHasNoLabels(e: Expr, k: nat)
    requires k <= 4 && ExprCode(e, k).Some?
    ensures NoLabels(ExprCode(e, k).value)
    ensures forall t, i | 0 <= i < |ExprCode(e, k).value| :: !JumpsTo(ExprCode(e, k).value[i], t)
    decreases e
  {
    match e
    case NumE(_) =>
    case TextE(_) =>
    case RegE(_) =>
    case CellE(x) => ExprHasNoLabels(x, k);
    case NotE(x) =>
      if !x.RegE? {
        ExprHasNoLabels(x, k + 1);
      }
    case BinE(op, l, r) =>
      var small := r.RegE? || (r.NumE? && op.ArithB?);
      if !l.RegE? {
        ExprHasNoLabels(l, k);
      }
      if !small {
        ExprHasNoLabels(r, if l.RegE? && Flippable(op) then k else k + 1);
      }
  }

  lemma PlainLines(s: Stmt)
    requires s.Assign? && AssignCode(s.t, s.rhs).Some?
    ensures NoLabels(AssignCode(s.t, s.rhs).value) && JumpsWithin(AssignCode(s.t, s.rhs).value, {})
  {
    if s.t.CellT? && ExprCode(s.t.a, 0).Some? {
      ExprHasNoLabels(s.t.a, 0);
    }
    if s.rhs.ExprR? && ExprCode(s.rhs.e, 0).Some? {
      ExprHasNoLabels(s.rhs.e, 0);
    }
    if s.rhs.ExprR? && ExprCode(s.rhs.e, 1).Some? {
      ExprHasNoLabels(s.rhs.e, 1);
    }
  }

  lemma TestLines(c: Expr, exit: nat)
    requires TestCode(c, exit).Some?
    ensures NoLabels(TestCode(c, exit).value) && JumpsWithin(TestCode(c, exit).value, {exit})
  {
    if !c.RegE? {
      ExprHasNoLabels(c, 0);
    }
  }

  function LoopLabels(loops: seq<Loop>): set<nat> {
    if loops == [] then {} else {loops[0].start, loops[0].end}
  }

  /** A statement's code defines each of the labels it draws exactly once, and
      jumps only to them and to the innermost enclosing loop. */
  ghost predicate LabelsFine(c: seq<Line>, n: nat, next: nat, loops: seq<Loop>) {
    && LabelSet(c) == Numbers(n, next) && DistinctLabels(c)
    && JumpsWithin(c, Numbers(n, next) + LoopLabels(loops))
  }

  lemma {:induction false} FreshLabels(s: Stmt, n: nat, loops: seq<Loop>)
    requires StmtCode(s, n, loops).Some?
    ensures LabelsFine(StmtCode(s, n, loops).value.lines, n, StmtCode(s, n, loops).value.next, loops)
    decreases s, 1
  {
    match s
    case Skip =>
    case Seq(a, b) =>
      var x := StmtCode(a, n, loops).value;
      var y := StmtCode(b, x.next, loops).value;
      FreshLabels(a, n, loops);
      FreshLabels(b, x.next, loops);
      JumpsWiden(x.lines, Numbers(n, x.next) + LoopLabels(loops), Numbers(n, y.next) + LoopLabels(loops));
      JumpsWiden(y.lines, Numbers(x.next, y.next) + LoopLabels(loops), Numbers(n, y.next) + LoopLabels(loops));
      Pieces(x.lines, Numbers(n, x.next), y.lines, Numbers(x.next, y.next), Numbers(n, y.next) + LoopLabels(loops));
    case Assign(_, _) => PlainLines(s);
    case If(_, _, _) => FreshLabelsIf(s, n, loops);
    case While(_, _) => FreshLabelsWhile(s, n, loops);
    case Break =>
    case Continue =>
    case MultiPush(_) =>
    case MultiPop(_) =>
  }

  lemma {:induction false} FreshLabelsIf(s: Stmt, n: nat, loops: seq<Loop>)
    requires s.If? && StmtCode(s, n, loops).Some?
    ensures LabelsFine(StmtCode(s, n, loops).value.lines, n, StmtCode(s, n, loops).value.next, loops)
    decreases s, 0
  {
    hide LabelSet, DistinctLabels, TestCode;
    var test, x := TestCode(s.c, n).value, StmtCode(s.thn, n + 2, loops).value;
    var y := StmtCode(s.els, x.next, loops).value;
    TestLines(s.c, n);
    FreshLabels(s.thn, n + 2, loops);
    FreshLabels(s.els, x.next, loops);
    var ids := Numbers(n, y.next) + LoopLabels(loops);
    var mid, fin := [Ins(Jmp(n + 1)), LabelDef(n)], [LabelDef(n + 1)];
    var dx, dy := Numbers(n + 2, x.next), Numbers(x.next, y.next);
    SmallPieces(test, n, n + 1, ids);
    SmallPieces(test, n + 1, n, ids);
    JumpsWiden(x.lines, dx + LoopLabels(loops), ids);
    JumpsWiden(y.lines, dy + LoopLabels(loops), ids);
    Pieces(y.lines, dy, fin, {n + 1}, ids);
    Pieces(mid, {n}, y.lines + fin, dy + {n + 1}, ids);
    Pieces(x.lines, dx, mid + (y.lines + fin), {n} + (dy + {n + 1}), ids);
    Pieces(test, {}, x.lines + (mid + (y.lines + fin)), dx + ({n} + (dy + {n + 1})), ids);
    assert {} + (dx + ({n} + (dy + {n + 1}))) == Numbers(n, y.next);
  }

  lemma {:induction false} FreshLabelsWhile(s: Stmt, n: nat, loops: seq<Loop>)
    requires s.While? && StmtCode(s, n, loops).Some?
    ensures LabelsFine(StmtCode(s, n, loops).value.lines, n, StmtCode(s, n, loops).value.next, loops)
    decreases s, 0
  {
    hide LabelSet, DistinctLabels, TestCode;
    var inner := [Loop(n, n + 1)] + loops;
    var test, x := TestCode(s.c, n + 1).value, StmtCode(s.body, n + 2, inner).value;
    TestLines(s.c, n + 1);
    FreshLabels(s.body, n + 2, inner);
    var ids := Numbers(n, x.next) + LoopLabels(loops);
    var first, fin := [LabelDef(n)], [Ins(Jmp(n)), LabelDef(n + 1)];
    var dx := Numbers(n + 2, x.next);
    SmallPieces(test, n + 1, n, ids);
    SmallPieces(test, n, n + 1, ids);
    JumpsWiden(x.lines, dx + LoopLabels(inner), ids);
    Pieces(x.lines, dx, fin, {n + 1}, ids);
    Pieces(test, {}, x.lines + fin, dx + {n + 1}, ids);
    Pieces(first, {n}, test + (x.lines + fin), {} + (dx + {n + 1}), ids);
    assert {n} + ({} + (dx + {n + 1})) == Numbers(n, x.next);
  }

  /** The glue lines of conditionals and loops. */
  lemma SmallPieces(test: seq<Line>, id: nat, exit: nat, ids: set<nat>)
    requires NoLabels(test) && id in ids && exit in ids
    ensures Piece([LabelDef(id)], {id}, ids) && Piece([Ins(Jmp(exit)), LabelDef(id)], {id}, ids)
    ensures JumpsWithin(test, {id}) || JumpsWithin(test, {exit}) ==> Piece(test, {}, ids)
  {
    var one, two := [LabelDef(id)], [Ins(Jmp(exit)), LabelDef(id)];
    assert one[0].LabelDef? && two[1].LabelDef?;
    if JumpsWithin(test, {id}) {
      JumpsWiden(test, {id}, ids);
    } else if JumpsWithin(test, {exit}) {
      JumpsWiden(test, {exit}, ids);
    }
  }

  // ---- programs ----

  /** What the compiler writes for a program whose compilation succeeds. */
  function ProgramLines(s: Stmt): seq<Line>
    requires StmtCode(s, 1, []).Some?
  {
    StmtCode(s, 1, []).value.lines + [Ins(Halt)]
  }

  lemma ProgramCloses(s: Stmt)
    requires StmtCode(s, 1, []).Some?
    ensures Closed(ProgramLines(s)) && DistinctLabels(ProgramLines(s))
  {
    var code, halt := StmtCode(s, 1, []).value, [Ins(Halt)];
    var lines := ProgramLines(s);
    FreshLabels(s, 1, []);
    assert LabelSet(halt) == {};
    LabelsAppend(code.lines, halt);
    JumpsAppend(code.lines, halt, Numbers(1, code.next));
    JumpsAreKnown(lines, Numbers(1, code.next));
  }

  /** The machine code of a program loaded at `base`. */
  function Machine(s: Stmt, base: int): seq<Instr<int>>
    requires StmtCode(s, 1, []).Some?
  {
    ProgramCloses(s);
    Resolve(ProgramLines(s), base)
  }

  /** The compiler's run over a program. */
  method Compile(s: Stmt) returns (ok: bool, lines: seq<Line>)
    ensures ok <==> StmtCode(s, 1, []).Some?
    ensures ok ==> lines == ProgramLines(s)
  {
    var gen := new CodeGen();
    ok := gen.GenStmt(s);
    if ok {
      gen.Emit(Ins(Halt));
    }
    lines := gen.out;
  }

  /** The text resolver turns the compiled file into the text of the machine code
      that CompilerCorrect is about. */
  lemma FileBecomesMachineCode(s: Stmt, base: int)
    requires StmtCode(s, 1, []).Some? && Labels.Readable(FileText(ProgramLines(s)))
    ensures Labels.ResolveText(FileText(ProgramLines(s)), base) == Labels.Resolved(true, CodeText(Machine(s, base)))
  {
    ProgramCloses(s);
    TextResolutionAgrees(ProgramLines(s), base);
  }

  /** Each line that the resolver writes is read by the machine as the instruction that the
      theorems below run. */
  lemma MachineReadsFile(s: Stmt, base: int, k: nat)
    requires StmtCode(s, 1, []).Some? && Labels.Readable(FileText(ProgramLines(s)))
    requires k < |Machine(s, base)| && XsmText.Printable(Machine(s, base)[k])
    ensures var r := Labels.ResolveText(FileText(ProgramLines(s)), base);
            r.ok && |r.out| == |Machine(s, base)| && XsmText.Decode(XsmText.Lex(r.out[k])) == Some(Machine(s, base)[k])
  {
    FileBecomesMachineCode(s, base);
    XsmText.ReadsBack(Machine(s, base)[k]);
  }

  function Start(st: Store, base: int): State {
    State(st.regs, st.mem, base, Running)
  }

  /** How a program ends, seen from its meaning. */
  ghost predicate Matches(o: Outcome, f: nat, steps: nat, m: State) {
    match o
    case Normal(t) => m.status == Halted && Agrees(m, t)
    case Fault => m.status == Faulted
    case Timeout => m.status == Running && steps >= f
    case Broke(_) => false
    case Continued(_) => false
  }

  /** Simulation for programs, loaded at any address and started in any store. */
  lemma ProgramRuns(s: Stmt, base: int, f: nat, st: Store) returns (steps: nat)
    requires StmtOk(s) && StmtCode(s, 1, []).Some?
    ensures Matches(Sem(f, s, st), f, steps, Run(Machine(s, base), base, steps, Start(st, base)))
  {
    var lines, code, m := ProgramLines(s), StmtCode(s, 1, []).value.lines, Start(st, base);
    ProgramCloses(s);
    assert CodeAt(lines, 0, code);
    var m';
    steps, m' := StmtRuns(lines, base, 0, s, 1, [], f, st, m);
    if Sem(f, s, st).Normal? {
      assert lines[|code|] == Ins(Halt);
      ReachesOne(lines, base, |code|, m');
      var m'' := Exec(Patch(lines, base, lines[|code|].i), m'.(ip := AddressOfLine(lines, base, |code| + 1)));
      ReachesAdd(lines, base, m, steps, m', 1, m'');
      steps := steps + 1;
    }
  }

  /** The machine halts only when the program ends normally, and then in the
      state that the program's meaning gives. */
  lemma HaltsOnlyAsMeant(s: Stmt, base: int, st: Store, n: nat) returns (f: nat, t: Store)
    requires StmtOk(s) && StmtCode(s, 1, []).Some?
    requires Run(Machine(s, base), base, n, Start(st, base)).status == Halted
    ensures Sem(f, s, st) == Normal(t) && Agrees(Run(Machine(s, base), base, n, Start(st, base)), t)
  {
    f := n + 1;
    var a := ProgramRuns(s, base, f, st);
    EndsAgree(s, base, st, n, a);
    t := Sem(f, s, st).st;
  }

  lemma EndsAgree(s: Stmt, base: int, st: Store, n: nat, a: nat)
    requires StmtCode(s, 1, []).Some?
    requires Run(Machine(s, base), base, n, Start(st, base)).status != Running
    ensures var end := Run(Machine(s, base), base, n, Start(st, base)); var other := Run(Machine(s, base), base, a, Start(st, base));
            a >= n || other.status != Running ==> other == end
  {
    var code, m := Machine(s, base), Start(st, base);
    if a >= n {
      RunAdd(code, base, n, a - n, m);
      RunStays(code, base, a - n, Run(code, base, n, m));
    } else if Run(code, base, a, m).status != Running {
      RunUnique(code, base, n, a, m);
    }
  }

  ghost predicate Reached(s: Stmt, base: int, st: Store, n: nat, status: Status)
    requires StmtCode(s, 1, []).Some?
  {
    Run(Machine(s, base), base, n, Start(st, base)).status == status
  }

  ghost predicate EndsNormally(f: nat, s: Stmt, st: Store) {
    Sem(f, s, st).Normal?
  }

  ghost predicate EndsInFault(f: nat, s: Stmt, st: Store) {
    Sem(f, s, st) == Fault
  }

  /** Preservation, both ways: the machine halts if and only if the program ends
      normally after some number of turns, and in the same state; it faults if
      and only if the program does; otherwise both run for ever. */
  lemma CompilerCorrect(s: Stmt, base: int, st: Store)
    requires StmtOk(s) && StmtCode(s, 1, []).Some?
    ensures (exists n: nat :: Reached(s, base, st, n, Halted)) <==> (exists f: nat :: EndsNormally(f, s, st))
    ensures (exists n: nat :: Reached(s, base, st, n, Faulted)) <==> (exists f: nat :: EndsInFault(f, s, st))
    ensures forall n: nat, f: nat | Reached(s, base, st, n, Halted) && EndsNormally(f, s, st)
              :: Agrees(Run(Machine(s, base), base, n, Start(st, base)), Sem(f, s, st).st)
  {
    if f: nat :| EndsNormally(f, s, st) {
      var n := ProgramRuns(s, base, f, st);
      assert Reached(s, base, st, n, Halted);
    }
    if f: nat :| EndsInFault(f, s, st) {
      var n := ProgramRuns(s, base, f, st);
      assert Reached(s, base, st, n, Faulted);
    }
    if n: nat :| Reached(s, base, st, n, Halted) {
      var f, t := HaltsOnlyAsMeant(s, base, st, n);
      assert EndsNormally(f, s, st);
    }
    if n: nat :| Reached(s, base, st, n, Faulted) {
      var a := ProgramRuns(s, base, n + 1, st);
      EndsAgree(s, base, st, n, a);
      assert EndsInFault(n + 1, s, st);
    }
    forall n: nat, f: nat | Reached(s, base, st, n, Halted) && EndsNormally(f, s, st)
      ensures Agrees(Run(Machine(s, base), base, n, Start(st, base)), Sem(f, s, st).st)
    {
      var a := ProgramRuns(s, base, f, st);
      EndsAgree(s, base, st, n, a);
    }
  }
}
