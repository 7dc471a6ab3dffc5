/** Whole ExpL programs: the generated file closes over its labels, and a function of it
    called on the machine does what applying the function means. */
module ExplProgram {
  import opened Words
  import X = Xsm
  import opened Assembly
  import opened Expl
  import opened ExplCode
  import opened ExplBlocks
  import opened ExplSteps
  import opened ExplFrames
  import opened ExplRuns
  import LS = LabelSets

  // ---- labels

  /** The ids of labels number lo + 1 to hi. */
  function LSet(lo: nat, hi: nat): (r: set<nat>)
    ensures forall i: nat :: i in r <==> i % 2 == 0 && lo < i / 2 <= hi
    decreases hi - lo
  {
    if lo >= hi then {} else {L(hi)} + LSet(lo, hi - 1)
  }

  /** The ids of the first m functions' labels. */
  function FSet(m: nat): (r: set<nat>)
    ensures forall i: nat :: i in r <==> i % 2 == 1 && i / 2 < m
  {
    if m == 0 then {} else {F(m - 1)} + FSet(m - 1)
  }

  /** Code that defines the labels it drew, once each, and jumps to them or calls one of
      the first m functions. */
  ghost predicate Fine(c: seq<Line>, lo: nat, hi: nat, m: nat) {
    LS.Piece(c, LSet(lo, hi), LSet(lo, hi) + FSet(m))
  }

  lemma PlainPiece(c: seq<Line>, ids: set<nat>)
    requires AllPlain(c)
    ensures LS.Piece(c, {}, ids)
  {
  }

  /** Code for a part of the label range jumps within the whole range. */
  lemma Widen(c: seq<Line>, lo: nat, hi: nat, m: nat, from: nat, to: nat)
    requires Fine(c, lo, hi, m) && from <= lo && hi <= to
    ensures LS.Piece(c, LSet(lo, hi), LSet(from, to) + FSet(m))
  {
    LS.JumpsWiden(c, LSet(lo, hi) + FSet(m), LSet(from, to) + FSet(m));
  }

  lemma LabelPiece(id: nat, ids: set<nat>)
    ensures LS.Piece([LabelDef(id)], {id}, ids)
  {
    assert [LabelDef(id)][0].LabelDef?;
  }

  lemma JumpPiece(l: Line, id: nat, ids: set<nat>)
    requires l.Ins? && (l.i == X.Jmp(id) || (l.i.Jz? && l.i.target == id) || (l.i.Jnz? && l.i.target == id) || l.i == X.Call(id)) && id in ids
    ensures LS.Piece([l], {}, ids)
  {
  }

  lemma {:induction false} ExprFine(p: Program, fn: Fun, globals: nat, e: Expr, k: nat, n: nat)
    requires ExprOk(p, fn, globals, e) && ExprCode(e, k, n).Code?
    ensures Fine(ExprCode(e, k, n).lines, n, ExprCode(e, k, n).n, |p|)
    decreases e, 1
  {
    hide LS.Piece, LSet, FSet, Fine;
    var c := ExprCode(e, k, n);
    if Leaf(e) {
      LeafFine(e, k, n, |p|);
    } else if e.Arith? || e.Rel? {
      BinaryCode(e, k, n);
      var a := ExprCode(e.left, k, n);
      var b := ExprCode(e.right, k + 1, a.n);
      ExprFine(p, fn, globals, e.left, k, n);
      ExprFine(p, fn, globals, e.right, k + 1, a.n);
      TwoFine(a.lines, n, a.n, b.lines, b.n, |p|);
      AddPlain(a.lines + b.lines, [LastOf(e, k)], n, b.n, |p|);
      assert c.lines == (a.lines + b.lines) + [LastOf(e, k)];
    } else if e.And? || e.Or? {
      ShortCutCode(e, k, n);
      ExprFine(p, fn, globals, e.left, k, n);
      ExprFine(p, fn, globals, e.right, k + 2, ExprCode(e.left, k, n).n + 1);
      ShortCutFine(e, k, n, |p|);
    } else if e.Not? {
      ExprFine(p, fn, globals, e.e, k, n);
      NotFine(e, k, n, |p|);
    } else {
      CallFine(p, fn, globals, e, k, n);
    }
  }

  lemma LeafFine(e: Expr, k: nat, n: nat, m: nat)
    requires Leaf(e) && ExprCode(e, k, n).Code?
    ensures ExprCode(e, k, n).n == n && Fine(ExprCode(e, k, n).lines, n, n, m)
  {
    PlainPiece(ExprCode(e, k, n).lines, LSet(n, n) + FSet(m));
    assert LSet(n, n) == {};
  }

  lemma TwoFine(a: seq<Line>, lo: nat, mid: nat, b: seq<Line>, hi: nat, m: nat)
    requires Fine(a, lo, mid, m) && Fine(b, mid, hi, m) && lo <= mid <= hi
    ensures Fine(a + b, lo, hi, m)
  {
    hide LS.Piece;
    Widen(a, lo, mid, m, lo, hi);
    Widen(b, mid, hi, m, lo, hi);
    LS.Pieces(a, LSet(lo, mid), b, LSet(mid, hi), LSet(lo, hi) + FSet(m));
    assert LSet(lo, mid) + LSet(mid, hi) == LSet(lo, hi);
  }

  lemma AddPlain(a: seq<Line>, b: seq<Line>, lo: nat, hi: nat, m: nat)
    requires Fine(a, lo, hi, m) && AllPlain(b)
    ensures Fine(a + b, lo, hi, m) && Fine(b + a, lo, hi, m)
  {
    hide LS.Piece;
    var ids := LSet(lo, hi) + FSet(m);
    PlainPiece(b, ids);
    LS.Pieces(a, LSet(lo, hi), b, {}, ids);
    LS.Pieces(b, {}, a, LSet(lo, hi), ids);
    assert LSet(lo, hi) + {} == LSet(lo, hi) == {} + LSet(lo, hi);
  }

  /** A jump to a label of the range in front of or behind fine code. */
  lemma AddJump(a: seq<Line>, l: Line, id: nat, lo: nat, hi: nat, defines: set<nat>, m: nat)
    requires LS.Piece(a, defines, LSet(lo, hi) + FSet(m)) && id in LSet(lo, hi) + FSet(m)
    requires l.Ins? && (l.i == X.Jmp(id) || (l.i.Jz? && l.i.target == id) || (l.i.Jnz? && l.i.target == id) || l.i == X.Call(id))
    ensures LS.Piece([l] + a, defines, LSet(lo, hi) + FSet(m)) && LS.Piece(a + [l], defines, LSet(lo, hi) + FSet(m))
  {
    hide LS.Piece;
    var ids := LSet(lo, hi) + FSet(m);
    JumpPiece(l, id, ids);
    LS.Pieces([l], {}, a, defines, ids);
    LS.Pieces(a, defines, [l], {}, ids);
    assert {} + defines == defines == defines + {};
  }

  lemma AddLabel(a: seq<Line>, id: nat, ids: set<nat>, defines: set<nat>)
    requires LS.Piece(a, defines, ids) && id !in defines
    ensures LS.Piece(a + [LabelDef(id)], defines + {id}, ids) && LS.Piece([LabelDef(id)] + a, defines + {id}, ids)
  {
    hide LS.Piece;
    LabelPiece(id, ids);
    LS.Pieces(a, defines, [LabelDef(id)], {id}, ids);
    LS.Pieces([LabelDef(id)], {id}, a, defines, ids);
    assert {id} + defines == defines + {id};
  }

  lemma ShortCutFine(e: Expr, k: nat, n: nat, m: nat)
    requires (e.And? || e.Or?) && ExprCode(e, k, n).Code?
    requires ExprCode(e.left, k, n).Code? && Fine(ExprCode(e.left, k, n).lines, n, ExprCode(e.left, k, n).n, m)
    requires var a := ExprCode(e.left, k, n); var b := ExprCode(e.right, k + 2, a.n + 1); b.Code? && Fine(b.lines, a.n + 1, b.n, m)
    ensures Fine(ExprCode(e, k, n).lines, n, ExprCode(e, k, n).n, m)
  {
    hide LS.Piece, ExprCode, LSet, FSet;
    ShortCutCode(e, k, n);
    var a := ExprCode(e.left, k, n);
    var x := a.n + 1;
    var b := ExprCode(e.right, k + 2, x);
    var hi := b.n;
    var ids := LSet(n, hi) + FSet(m);
    assert ExprCode(e, k, n).n == hi by { ShortCutLabels(e, k, n); }
    Widen(a.lines, n, a.n, m, n, hi);
    Widen(b.lines, x, hi, m, n, hi);
    var mov, jump := [Mov(k + 1, X.FromNum(1))], SkipTest(e, k, x)[1];
    var last, op := [Mov(k + 1, X.FromReg(k + 2))], [Op(if e.And? then Mul else Add, k, k + 1)];
    PlainPiece(mov, ids);
    PlainPiece(last, ids);
    PlainPiece(op, ids);
    AddJump(mov, jump, L(x), n, hi, {}, m);
    LS.Pieces(b.lines, LSet(x, hi), last, {}, ids);
    AddLabel(b.lines + last, L(x), ids, LSet(x, hi) + {});
    var d := (LSet(x, hi) + {}) + {L(x)};
    LS.Pieces(b.lines + last + [LabelDef(L(x))], d, op, {}, ids);
    LS.Pieces(mov + [jump], {}, b.lines + last + [LabelDef(L(x))] + op, d + {}, ids);
    LS.Pieces(a.lines, LSet(n, a.n), mov + [jump] + (b.lines + last + [LabelDef(L(x))] + op), {} + (d + {}), ids);
    assert LSet(n, a.n) + ({} + (d + {})) == LSet(n, hi);
    assert ExprCode(e, k, n).lines == a.lines + (mov + [jump] + (b.lines + last + [LabelDef(L(x))] + op));
  }

  lemma ShortCutLabels(e: Expr, k: nat, n: nat)
    requires (e.And? || e.Or?) && ExprCode(e, k, n).Code?
    ensures var a := ExprCode(e.left, k, n);
            a.Code? && ExprCode(e.right, k + 2, a.n + 1).Code? && ExprCode(e, k, n).n == ExprCode(e.right, k + 2, a.n + 1).n
  {
  }

  lemma NotFine(e: Expr, k: nat, n: nat, m: nat)
    requires e.Not? && ExprCode(e, k, n).Code? && Fine(ExprCode(e.e, k, n).lines, n, ExprCode(e.e, k, n).n, m)
    ensures Fine(ExprCode(e, k, n).lines, n, ExprCode(e, k, n).n, m)
  {
    hide LS.Piece, LSet, FSet;
    var a := ExprCode(e.e, k, n);
    var hi := a.n + 2;
    var ids := LSet(n, hi) + FSet(m);
    var x, y := L(a.n + 1), L(a.n + 2);
    var t := NotTail(k, a.n);
    Widen(a.lines, n, a.n, m, n, hi);
    PlainPiece([t[1]], ids);
    PlainPiece([t[4]], ids);
    AddJump([t[1]], t[0], x, n, hi, {}, m);
    AddJump([t[0]] + [t[1]], t[2], y, n, hi, {}, m);
    AddLabel([t[0]] + [t[1]] + [t[2]], x, ids, {});
    LS.Pieces([t[0]] + [t[1]] + [t[2]] + [t[3]], {} + {x}, [t[4]], {}, ids);
    AddLabel([t[0]] + [t[1]] + [t[2]] + [t[3]] + [t[4]], y, ids, {} + {x} + {});
    LS.Pieces(a.lines, LSet(n, a.n), [t[0]] + [t[1]] + [t[2]] + [t[3]] + [t[4]] + [t[5]], {} + {x} + {} + {y}, ids);
    assert LSet(n, a.n) + ({} + {x} + {} + {y}) == LSet(n, hi);
    assert ExprCode(e, k, n).lines == a.lines + ([t[0]] + [t[1]] + [t[2]] + [t[3]] + [t[4]] + [t[5]]);
  }

  /** What stands behind the call instruction. */
  function AfterCall(args: nat, k: nat): seq<Line>
    requires k <= MAX_REG
  {
    [Ins(X.Pop(k))] + (Pops(Drop(k), args) + Restores(k))
  }

  lemma AfterCallIsPlain(args: nat, k: nat)
    requires k <= MAX_REG
    ensures AllPlain(AfterCall(args, k)) && AllPlain(Saves(k)) && AllPlain([Ins(X.Push(0))])
  {
    PlainStack();
  }

  lemma CallCode(e: Expr, k: nat, n: nat)
    requires e.Call? && ExprCode(e, k, n).Code?
    ensures k <= MAX_REG && ArgsCode(e.args, n).Code? && ExprCode(e, k, n).n == ArgsCode(e.args, n).n
    ensures ExprCode(e, k, n).lines ==
              Saves(k) + ArgsCode(e.args, n).lines + [Ins(X.Push(0))] + [Ins(X.Call(F(e.f)))] + AfterCall(|e.args|, k)
  {
    hide ArgsCode, Saves, Pops, Restores;
  }

  lemma {:induction false} CallFine(p: Program, fn: Fun, globals: nat, e: Expr, k: nat, n: nat)
    requires e.Call? && ExprOk(p, fn, globals, e) && ExprCode(e, k, n).Code?
    ensures Fine(ExprCode(e, k, n).lines, n, ExprCode(e, k, n).n, |p|)
    decreases e, 0
  {
    hide LS.Piece, LSet, FSet, ExprCode, ArgsCode, Saves, AfterCall;
    CallCode(e, k, n);
    AfterCallIsPlain(|e.args|, k);
    var c := ArgsCode(e.args, n);
    ArgsFine(p, fn, globals, e.args, n);
    var push, call := [Ins(X.Push(0))], Ins(X.Call(F(e.f)));
    AddPlain(c.lines, Saves(k), n, c.n, |p|);
    AddPlain(Saves(k) + c.lines, push, n, c.n, |p|);
    AddJump(Saves(k) + c.lines + push, call, F(e.f), n, c.n, LSet(n, c.n), |p|);
    AddPlain(Saves(k) + c.lines + push + [call], AfterCall(|e.args|, k), n, c.n, |p|);
  }

  lemma {:induction false} ArgsFine(p: Program, fn: Fun, globals: nat, args: seq<Expr>, n: nat)
    requires (forall a | a in args :: ExprOk(p, fn, globals, a)) && ArgsCode(args, n).Code?
    ensures Fine(ArgsCode(args, n).lines, n, ArgsCode(args, n).n, |p|)
    decreases args, 0
  {
    hide LS.Piece, LSet, FSet;
    if args == [] {
      NoLines(n, |p|);
    } else {
      var rest := ArgsCode(args[1..], n);
      var a := ExprCode(args[0], 0, rest.n);
      ArgsFine(p, fn, globals, args[1..], n);
      ExprFine(p, fn, globals, args[0], 0, rest.n);
      TwoFine(rest.lines, n, rest.n, a.lines, a.n, |p|);
      AddPlain(rest.lines + a.lines, [Ins(X.Push(0))], n, a.n, |p|);
      assert ArgsCode(args, n).lines == rest.lines + a.lines + [Ins(X.Push(0))];
    }
  }

  lemma NoLines(n: nat, m: nat)
    ensures Fine([], n, n, m)
  {
    PlainPiece([], LSet(n, n) + FSet(m));
    assert LSet(n, n) == {};
  }

  lemma {:induction false} StmtFine(p: Program, fn: Fun, globals: nat, s: Stmt, k: nat, n: nat)
    requires StmtOk(p, fn, globals, s) && StmtCode(s, k, n).Piece?
    ensures Fine(StmtCode(s, k, n).lines, n, StmtCode(s, k, n).n, |p|)
    decreases s, 1
  {
    hide LS.Piece, LSet, FSet, Fine, ExprCode, ExprOk;
    if s.Skip? {
      NoLines(n, |p|);
    } else if s.Seq? {
      var x := StmtCode(s.first, k, n);
      StmtFine(p, fn, globals, s.first, k, n);
      StmtFine(p, fn, globals, s.second, x.k, x.n);
      TwoFine(x.lines, n, x.n, StmtCode(s.second, x.k, x.n).lines, StmtCode(s.second, x.k, x.n).n, |p|);
    } else if Sets(s) {
      ExprFine(p, fn, globals, s.e, k, n);
      AddPlain(ExprCode(s.e, k, n).lines, StmtTail(s, k), n, ExprCode(s.e, k, n).n, |p|);
    } else if s.If? {
      IfFine(p, fn, globals, s, k, n);
    } else if s.IfElse? {
      IfElseFine(p, fn, globals, s, k, n);
    } else {
      WhileFine(p, fn, globals, s, k, n);
    }
  }

  lemma {:induction false} IfFine(p: Program, fn: Fun, globals: nat, s: Stmt, k: nat, n: nat)
    requires s.If? && StmtOk(p, fn, globals, s) && StmtCode(s, k, n).Piece?
    ensures Fine(StmtCode(s, k, n).lines, n, StmtCode(s, k, n).n, |p|)
    decreases s, 0
  {
    hide LS.Piece, LSet, FSet, ExprCode, ExprOk;
    var c := ExprCode(s.c, k, n + 1);
    var x := StmtCode(s.body, k + 1, c.n);
    var hi := x.n;
    var ids := LSet(n, hi) + FSet(|p|);
    var id := L(n + 1);
    ExprFine(p, fn, globals, s.c, k, n + 1);
    StmtFine(p, fn, globals, s.body, k + 1, c.n);
    Widen(c.lines, n + 1, c.n, |p|, n, hi);
    Widen(x.lines, c.n, hi, |p|, n, hi);
    AddJump(c.lines, Ins(X.Jz(k, id)), id, n, hi, LSet(n + 1, c.n), |p|);
    LS.Pieces(c.lines + [Ins(X.Jz(k, id))], LSet(n + 1, c.n), x.lines, LSet(c.n, hi), ids);
    var d := LSet(n + 1, c.n) + LSet(c.n, hi);
    AddLabel(c.lines + [Ins(X.Jz(k, id))] + x.lines, id, ids, d);
    assert d + {id} == LSet(n, hi);
    assert StmtCode(s, k, n).lines == c.lines + [Ins(X.Jz(k, id))] + x.lines + [LabelDef(id)];
  }

  lemma {:induction false} IfElseFine(p: Program, fn: Fun, globals: nat, s: Stmt, k: nat, n: nat)
    requires s.IfElse? && StmtOk(p, fn, globals, s) && StmtCode(s, k, n).Piece?
    ensures Fine(StmtCode(s, k, n).lines, n, StmtCode(s, k, n).n, |p|)
    decreases s, 0
  {
    hide LS.Piece, LSet, FSet, ExprCode, ExprOk, Fine, StmtCode, StmtOk;
    CodeIfElse(s, k, n);
    IfElseOk(p, fn, globals, s);
    var c := ExprCode(s.c, k, n);
    var x := StmtCode(s.a, k, c.n + 2);
    var y := StmtCode(s.b, Less(x.k), x.n);
    ExprFine(p, fn, globals, s.c, k, n);
    StmtFine(p, fn, globals, s.a, k, c.n + 2);
    StmtFine(p, fn, globals, s.b, Less(x.k), x.n);
    BranchesFine(c.lines, k, n, c.n, x.lines, x.n, y.lines, y.n, |p|);
    assert StmtCode(s, k, n).lines ==
      c.lines + [Ins(X.Jz(k, L(c.n + 1)))] + (x.lines + [Ins(X.Jmp(L(c.n + 2)))] + [LabelDef(L(c.n + 1))]) + (y.lines + [LabelDef(L(c.n + 2))]);
  }

  lemma IfElseOk(p: Program, fn: Fun, globals: nat, s: Stmt)
    requires s.IfElse? && StmtOk(p, fn, globals, s)
    ensures ExprOk(p, fn, globals, s.c) && StmtOk(p, fn, globals, s.a) && StmtOk(p, fn, globals, s.b)
  {
  }

  lemma BranchesFine(c: seq<Line>, k: nat, n: nat, cn: nat, x: seq<Line>, xn: nat, y: seq<Line>, hi: nat, m: nat)
    requires k <= MAX_REG && n <= cn && cn + 2 <= xn <= hi && Fine(c, n, cn, m) && Fine(x, cn + 2, xn, m) && Fine(y, xn, hi, m)
    ensures Fine(c + [Ins(X.Jz(k, L(cn + 1)))] + (x + [Ins(X.Jmp(L(cn + 2)))] + [LabelDef(L(cn + 1))]) + (y + [LabelDef(L(cn + 2))]), n, hi, m)
  {
    hide LS.Piece, LSet, FSet;
    var ids := LSet(n, hi) + FSet(m);
    var u, v := L(cn + 1), L(cn + 2);
    Widen(c, n, cn, m, n, hi);
    Widen(x, cn + 2, xn, m, n, hi);
    Widen(y, xn, hi, m, n, hi);
    var test, jump := Ins(X.Jz(k, u)), Ins(X.Jmp(v));
    AddJump(c, test, u, n, hi, LSet(n, cn), m);
    AddJump(x, jump, v, n, hi, LSet(cn + 2, xn), m);
    AddLabel(x + [jump], u, ids, LSet(cn + 2, xn));
    LS.Pieces(c + [test], LSet(n, cn), x + [jump] + [LabelDef(u)], LSet(cn + 2, xn) + {u}, ids);
    AddLabel(y, v, ids, LSet(xn, hi));
    var d := LSet(n, cn) + (LSet(cn + 2, xn) + {u});
    LS.Pieces(c + [test] + (x + [jump] + [LabelDef(u)]), d, y + [LabelDef(v)], LSet(xn, hi) + {v}, ids);
    assert d + (LSet(xn, hi) + {v}) == LSet(n, hi);
  }

  lemma {:induction false} WhileFine(p: Program, fn: Fun, globals: nat, s: Stmt, k: nat, n: nat)
    requires s.While? && StmtOk(p, fn, globals, s) && StmtCode(s, k, n).Piece?
    ensures Fine(StmtCode(s, k, n).lines, n, StmtCode(s, k, n).n, |p|)
    decreases s, 0
  {
    hide LS.Piece, LSet, FSet, ExprCode, ExprOk;
    var c := ExprCode(s.c, k, n + 2);
    var x := StmtCode(s.body, k, c.n);
    var hi := x.n;
    var ids := LSet(n, hi) + FSet(|p|);
    var u, v := L(n + 1), L(n + 2);
    ExprFine(p, fn, globals, s.c, k, n + 2);
    StmtFine(p, fn, globals, s.body, k, c.n);
    Widen(c.lines, n + 2, c.n, |p|, n, hi);
    Widen(x.lines, c.n, hi, |p|, n, hi);
    var test, jump := Ins(X.Jz(k, v)), Ins(X.Jmp(u));
    AddJump(c.lines, test, v, n, hi, LSet(n + 2, c.n), |p|);
    AddLabel(c.lines + [test], u, ids, LSet(n + 2, c.n));
    AddJump(x.lines, jump, u, n, hi, LSet(c.n, hi), |p|);
    var d := LSet(n + 2, c.n) + {u};
    LS.Pieces([LabelDef(u)] + (c.lines + [test]), d, x.lines + [jump], LSet(c.n, hi), ids);
    var all := [LabelDef(u)] + (c.lines + [test]) + (x.lines + [jump]);
    AddLabel(all, v, ids, d + LSet(c.n, hi));
    assert d + LSet(c.n, hi) + {v} == LSet(n, hi);
    assert StmtCode(s, k, n).lines == all + [LabelDef(v)];
  }

  /** Function f: its own label and the labels it drew. */
  lemma FunFine(p: Program, globals: nat, f: nat, n: nat)
    requires ProgramOk(p, globals) && f < |p| && FunCode(p, f, n).Code?
    ensures var c := FunCode(p, f, n); LS.Piece(c.lines, LSet(n, c.n) + {F(f)}, LSet(n, c.n) + FSet(|p|))
  {
    hide LS.Piece, LSet, FSet, ExprCode, ExprOk, StmtCode, StmtOk;
    var fn := p[f];
    var x := StmtCode(fn.body, 0, n);
    var c := ExprCode(fn.ret, x.k, x.n);
    var ids := LSet(n, c.n) + FSet(|p|);
    var ret := Ins(X.Ret);
    PlainStack();
    StmtFine(p, fn, globals, fn.body, 0, n);
    ExprFine(p, fn, globals, fn.ret, x.k, x.n);
    TwoFine(x.lines, n, x.n, c.lines, c.n, |p|);
    var down := ReturnTail(fn.locals, x.k)[..|ReturnTail(fn.locals, x.k)| - 1];
    AddPlain(x.lines + c.lines, Prologue(fn.locals), n, c.n, |p|);
    AddPlain(Prologue(fn.locals) + (x.lines + c.lines), down, n, c.n, |p|);
    RetPiece(ids);
    var most := Prologue(fn.locals) + (x.lines + c.lines) + down;
    LS.Pieces(most, LSet(n, c.n), [ret], {}, ids);
    AddLabel(most + [ret], F(f), ids, LSet(n, c.n) + {});
    assert LSet(n, c.n) + {} + {F(f)} == LSet(n, c.n) + {F(f)};
    assert FunCode(p, f, n).lines == [LabelDef(F(f))] + (most + [ret]);
  }

  lemma RetPiece(ids: set<nat>)
    ensures LS.Piece([Ins(X.Ret)], {}, ids)
  {
  }

  lemma {:induction false} ProgramFine(p: Program, globals: nat, m: nat, n: nat)
    requires ProgramOk(p, globals) && m <= |p| && ProgramCode(p, m, n).Code?
    ensures var c := ProgramCode(p, m, n); LS.Piece(c.lines, LSet(n, c.n) + FSet(m), LSet(n, c.n) + FSet(|p|))
    decreases m
  {
    hide LS.Piece, FunCode, ProgramOk, LSet, FSet;
    var c := ProgramCode(p, m, n);
    if m == 0 {
      PlainPiece([], LSet(n, n) + FSet(|p|));
      assert LSet(n, n) + FSet(0) == {};
    } else {
      var a := ProgramCode(p, m - 1, n);
      var b := FunCode(p, m - 1, a.n);
      ProgramFine(p, globals, m - 1, n);
      FunFine(p, globals, m - 1, a.n);
      WidenSet(a.lines, LSet(n, a.n) + FSet(m - 1), LSet(n, a.n) + FSet(|p|), LSet(n, c.n) + FSet(|p|));
      WidenSet(b.lines, LSet(a.n, b.n) + {F(m - 1)}, LSet(a.n, b.n) + FSet(|p|), LSet(n, c.n) + FSet(|p|));
      LS.Pieces(a.lines, LSet(n, a.n) + FSet(m - 1), b.lines, LSet(a.n, b.n) + {F(m - 1)}, LSet(n, c.n) + FSet(|p|));
      LabelsJoin(n, a.n, b.n, m);
    }
  }

  lemma LabelsJoin(n: nat, mid: nat, hi: nat, m: nat)
    requires n <= mid <= hi && m > 0
    ensures (LSet(n, mid) + FSet(m - 1)) + (LSet(mid, hi) + {F(m - 1)}) == LSet(n, hi) + FSet(m)
  {
  }

  lemma WidenSet(c: seq<Line>, defines: set<nat>, small: set<nat>, ids: set<nat>)
    requires LS.Piece(c, defines, small) && small <= ids
    ensures LS.Piece(c, defines, ids)
  {
    LS.JumpsWiden(c, small, ids);
  }

  // ---- the theorem

  /** The lines of a program's functions; the label counter starts at 3. */
  function ProgramLines(p: Program): seq<Line>
    requires ProgramCode(p, |p|, 3).Code?
  {
    ProgramCode(p, |p|, 3).lines
  }

  lemma {:induction false} FunInProgram(w: World, m: nat, n: nat, f: nat)
    requires f < m <= |w.p| && ProgramCode(w.p, m, n).Code? && CodeAt(w.lines, 0, ProgramCode(w.p, m, n).lines)
    ensures Present(w, f)
    decreases m
  {
    hide FunCode;
    var a := ProgramCode(w.p, m - 1, n);
    var b := FunCode(w.p, m - 1, a.n);
    CodeAtSplit(w.lines, 0, a.lines, b.lines);
    if f < m - 1 {
      FunInProgram(w, m - 1, n, f);
    } else {
      assert HasFun(w, f, |a.lines|, a.n);
    }
  }

  lemma ProgramLoads(p: Program, globals: nat, base: int)
    requires ProgramOk(p, globals) && ProgramCode(p, |p|, 3).Code?
    ensures Loaded(World(ProgramLines(p), base, p), globals)
  {
    hide FunCode, ProgramCode;
    var w := World(ProgramLines(p), base, p);
    var c := ProgramCode(p, |p|, 3);
    ProgramFine(p, globals, |p|, 3);
    LS.JumpsAreKnown(w.lines, LSet(3, c.n) + FSet(|p|));
    forall f | 0 <= f < |p| ensures Present(w, f) { FunInProgram(w, |p|, 3, f); }
  }

  /** Calls keep the frame convention at any depth of recursion: a function of a compiled
      program, called with its arguments on the stack, returns to its caller with the
      meaning of the application on top of the stack and BP and the caller's stack as
      before, faults when the meaning is a fault, goes on for as long as the meaning
      does, or runs out of stack. */
  lemma CallIsApplied(p: Program, base: int, f: nat, ws: seq<Word>, g: seq<Word>, fuel: nat, m: State, ret: int) returns (steps: nat, m': State)
    requires ProgramOk(p, |g|) && ProgramCode(p, |p|, 3).Code? && f < |p| && |ws| == p[f].params
    requires AtLabel(ProgramLines(p), base, F(f), m) && Entered(m, ws, g, ret)
    ensures Reaches(ProgramLines(p), base, m, steps, m')
    ensures match Apply(p, f, ws, g, fuel)
            case Yields(v, g') => Full(m') || Left(m, m', |ws|, |g|, ret, v, g')
            case Fails => m'.status == X.Faulted
            case Endless => Unfinished(m', steps, fuel)
            case Open => Inside(m', steps, fuel) || LeftSomehow(m, m', |ws|, |g|, ret)
  {
    hide Entered, Left, Reaches, AtLabel, ProgramCode, Apply, Loaded;
    ProgramLoads(p, |g|, base);
    steps, m' := FunRuns(World(ProgramLines(p), base, p), f, ws, g, fuel, m, ret);
  }

  /** A call that has not ended with fuel n has not stopped the machine after n steps,
      unless the stack is full. */
  lemma EndlessRunsOn(p: Program, base: int, f: nat, ws: seq<Word>, g: seq<Word>, n: nat, m: State, ret: int, m': State)
    requires ProgramOk(p, |g|) && ProgramCode(p, |p|, 3).Code? && f < |p| && |ws| == p[f].params
    requires AtLabel(ProgramLines(p), base, F(f), m) && Entered(m, ws, g, ret)
    requires Apply(p, f, ws, g, n) == Endless && Reaches(ProgramLines(p), base, m, n, m')
    ensures m'.status == X.Running || Full(m')
  {
    hide Entered, AtLabel, ProgramCode, ProgramLines, ProgramOk, Apply, Full, Reaches, Unfinished, Left;
    var steps, end := CallIsApplied(p, base, f, ws, g, n, m, ret);
    if m'.status != X.Running {
      if n <= steps {
        StopsOnce(ProgramLines(p), base, m, n, m', steps, end);
      } else {
        StoppedIsFull(end, steps, n);
        StopsOnce(ProgramLines(p), base, m, steps, end, n, m');
      }
      StoppedIsFull(end, steps, n);
    }
  }

  /** A stopped machine stays as it is. */
  lemma StopsOnce(lines: seq<Line>, base: int, m: State, a: nat, m1: State, b: nat, m2: State)
    requires Reaches(lines, base, m, a, m1) && Reaches(lines, base, m, b, m2) && a <= b && m1.status != X.Running
    ensures m2 == m1
  {
    X.RunAdd(Resolve(lines, base), base, a, b - a, m);
    X.RunStays(Resolve(lines, base), base, b - a, m1);
  }

  lemma StoppedIsFull(m: State, steps: nat, n: nat)
    requires Unfinished(m, steps, n) && (steps < n || m.status != X.Running)
    ensures Full(m) && m.status != X.Running
  {
  }

  // ---- registers

  /** Compilation of an expression aborts exactly when the registers it needs from R_k on
      go beyond R16. */
  function Need(e: Expr): nat {
    match e
    case Num(_) => 1
    case Text(_) => 1
    case Local(_) => 2
    case Param(_) => 3
    case Global(_) => 1
    case Arith(_, l, r) => Max(Need(l), 1 + Need(r))
    case Rel(_, l, r) => Max(Need(l), 1 + Need(r))
    case And(l, r) => Max(Need(l), 2 + Need(r))
    case Or(l, r) => Max(Need(l), 2 + Need(r))
    case Not(x) => Need(x)
    case Call(_, _) => 1
  }

  function Max(a: nat, b: nat): nat {
    if a >= b then a else b
  }

  /** Arguments are computed from R0 on, whatever the register of the call. */
  predicate ArgsFit(e: Expr) {
    match e
    case Arith(_, l, r) => ArgsFit(l) && ArgsFit(r)
    case Rel(_, l, r) => ArgsFit(l) && ArgsFit(r)
    case And(l, r) => ArgsFit(l) && ArgsFit(r)
    case Or(l, r) => ArgsFit(l) && ArgsFit(r)
    case Not(x) => ArgsFit(x)
    case Call(_, args) => forall a | a in args :: ArgsFit(a) && Need(a) <= MAX_REG + 1
    case _ => true
  }

  lemma {:induction false} CompilesIffFits(e: Expr, k: nat, n: nat)
    ensures ExprCode(e, k, n).Code? <==> k + Need(e) <= MAX_REG + 1 && ArgsFit(e)
    decreases e, 1
  {
    hide ArgsCode;
    if e.Arith? || e.Rel? || e.And? || e.Or? {
      BinaryFits(e, k, n);
    } else if e.Not? {
      CompilesIffFits(e.e, k, n);
    } else if e.Call? {
      ArgsCompileIffFit(e.args, n);
    }
  }

  lemma {:induction false} BinaryFits(e: Expr, k: nat, n: nat)
    requires e.Arith? || e.Rel? || e.And? || e.Or?
    ensures ExprCode(e, k, n).Code? <==> k + Need(e) <= MAX_REG + 1 && ArgsFit(e)
    decreases e, 0
  {
    hide ExprCode;
    CompilesIffFits(e.left, k, n);
    NeedIsPositive(e.right);
    BinaryCompiles(e, k, n);
    var a := ExprCode(e.left, k, n);
    if a.Code? {
      if e.Arith? || e.Rel? {
        CompilesIffFits(e.right, k + 1, a.n);
      } else {
        CompilesIffFits(e.right, k + 2, a.n + 1);
      }
    }
  }

  lemma BinaryCompiles(e: Expr, k: nat, n: nat)
    requires e.Arith? || e.Rel? || e.And? || e.Or?
    ensures var a := ExprCode(e.left, k, n);
            ExprCode(e, k, n).Code? <==>
              k <= MAX_REG && a.Code?
              && if e.Arith? || e.Rel? then ExprCode(e.right, k + 1, a.n).Code?
                 else k + 1 <= MAX_REG && ExprCode(e.right, k + 2, a.n + 1).Code?
  {
    hide ArgsCode;
  }

  lemma {:induction false} NeedIsPositive(e: Expr)
    ensures Need(e) >= 1
  {
    match e
    case Not(x) => NeedIsPositive(x);
    case _ =>
  }

  lemma {:induction false} ArgsCompileIffFit(args: seq<Expr>, n: nat)
    ensures ArgsCode(args, n).Code? <==> forall a | a in args :: ArgsFit(a) && Need(a) <= MAX_REG + 1
    decreases args, 0
  {
    hide ExprCode, Need, ArgsFit;
    if args != [] {
      ArgsCompileIffFit(args[1..], n);
      assert forall a :: a in args <==> a == args[0] || a in args[1..];
      var rest := ArgsCode(args[1..], n);
      if rest.Code? {
        CompilesIffFits(args[0], 0, rest.n);
      }
    }
  }
}
