/** The ExpL code generator (expl/codegen.c): the lines it emits for a tree, with its
    register counter and label counter, and the generator itself.

    k is the register that getreg hands out next (the source's counter plus one), n the
    last label number used. Label Ln has id 2n, function label Fb has id 2b + 1. */
module ExplCode {
  import opened Words
  import X = Xsm
  import opened Assembly
  import opened Expl

  const MAX_REG := 16
  const GLOBALS := 4096

  datatype Code = Abort | Code(lines: seq<Line>, n: nat)

  function L(n: nat): nat {
    2 * n
  }

  function F(b: nat): nat {
    2 * b + 1
  }

  function Mov(r: nat, src: X.Source): Line
    requires r < 33
  {
    Ins(X.Mov(X.ToReg(r), src))
  }

  function Op(op: ArithOp, a: nat, b: nat): Line
    requires a < 33 && b < 33
  {
    Ins(X.Arith(op, a, X.RegOp(b)))
  }

  /** R_a becomes the address BP + i + 1 of local i; R_b is used up. */
  function LocalAddress(i: nat, a: nat, b: nat): (r: seq<Line>)
    requires a < 33 && b < 33
    ensures |r| == 3
  {
    [Mov(a, X.FromReg(X.BP)), Mov(b, X.FromNum(i + 1)), Op(Add, a, b)]
  }

  /** R_a becomes the address BP - 2 - (i + 1) of parameter i; R_b is used up. */
  function ParamAddress(i: nat, a: nat, b: nat): (r: seq<Line>)
    requires a < 33 && b < 33
    ensures |r| == 5
  {
    [Mov(a, X.FromReg(X.BP)), Mov(b, X.FromNum(2)), Op(Sub, a, b), Mov(b, X.FromNum(i + 1)), Op(Sub, a, b)]
  }

  /** PUSH R0 to R(k-1). */
  function Saves(k: nat): (r: seq<Line>)
    requires k <= 20
    ensures |r| == k
  {
    seq(k, i requires 0 <= i < k => Ins(X.Push(i)))
  }

  /** POP R(k-1) to R0. */
  function Restores(k: nat): (r: seq<Line>)
    requires k <= 20
    ensures |r| == k
  {
    seq(k, i requires 0 <= i < k => Ins(X.Pop(k - 1 - i)))
  }

  function Pops(r: nat, m: nat): (s: seq<Line>)
    requires r < 33
    ensures |s| == m
  {
    seq(m, _ => Ins(X.Pop(r)))
  }

  function Pushes(m: nat): (s: seq<Line>)
    ensures |s| == m
  {
    seq(m, _ => Ins(X.Push(0)))
  }

  /** The register that takes the arguments off the stack after a call. */
  function Drop(k: nat): nat {
    if k == 0 then 1 else 0
  }

  /** The value of e ends in R_k. Abort when getreg runs out of registers. */
  function ExprCode(e: Expr, k: nat, n: nat): (r: Code)
    ensures r.Code? ==> n <= r.n && k <= MAX_REG
    decreases e, 1
  {
    if k > MAX_REG then Abort
    else
      match e
      case Num(v) => Code([Mov(k, X.FromNum(v))], n)
      case Text(s) => Code([Mov(k, X.FromText(s))], n)
      case Local(i) =>
        if k + 1 > MAX_REG then Abort
        else Code(LocalAddress(i, k + 1, k) + [Mov(k, X.FromCell(X.ByReg(k + 1)))], n)
      case Param(i) =>
        if k + 2 > MAX_REG then Abort
        else Code(ParamAddress(i, k + 1, k + 2) + [Mov(k, X.FromCell(X.ByReg(k + 1)))], n)
      case Global(i) => Code([Mov(k, X.FromCell(X.ByNum(GLOBALS + i)))], n)
      case Arith(op, _, _) => Binary(e, k, n, Op(op, k, k + 1))
      case Rel(op, _, _) => Binary(e, k, n, Ins(X.Logic(op, k, k + 1)))
      case And(_, _) => ShortCut(e, k, n)
      case Or(_, _) => ShortCut(e, k, n)
      case Not(x) =>
        var c := ExprCode(x, k, n);
        if c.Abort? then Abort
        else
          Code(c.lines + [Ins(X.Jnz(k, L(c.n + 1))), Mov(k, X.FromNum(1)), Ins(X.Jmp(L(c.n + 2))), LabelDef(L(c.n + 1)),
                          Mov(k, X.FromNum(0)), LabelDef(L(c.n + 2))], c.n + 2)
      case Call(f, args) =>
        var c := ArgsCode(args, n);
        if c.Abort? then Abort else Code(Saves(k) + (c.lines + CallTail(f, |args|, k)), c.n)
  }

  /** Left operand, right operand, operator. */
  function Binary(e: Expr, k: nat, n: nat, last: Line): (c: Code)
    requires k <= MAX_REG && (e.Arith? || e.Rel?)
    ensures c.Code? ==> n <= c.n
    decreases e, 0
  {
    var a := ExprCode(e.left, k, n);
    if a.Abort? then Abort
    else
      var b := ExprCode(e.right, k + 1, a.n);
      if b.Abort? then Abort else Code(a.lines + (b.lines + [last]), b.n)
  }

  /** AND skips its right operand when the left one is zero, OR when it is not. */
  function ShortCut(e: Expr, k: nat, n: nat): (c: Code)
    requires k <= MAX_REG && (e.And? || e.Or?)
    ensures c.Code? ==> n <= c.n
    decreases e, 0
  {
    var a := ExprCode(e.left, k, n);
    if a.Abort? || k + 1 > MAX_REG then Abort
    else
      var b := ExprCode(e.right, k + 2, a.n + 1);
      if b.Abort? then Abort
      else Code(a.lines + (SkipTest(e, k, a.n + 1) + (b.lines + SkipEnd(e, k, a.n + 1))), b.n)
  }

  function SkipTest(e: Expr, k: nat, x: nat): (r: seq<Line>)
    requires k + 1 <= MAX_REG
    ensures |r| == 2
  {
    [Mov(k + 1, X.FromNum(1)), Ins(if e.And? then X.Jz(k, L(x)) else X.Jnz(k, L(x)))]
  }

  function SkipEnd(e: Expr, k: nat, x: nat): (r: seq<Line>)
    requires k + 1 <= MAX_REG
    ensures |r| == 3
  {
    [Mov(k + 1, X.FromReg(k + 2)), LabelDef(L(x)), Op(if e.And? then Mul else Add, k, k + 1)]
  }

  /** The arguments, last one first, each computed in R0 and pushed. */
  function ArgsCode(args: seq<Expr>, n: nat): (r: Code)
    ensures r.Code? ==> n <= r.n
    decreases args, 0
  {
    if args == [] then Code([], n)
    else
      var rest := ArgsCode(args[1..], n);
      if rest.Abort? then Abort
      else
        var a := ExprCode(args[0], 0, rest.n);
        if a.Abort? then Abort else Code(rest.lines + (a.lines + [Ins(X.Push(0))]), a.n)
  }

  /** Space for the result, the call, and the stack taken down again. */
  function CallTail(f: nat, m: nat, k: nat): seq<Line>
    requires k <= MAX_REG
  {
    [Ins(X.Push(0)), Ins(X.Call(F(f))), Ins(X.Pop(k))] + (Pops(Drop(k), m) + Restores(k))
  }

  /** Lines, the register counter after them, and the last label number. */
  datatype Piece = NoPiece | Piece(lines: seq<Line>, k: nat, n: nat)

  function Less(k: nat): nat {
    if k == 0 then 0 else k - 1
  }

  function StmtCode(s: Stmt, k: nat, n: nat): (r: Piece)
    ensures r.Piece? ==> n <= r.n && r.k <= k
  {
    match s
    case Skip => Piece([], k, n)
    case Seq(a, b) =>
      var x := StmtCode(a, k, n);
      if x.NoPiece? then NoPiece
      else
        var y := StmtCode(b, x.k, x.n);
        if y.NoPiece? then NoPiece else Piece(x.lines + y.lines, y.k, y.n)
    case SetLocal(i, e) =>
      var c := ExprCode(e, k, n);
      if c.Abort? || k + 2 > MAX_REG then NoPiece
      else Piece(c.lines + (LocalAddress(i, k + 2, k + 1) + [Ins(X.Mov(X.ToCell(X.ByReg(k + 2)), X.FromReg(k)))]), k, c.n)
    case SetParam(i, e) =>
      var c := ExprCode(e, k, n);
      if c.Abort? || k + 2 > MAX_REG then NoPiece
      else Piece(c.lines + (ParamAddress(i, k + 1, k + 2) + [Ins(X.Mov(X.ToCell(X.ByReg(k + 1)), X.FromReg(k)))]), k, c.n)
    case SetGlobal(i, e) =>
      var c := ExprCode(e, k, n);
      if c.Abort? then NoPiece
      else Piece(c.lines + [Ins(X.Mov(X.ToCell(X.ByNum(GLOBALS + i)), X.FromReg(k)))], k, c.n)
    case If(c, b) =>
      var t := ExprCode(c, k, n + 1);
      if t.Abort? then NoPiece
      else
        var x := StmtCode(b, k + 1, t.n);
        if x.NoPiece? then NoPiece
        else Piece(t.lines + ([Ins(X.Jz(k, L(n + 1)))] + (x.lines + [LabelDef(L(n + 1))])), Less(x.k), x.n)
    case IfElse(c, a, b) =>
      var t := ExprCode(c, k, n);
      if t.Abort? then NoPiece
      else
        var x := StmtCode(a, k, t.n + 2);
        if x.NoPiece? then NoPiece
        else
          var y := StmtCode(b, Less(x.k), x.n);
          if y.NoPiece? then NoPiece
          else Piece(t.lines + ([Ins(X.Jz(k, L(t.n + 1)))]
                     + (x.lines + ([Ins(X.Jmp(L(t.n + 2))), LabelDef(L(t.n + 1))] + (y.lines + [LabelDef(L(t.n + 2))])))), y.k, y.n)
    case While(c, b) =>
      var t := ExprCode(c, k, n + 2);
      if t.Abort? then NoPiece
      else
        var x := StmtCode(b, k, t.n);
        if x.NoPiece? then NoPiece
        else Piece([LabelDef(L(n + 1))] + (t.lines + ([Ins(X.Jz(k, L(n + 2)))]
                   + (x.lines + [Ins(X.Jmp(L(n + 1))), LabelDef(L(n + 2))]))), Less(x.k), x.n)
  }

  lemma StmtCodeIf(s: Stmt, k: nat, n: nat)
    requires s.If?
    ensures StmtCode(s, k, n) ==
              var t := ExprCode(s.c, k, n + 1);
              if t.Abort? then NoPiece
              else
                var x := StmtCode(s.body, k + 1, t.n);
                if x.NoPiece? then NoPiece
                else Piece(t.lines + ([Ins(X.Jz(k, L(n + 1)))] + (x.lines + [LabelDef(L(n + 1))])), Less(x.k), x.n)
  {
    hide ExprCode;
  }

  lemma StmtCodeIfElse(s: Stmt, k: nat, n: nat)
    requires s.IfElse?
    ensures StmtCode(s, k, n) ==
              var t := ExprCode(s.c, k, n);
              if t.Abort? then NoPiece
              else
                var x := StmtCode(s.a, k, t.n + 2);
                if x.NoPiece? then NoPiece
                else
                  var y := StmtCode(s.b, Less(x.k), x.n);
                  if y.NoPiece? then NoPiece
                  else Piece(t.lines + ([Ins(X.Jz(k, L(t.n + 1)))]
                             + (x.lines + ([Ins(X.Jmp(L(t.n + 2))), LabelDef(L(t.n + 1))] + (y.lines + [LabelDef(L(t.n + 2))])))), y.k, y.n)
  {
    hide ExprCode;
  }

  lemma StmtCodeWhile(s: Stmt, k: nat, n: nat)
    requires s.While?
    ensures StmtCode(s, k, n) ==
              var t := ExprCode(s.c, k, n + 2);
              if t.Abort? then NoPiece
              else
                var x := StmtCode(s.body, k, t.n);
                if x.NoPiece? then NoPiece
                else Piece([LabelDef(L(n + 1))] + (t.lines + ([Ins(X.Jz(k, L(n + 2)))]
                           + (x.lines + [Ins(X.Jmp(L(n + 1))), LabelDef(L(n + 2))]))), Less(x.k), x.n)
  {
    hide ExprCode;
  }

  lemma Joined(w: seq<Line>, a: seq<Line>, b: seq<Line>, c: seq<Line>, d: seq<Line>)
    ensures w + a + b + c + d == w + (a + (b + (c + d)))
  {
  }

  /** The result goes to BP - 2; the frame is taken down. */
  function ReturnTail(locals: nat, k: nat): seq<Line>
    requires k + 2 <= MAX_REG
  {
    [Mov(k + 1, X.FromReg(X.BP)), Mov(k + 2, X.FromNum(2)), Op(Sub, k + 1, k + 2), Ins(X.Mov(X.ToCell(X.ByReg(k + 1)), X.FromReg(k)))]
    + (Pops(0, locals) + [Mov(X.BP, X.FromCell(X.ByReg(X.SP))), Ins(X.Pop(0)), Ins(X.Ret)])
  }

  function Prologue(locals: nat): seq<Line> {
    [Ins(X.Push(X.BP)), Mov(X.BP, X.FromReg(X.SP))] + Pushes(locals)
  }

  /** A function: label, frame, body, return. The register counter starts at its lowest
      value and StmtCode never raises it. */
  function FunCode(p: Program, f: nat, n: nat): (r: Code)
    requires f < |p|
    ensures r.Code? ==> n <= r.n
  {
    var x := StmtCode(p[f].body, 0, n);
    if x.NoPiece? then Abort
    else
      var c := ExprCode(p[f].ret, x.k, x.n);
      if c.Abort? || x.k + 2 > MAX_REG then Abort
      else Code([LabelDef(F(f))] + (Prologue(p[f].locals) + (x.lines + (c.lines + ReturnTail(p[f].locals, x.k)))), c.n)
  }

  /** The first m functions of the program. */
  function ProgramCode(p: Program, m: nat, n: nat): (r: Code)
    requires m <= |p|
    ensures r.Code? ==> n <= r.n
  {
    if m == 0 then Code([], n)
    else
      var a := ProgramCode(p, m - 1, n);
      if a.Abort? then Abort
      else
        var b := FunCode(p, m - 1, a.n);
        if b.Abort? then Abort else Code(a.lines + b.lines, b.n)
  }

  /** The generator's globals: the register counter is counter + 1 here. */
  class CodeGen {
    var next: nat
    var lastLabel: nat
    var out: seq<Line>

    constructor ()
      ensures next == 0 && lastLabel == 3 && out == []
    {
      next, lastLabel, out := 0, 3, [];
    }

    method GetLabel() returns (l: nat)
      modifies this`lastLabel
      ensures l == lastLabel == old(lastLabel) + 1
    {
      lastLabel := lastLabel + 1;
      l := lastLabel;
    }

    method FreeReg()
      modifies this`next
      ensures next == Less(old(next))
    {
      if next > 0 {
        next := next - 1;
      }
    }

    /** getreg: the register, or -1 where the source exits. */
    method GetReg() returns (r: int)
      modifies this`next
      ensures if old(next) <= MAX_REG then r == old(next) && next == r + 1 else r == -1 && next == old(next)
    {
      if next <= MAX_REG {
        next := next + 1;
        return next - 1;
      }
      return -1;
    }

    method Emit(ls: seq<Line>)
      modifies this`out
      ensures out == old(out) + ls
    {
      out := out + ls;
    }

    /** codegen on an expression: the register, or -1 where the source exits. */
    method Gen(e: Expr) returns (r: int)
      modifies this
      ensures var c := ExprCode(e, old(next), old(lastLabel));
              if c.Code? then r == old(next) && next == r + 1 && out == old(out) + c.lines && lastLabel == c.n else r == -1
      decreases e, 1
    {
      ghost var was, k, n := out, next, lastLabel;
      match e {
        case Num(v) =>
          r := GetReg();
          if r >= 0 { Emit([Mov(r, X.FromNum(v))]); }
        case Text(s) =>
          r := GetReg();
          if r >= 0 { Emit([Mov(r, X.FromText(s))]); }
        case Local(i) =>
          r := GetReg();
          if r >= 0 {
            var r2 := GetReg();
            if r2 < 0 { return -1; }
            Emit(LocalAddress(i, r2, r) + [Mov(r, X.FromCell(X.ByReg(r2)))]);
            FreeReg();
          }
        case Param(i) =>
          r := GetReg();
          if r >= 0 {
            var r2 := GetReg();
            if r2 < 0 { return -1; }
            var r3 := GetReg();
            if r3 < 0 { return -1; }
            Emit(ParamAddress(i, r2, r3) + [Mov(r, X.FromCell(X.ByReg(r2)))]);
            FreeReg();
            FreeReg();
          }
        case Global(i) =>
          r := GetReg();
          if r >= 0 { Emit([Mov(r, X.FromCell(X.ByNum(GLOBALS + i)))]); }
        case Arith(op, _, _) => r := GenBinary(e);
        case Rel(op, _, _) => r := GenBinary(e);
        case And(_, _) => r := GenShortCut(e);
        case Or(_, _) => r := GenShortCut(e);
        case Not(_) => r := GenNot(e);
        case Call(_, _) => r := GenCall(e);
      }
    }

    method GenNot(e: Expr) returns (r: int)
      requires e.Not?
      modifies this
      ensures var c := ExprCode(e, old(next), old(lastLabel));
              if c.Code? then r == old(next) && next == r + 1 && out == old(out) + c.lines && lastLabel == c.n else r == -1
      decreases e, 0
    {
      ghost var was, k, n := out, next, lastLabel;
      r := Gen(e.e);
      if r >= 0 {
        var l1 := GetLabel();
        Emit([Ins(X.Jnz(r, L(l1))), Mov(r, X.FromNum(1))]);
        var l2 := GetLabel();
        Emit([Ins(X.Jmp(L(l2))), LabelDef(L(l1)), Mov(r, X.FromNum(0)), LabelDef(L(l2))]);
        assert out == was + ExprCode(e, k, n).lines;
      }
    }

    method GenCall(e: Expr) returns (r: int)
      requires e.Call?
      modifies this
      ensures var c := ExprCode(e, old(next), old(lastLabel));
              if c.Code? then r == old(next) && next == r + 1 && out == old(out) + c.lines && lastLabel == c.n else r == -1
      decreases e, 0
    {
      ghost var was, k, n := out, next, lastLabel;
      if next > MAX_REG {
        return -1;
      }
      var status := next;
      Emit(Saves(status));
      next := 0;
      var ok := GenArgs(e.args);
      if !ok {
        return -1;
      }
      Emit(CallTail(e.f, |e.args|, status));
      next := status;
      r := GetReg();
      assert out == was + (Saves(k) + (ArgsCode(e.args, n).lines + CallTail(e.f, |e.args|, k)));
    }

    /** Both operands and the operator's instruction. */
    method GenBinary(e: Expr) returns (r: int)
      requires e.Arith? || e.Rel?
      modifies this
      ensures var c := ExprCode(e, old(next), old(lastLabel));
              if c.Code? then r == old(next) && next == r + 1 && out == old(out) + c.lines && lastLabel == c.n else r == -1
      decreases e, 0
    {
      ghost var was, k, n := out, next, lastLabel;
      r := Gen(e.left);
      if r >= 0 {
        ghost var a := ExprCode(e.left, k, n);
        var r2 := Gen(e.right);
        if r2 < 0 { return -1; }
        ghost var b := ExprCode(e.right, k + 1, a.n);
        var last := if e.Arith? then Op(e.aop, r, r2) else Ins(X.Logic(e.rop, r, r2));
        Emit([last]);
        FreeReg();
        assert out == was + (a.lines + (b.lines + [last]));
      }
    }

    method GenShortCut(e: Expr) returns (r: int)
      requires e.And? || e.Or?
      modifies this
      ensures var c := ExprCode(e, old(next), old(lastLabel));
              if c.Code? then r == old(next) && next == r + 1 && out == old(out) + c.lines && lastLabel == c.n else r == -1
      decreases e, 0
    {
      hide SkipTest, SkipEnd, ArgsCode, Binary;
      ghost var was, k, n := out, next, lastLabel;
      r := Gen(e.left);
      if r >= 0 {
        ghost var a := ExprCode(e.left, k, n);
        var r2 := GetReg();
        if r2 < 0 { return -1; }
        var l1 := GetLabel();
        Emit(SkipTest(e, r, l1));
        var r3 := Gen(e.right);
        if r3 < 0 { return -1; }
        ghost var b := ExprCode(e.right, k + 2, a.n + 1);
        Emit(SkipEnd(e, r, l1));
        FreeReg();
        FreeReg();
        assert out == was + (a.lines + (SkipTest(e, k, a.n + 1) + (b.lines + SkipEnd(e, k, a.n + 1))));
      }
    }

    /** codegen on a statement; false where the source exits. */
    method GenStmt(s: Stmt) returns (ok: bool)
      modifies this
      ensures ok <==> StmtCode(s, old(next), old(lastLabel)).Piece?
      ensures ok ==> var x := StmtCode(s, old(next), old(lastLabel)); next == x.k && out == old(out) + x.lines && lastLabel == x.n
      decreases s, 1
    {
      hide ExprCode;
      ghost var was, k, n := out, next, lastLabel;
      ok := true;
      match s {
        case Skip =>
        case Seq(a, b) =>
          ok := GenStmt(a);
          if ok {
            ok := GenStmt(b);
          }
        case SetLocal(_, _) => ok := GenSet(s);
        case SetParam(_, _) => ok := GenSet(s);
        case SetGlobal(_, _) => ok := GenSet(s);
        case If(_, _) => ok := GenIf(s);
        case IfElse(_, _, _) => ok := GenIfElse(s);
        case While(_, _) => ok := GenWhile(s);
      }
    }

    method GenIf(s: Stmt) returns (ok: bool)
      requires s.If?
      modifies this
      ensures ok <==> StmtCode(s, old(next), old(lastLabel)).Piece?
      ensures ok ==> var x := StmtCode(s, old(next), old(lastLabel)); next == x.k && out == old(out) + x.lines && lastLabel == x.n
      decreases s, 0
    {
      hide ExprCode, StmtCode;
      ghost var was, k, n := out, next, lastLabel;
      StmtCodeIf(s, k, n);
      var l1 := GetLabel();
      var r := Gen(s.c);
      if r < 0 { return false; }
      ghost var c := ExprCode(s.c, k, n + 1);
      Emit([Ins(X.Jz(r, L(l1)))]);
      ok := GenStmt(s.body);
      if ok {
        ghost var x := StmtCode(s.body, k + 1, c.n);
        Emit([LabelDef(L(l1))]);
        FreeReg();
        Joined(was, c.lines, [Ins(X.Jz(r, L(l1)))], x.lines, [LabelDef(L(l1))]);
      }
    }

    method GenSet(s: Stmt) returns (ok: bool)
      requires s.SetLocal? || s.SetParam? || s.SetGlobal?
      modifies this
      ensures ok <==> StmtCode(s, old(next), old(lastLabel)).Piece?
      ensures ok ==> var x := StmtCode(s, old(next), old(lastLabel)); next == x.k && out == old(out) + x.lines && lastLabel == x.n
    {
      hide ExprCode, LocalAddress, ParamAddress;
      ghost var was, k, n := out, next, lastLabel;
      var number := Gen(s.e);
      if number < 0 {
        return false;
      }
      ghost var c := ExprCode(s.e, k, n);
      var tail;
      if s.SetGlobal? {
        tail := [Ins(X.Mov(X.ToCell(X.ByNum(GLOBALS + s.i)), X.FromReg(number)))];
      } else {
        var r1 := GetReg();
        if r1 < 0 { return false; }
        var r2 := GetReg();
        if r2 < 0 { return false; }
        tail := if s.SetLocal? then LocalAddress(s.i, r2, r1) + [Ins(X.Mov(X.ToCell(X.ByReg(r2)), X.FromReg(number)))]
                else ParamAddress(s.i, r1, r2) + [Ins(X.Mov(X.ToCell(X.ByReg(r1)), X.FromReg(number)))];
        FreeReg();
        FreeReg();
      }
      Emit(tail);
      FreeReg();
      ok := true;
      assert out == was + (c.lines + tail);
    }

    method GenIfElse(s: Stmt) returns (ok: bool)
      requires s.IfElse?
      modifies this
      ensures ok <==> StmtCode(s, old(next), old(lastLabel)).Piece?
      ensures ok ==> var x := StmtCode(s, old(next), old(lastLabel)); next == x.k && out == old(out) + x.lines && lastLabel == x.n
      decreases s, 0
    {
      hide ExprCode, StmtCode;
      ghost var was, k, n := out, next, lastLabel;
      StmtCodeIfElse(s, k, n);
      var r := Gen(s.c);
      if r < 0 { return false; }
      ghost var c := ExprCode(s.c, k, n);
      var l1 := GetLabel();
      var l2 := GetLabel();
      Emit([Ins(X.Jz(r, L(l1)))]);
      FreeReg();
      ok := GenStmt(s.a);
      if ok {
        ghost var x := StmtCode(s.a, k, c.n + 2);
        Emit([Ins(X.Jmp(L(l2))), LabelDef(L(l1))]);
        FreeReg();
        ok := GenStmt(s.b);
        if ok {
          ghost var y := StmtCode(s.b, Less(x.k), x.n);
          Emit([LabelDef(L(l2))]);
          Joined(was, c.lines, [Ins(X.Jz(r, L(l1)))], x.lines, [Ins(X.Jmp(L(l2))), LabelDef(L(l1))] + (y.lines + [LabelDef(L(l2))]));
          Joined(was + c.lines + [Ins(X.Jz(r, L(l1)))] + x.lines, [Ins(X.Jmp(L(l2))), LabelDef(L(l1))], y.lines, [LabelDef(L(l2))], []);
        }
      }
    }

    method GenWhile(s: Stmt) returns (ok: bool)
      requires s.While?
      modifies this
      ensures ok <==> StmtCode(s, old(next), old(lastLabel)).Piece?
      ensures ok ==> var x := StmtCode(s, old(next), old(lastLabel)); next == x.k && out == old(out) + x.lines && lastLabel == x.n
      decreases s, 0
    {
      hide ExprCode, StmtCode;
      ghost var was, k, n := out, next, lastLabel;
      StmtCodeWhile(s, k, n);
      var l1 := GetLabel();
      var l2 := GetLabel();
      Emit([LabelDef(L(l1))]);
      var r := Gen(s.c);
      if r < 0 { return false; }
      ghost var c := ExprCode(s.c, k, n + 2);
      Emit([Ins(X.Jz(r, L(l2)))]);
      FreeReg();
      ok := GenStmt(s.body);
      if ok {
        ghost var x := StmtCode(s.body, k, c.n);
        Emit([Ins(X.Jmp(L(l1))), LabelDef(L(l2))]);
        FreeReg();
        Joined(was + [LabelDef(L(l1))], c.lines, [Ins(X.Jz(r, L(l2)))], x.lines, [Ins(X.Jmp(L(l1))), LabelDef(L(l2))]);
        Joined(was, [LabelDef(L(l1))], c.lines + ([Ins(X.Jz(r, L(l2)))] + (x.lines + [Ins(X.Jmp(L(l1))), LabelDef(L(l2))])), [], []);
      }
    }

    /** The loop over the argument list, from its last element. */
    method GenArgs(args: seq<Expr>) returns (ok: bool)
      requires next == 0
      modifies this
      ensures ok <==> ArgsCode(args, old(lastLabel)).Code?
      ensures ok ==> next == 0 && out == old(out) + ArgsCode(args, old(lastLabel)).lines && lastLabel == ArgsCode(args, old(lastLabel)).n
      decreases args, 0
    {
      hide ExprCode;
      ghost var was, n := out, lastLabel;
      var i := |args|;
      ok := true;
      assert args[|args|..] == [];
      while i > 0
        invariant 0 <= i <= |args| && next == 0
        invariant ArgsCode(args[i..], n).Code? && out == was + ArgsCode(args[i..], n).lines && lastLabel == ArgsCode(args[i..], n).n
      {
        i := i - 1;
        assert args[i..][1..] == args[i + 1..] && args[i..][0] == args[i];
        var a := Gen(args[i]);
        if a < 0 {
          AbortSpreads(args, i, n);
          return false;
        }
        Emit([Ins(X.Push(a))]);
        FreeReg();
      }
      assert args[0..] == args;
    }
  }

  lemma {:induction false} AbortSpreads(args: seq<Expr>, i: nat, n: nat)
    requires i <= |args| && ArgsCode(args[i..], n).Abort?
    ensures ArgsCode(args, n).Abort?
    decreases i
  {
    if i == 0 {
      assert args[0..] == args;
    } else {
      assert args[i - 1..][1..] == args[i..];
      AbortSpreads(args, i - 1, n);
    }
  }
}
