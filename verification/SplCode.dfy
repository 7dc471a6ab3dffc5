/** The SPL code generator (spl/spl.c, spl/label.c): what `codegen` emits for a
    tree, as functions, and the generator itself, which appends to its output
    and keeps the register count, the label counter and the stack of loops. */
module SplCode {
  import opened Wrappers
  import opened Words
  import opened Xsm
  import opened Spl
  import opened Assembly

  /** C_REG_BASE + k. */
  function Scr(k: nat): Reg
    requires k <= 4
  {
    16 + k
  }

  function BinInstr(op: BinOp, l: Reg, r: Reg): Instr<nat> {
    match op
    case RelB(rel) => Logic(rel, l, r)
    case AndB => Arith(Mul, l, RegOp(r))
    case OrB => Arith(Add, l, RegOp(r))
    case ArithB(a) => Arith(a, l, RegOp(r))
  }

  /** The instruction for operands that sit the other way round. */
  function FlippedInstr(op: BinOp, l: Reg, r: Reg): Instr<nat> {
    match op
    case RelB(rel) => Logic(Flip(rel), l, r)
    case _ => BinInstr(op, l, r)
  }

  predicate Flippable(op: BinOp) {
    op.ArithB? ==> op.aop == Add || op.aop == Mul
  }

  function MoveLine(k: nat, src: Source): Line
    requires k <= 4
  {
    Ins(Mov(ToReg(Scr(k)), src))
  }

  /** Takes one scratch register, or aborts: the register count may not reach 5. */
  function Load(k: nat, src: Source): (c: Option<seq<Line>>)
    requires k <= 4
    ensures c.Some? <==> k < 4
  {
    if k == 4 then None else Some([MoveLine(k, src)])
  }

  function Append(c: Option<seq<Line>>, last: Line): Option<seq<Line>> {
    if c.None? then None else Some(c.value + [last])
  }

  /** The lines for an expression when k scratch registers are taken; None when
      the compiler stops with a register overflow (spl/spl.c:226-906). */
  function ExprCode(e: Expr, k: nat): (c: Option<seq<Line>>)
    requires k <= 4
    ensures c.Some? ==> k < 4
  {
    match e
    case NumE(n) => Load(k, FromNum(n))
    case TextE(s) => Load(k, FromText(s))
    case RegE(r) => Load(k, FromReg(r))
    case CellE(x) => var c := ExprCode(x, k);
                     if c.None? then None else Some(c.value + [MoveLine(k, FromCell(ByReg(Scr(k))))])
    case NotE(x) =>
      if k == 4 then None
      else if x.RegE? then Some([MoveLine(k, FromNum(1)), Ins(Arith(Sub, Scr(k), RegOp(x.r)))])
      else
        var c := ExprCode(x, k + 1);
        if c.None? then None
        else Some([MoveLine(k, FromNum(1))] + c.value + [Ins(Arith(Sub, Scr(k), RegOp(Scr(k + 1))))])
    case BinE(op, l, r) =>
      if l.RegE? && r.RegE? then Append(Load(k, FromReg(l.r)), Ins(BinInstr(op, Scr(k), r.r)))
      else if l.RegE? && r.NumE? && op.ArithB? then
        Append(Load(k, FromReg(l.r)), Ins(Arith(op.aop, Scr(k), NumOp(r.n))))
      else if l.RegE? && Flippable(op) then Append(ExprCode(r, k), Ins(FlippedInstr(op, Scr(k), l.r)))
      else if l.RegE? then
        if k == 4 then None
        else
          var c := ExprCode(r, k + 1);
          if c.None? then None
          else Some([MoveLine(k, FromReg(l.r))] + c.value + [Ins(BinInstr(op, Scr(k), Scr(k + 1)))])
      else
        var a := ExprCode(l, k);
        if a.None? then None
        else if r.RegE? then Append(a, Ins(BinInstr(op, Scr(k), r.r)))
        else if r.NumE? && op.ArithB? then Append(a, Ins(Arith(op.aop, Scr(k), NumOp(r.n))))
        else
          var c := ExprCode(r, k + 1);
          if c.None? then None
          else Some(a.value + c.value + [Ins(BinInstr(op, Scr(k), Scr(k + 1)))])
  }

  /** How many scratch registers an expression needs at once. */
  function Need(e: Expr): nat {
    match e
    case NumE(_) => 1
    case TextE(_) => 1
    case RegE(_) => 1
    case CellE(x) => Need(x)
    case NotE(x) => if x.RegE? then 1 else 1 + Need(x)
    case BinE(op, l, r) =>
      var small := r.RegE? || (r.NumE? && op.ArithB?);
      if l.RegE? && small then 1
      else if l.RegE? then (if Flippable(op) then Need(r) else 1 + Need(r))
      else if small then Need(l)
      else if Need(l) > 1 + Need(r) then Need(l) else 1 + Need(r)
  }

  /** The compiler accepts an expression exactly when its need fits in the four
      scratch registers. */
  lemma {:induction false} AcceptedIffFits(e: Expr, k: nat)
    requires k <= 4
    ensures ExprCode(e, k).Some? <==> k + Need(e) <= 4
  {
    match e
    case NumE(_) =>
    case TextE(_) =>
    case RegE(_) =>
    case CellE(x) => AcceptedIffFits(x, k);
    case NotE(x) =>
      if k < 4 {
        AcceptedIffFits(x, k + 1);
      }
    case BinE(_, l, r) =>
      AcceptedIffFits(l, k);
      AcceptedIffFits(r, k);
      if k < 4 {
        AcceptedIffFits(r, k + 1);
      }
  }

  /** Stores a right-hand side; d is where it goes and k how many scratch
      registers the destination takes. */
  function StoreCode(d: Dest, rhs: Rhs, k: nat): Option<seq<Line>>
    requires k <= 1
  {
    match rhs
    case PortR(p) => Some([MoveLine(k, FromReg(p)), Ins(Mov(d, FromReg(Scr(k))))])
    case ExprR(e) =>
      match e
      case RegE(r) => Some([Ins(Mov(d, FromReg(r)))])
      case NumE(n) => Some([Ins(Mov(d, FromNum(n)))])
      case TextE(s) => Some([Ins(Mov(d, FromText(s)))])
      case _ => Append(ExprCode(e, k), Ins(Mov(d, FromReg(Scr(k)))))
  }

  function AssignCode(t: Target, rhs: Rhs): Option<seq<Line>> {
    match t
    case RegT(r) => StoreCode(ToReg(r), rhs, 0)
    case CellT(NumE(n)) => StoreCode(ToCell(ByNum(n)), rhs, 0)
    case CellT(RegE(r)) => StoreCode(ToCell(ByReg(r)), rhs, 0)
    case CellT(a) =>
      var c, d := ExprCode(a, 0), StoreCode(ToCell(ByReg(Scr(0))), rhs, 1);
      if c.None? || d.None? then None else Some(c.value + d.value)
  }

  /** The jump taken when a condition is false. */
  function TestCode(c: Expr, exit: nat): Option<seq<Line>> {
    if c.RegE? then Some([Ins(Jz(c.r, exit))]) else Append(ExprCode(c, 0), Ins(Jz(Scr(0), exit)))
  }

  datatype Loop = Loop(start: nat, end: nat)

  function PushLines(rs: seq<Reg>): seq<Line> {
    seq(|rs|, i requires 0 <= i < |rs| => Ins(Push(rs[i])))
  }

  function PopLines(rs: seq<Reg>): seq<Line> {
    seq(|rs|, i requires 0 <= i < |rs| => Ins(Pop(rs[|rs| - 1 - i])))
  }

  /** Lines and next free label number. */
  datatype Emitted = Emitted(lines: seq<Line>, next: nat)

  /** The lines for a statement: n is the next free label number and `loops` the
      stack of enclosing loops, innermost first. None when compilation stops. */
  function StmtCode(s: Stmt, n: nat, loops: seq<Loop>): (r: Option<Emitted>)
    ensures r.Some? ==> n <= r.value.next
  {
    match s
    case Skip => Some(Emitted([], n))
    case Seq(a, b) =>
      var x := StmtCode(a, n, loops);
      if x.None? then None
      else
        var y := StmtCode(b, x.value.next, loops);
        if y.None? then None else Some(Emitted(x.value.lines + y.value.lines, y.value.next))
    case Assign(t, rhs) =>
      var c := AssignCode(t, rhs);
      if c.None? then None else Some(Emitted(c.value, n))
    case If(c, a, b) =>
      var test, x := TestCode(c, n), StmtCode(a, n + 2, loops);
      if test.None? || x.None? then None
      else
        var y := StmtCode(b, x.value.next, loops);
        if y.None? then None
        else Some(Emitted(
          test.value + (x.value.lines + ([Ins(Jmp(n + 1)), LabelDef(n)] + (y.value.lines + [LabelDef(n + 1)]))),
          y.value.next))
    case While(c, body) =>
      var test, x := TestCode(c, n + 1), StmtCode(body, n + 2, [Loop(n, n + 1)] + loops);
      if test.None? || x.None? then None
      else Some(Emitted(
        [LabelDef(n)] + (test.value + (x.value.lines + [Ins(Jmp(n)), LabelDef(n + 1)])),
        x.value.next))
    case Break => if loops == [] then None else Some(Emitted([Ins(Jmp(loops[0].end))], n))
    case Continue => if loops == [] then None else Some(Emitted([Ins(Jmp(loops[0].start))], n))
    case MultiPush(rs) => Some(Emitted(PushLines(rs), n))
    case MultiPop(rs) => Some(Emitted(PopLines(rs), n))
  }

  lemma Regroup(w: seq<Line>, a: seq<Line>, b: seq<Line>, c: seq<Line>)
    ensures w + a + b + c == w + (a + b + c) == w + (a + (b + c))
  {
  }

  /** The globals of the compiler. */
  class CodeGen {
    var out: seq<Line>
    var regcount: nat
    var namegen: nat
    var whiles: seq<Loop>

    constructor ()
      ensures out == [] && regcount == 0 && namegen == 1 && whiles == []
    {
      out, regcount, namegen, whiles := [], 0, 1, [];
    }

    method Emit(l: Line)
      modifies this`out
      ensures out == old(out) + [l]
    {
      out := out + [l];
    }

    /** Emits into the next scratch register; false is the compiler's exit. */
    method Take(src: Source) returns (ok: bool)
      requires regcount <= 4
      modifies this`out, this`regcount
      ensures ok <==> old(regcount) < 4
      ensures ok ==> regcount == old(regcount) + 1 && out == old(out) + [MoveLine(old(regcount), src)]
    {
      Emit(MoveLine(regcount, src));
      regcount := regcount + 1;
      ok := regcount != 5;
    }

    /** codegen on an expression (spl/spl.c:226-906, 1047-1073). */
    method GenExpr(e: Expr) returns (ok: bool)
      requires regcount <= 4
      modifies this`out, this`regcount
      ensures ok <==> ExprCode(e, old(regcount)).Some?
      ensures ok ==> regcount == old(regcount) + 1 && out == old(out) + ExprCode(e, old(regcount)).value
      decreases e, 1
    {
      ghost var was, k := out, regcount;
      match e {
        case NumE(n) => ok := Take(FromNum(n));
        case TextE(s) => ok := Take(FromText(s));
        case RegE(r) => ok := Take(FromReg(r));
        case CellE(x) =>
          ok := GenExpr(x);
          if ok {
            Emit(MoveLine(regcount - 1, FromCell(ByReg(Scr(regcount - 1)))));
          }
        case NotE(x) =>
          ok := Take(FromNum(1));
          if ok && x.RegE? {
            Emit(Ins(Arith(Sub, Scr(regcount - 1), RegOp(x.r))));
          } else if ok {
            ok := GenExpr(x);
            if ok {
              Emit(Ins(Arith(Sub, Scr(regcount - 2), RegOp(Scr(regcount - 1)))));
              regcount := regcount - 1;
              assert out == was + ([MoveLine(k, FromNum(1))] + ExprCode(x, k + 1).value + [Ins(Arith(Sub, Scr(k), RegOp(Scr(k + 1))))]);
            }
          }
        case BinE(_, l, _) =>
          if l.RegE? {
            ok := GenRegLeft(e);
          } else {
            ok := GenBoth(e);
          }
      }
    }

    /** A binary operator with a register on the left. */
    method GenRegLeft(e: Expr) returns (ok: bool)
      requires regcount <= 4 && e.BinE? && e.left.RegE?
      modifies this`out, this`regcount
      ensures ok <==> ExprCode(e, old(regcount)).Some?
      ensures ok ==> regcount == old(regcount) + 1 && out == old(out) + ExprCode(e, old(regcount)).value
      decreases e, 0
    {
      ghost var was, k := out, regcount;
      var op, l, r := e.op, e.left, e.right;
      if r.RegE? || (r.NumE? && op.ArithB?) {
        ok := Take(FromReg(l.r));
        if ok && r.RegE? {
          Emit(Ins(BinInstr(op, Scr(regcount - 1), r.r)));
        } else if ok {
          Emit(Ins(Arith(op.aop, Scr(regcount - 1), NumOp(r.n))));
        }
      } else if Flippable(op) {
        ok := GenExpr(r);
        if ok {
          Emit(Ins(FlippedInstr(op, Scr(regcount - 1), l.r)));
        }
      } else {
        ok := Take(FromReg(l.r));
        if ok {
          ok := GenExpr(r);
          if ok {
            Emit(Ins(BinInstr(op, Scr(regcount - 2), Scr(regcount - 1))));
            regcount := regcount - 1;
            assert out == was + ([MoveLine(k, FromReg(l.r))] + ExprCode(r, k + 1).value + [Ins(BinInstr(op, Scr(k), Scr(k + 1)))]);
          }
        }
      }
    }

    /** A binary operator whose left operand needs code. */
    method GenBoth(e: Expr) returns (ok: bool)
      requires regcount <= 4 && e.BinE? && !e.left.RegE?
      modifies this`out, this`regcount
      ensures ok <==> ExprCode(e, old(regcount)).Some?
      ensures ok ==> regcount == old(regcount) + 1 && out == old(out) + ExprCode(e, old(regcount)).value
      decreases e, 0
    {
      ghost var was, k := out, regcount;
      var op, l, r := e.op, e.left, e.right;
      ok := GenExpr(l);
      if ok && r.RegE? {
        Emit(Ins(BinInstr(op, Scr(regcount - 1), r.r)));
      } else if ok && r.NumE? && op.ArithB? {
        Emit(Ins(Arith(op.aop, Scr(regcount - 1), NumOp(r.n))));
      } else if ok {
        ok := GenExpr(r);
        if ok {
          Emit(Ins(BinInstr(op, Scr(regcount - 2), Scr(regcount - 1))));
          regcount := regcount - 1;
          assert out == was + (ExprCode(l, k).value + ExprCode(r, k + 1).value + [Ins(BinInstr(op, Scr(k), Scr(k + 1)))]);
        }
      }
    }

    method GenStore(d: Dest, rhs: Rhs) returns (ok: bool)
      requires regcount <= 1
      modifies this`out, this`regcount
      ensures ok <==> StoreCode(d, rhs, old(regcount)).Some?
      ensures ok ==> regcount == old(regcount) && out == old(out) + StoreCode(d, rhs, old(regcount)).value
    {
      ok := true;
      if rhs.PortR? {
        Emit(MoveLine(regcount, FromReg(rhs.p)));
        Emit(Ins(Mov(d, FromReg(Scr(regcount)))));
      } else if rhs.e.RegE? {
        Emit(Ins(Mov(d, FromReg(rhs.e.r))));
      } else if rhs.e.NumE? {
        Emit(Ins(Mov(d, FromNum(rhs.e.n))));
      } else if rhs.e.TextE? {
        Emit(Ins(Mov(d, FromText(rhs.e.s))));
      } else {
        ok := GenExpr(rhs.e);
        if ok {
          Emit(Ins(Mov(d, FromReg(Scr(regcount - 1)))));
          regcount := regcount - 1;
        }
      }
    }

    /** NODE_ASSIGN (spl/spl.c:908-1045). */
    method GenAssign(t: Target, rhs: Rhs) returns (ok: bool)
      requires regcount == 0
      modifies this`out, this`regcount
      ensures ok <==> AssignCode(t, rhs).Some?
      ensures ok ==> regcount == 0 && out == old(out) + AssignCode(t, rhs).value
    {
      if t.RegT? {
        ok := GenStore(ToReg(t.r), rhs);
      } else if t.a.NumE? {
        ok := GenStore(ToCell(ByNum(t.a.n)), rhs);
      } else if t.a.RegE? {
        ok := GenStore(ToCell(ByReg(t.a.r)), rhs);
      } else {
        ok := GenExpr(t.a);
        if ok {
          ok := GenStore(ToCell(ByReg(Scr(regcount - 1))), rhs);
          if ok {
            regcount := regcount - 1;
          }
        }
      }
    }

    method GenTest(c: Expr, exit: nat) returns (ok: bool)
      requires regcount == 0
      modifies this`out, this`regcount
      ensures ok <==> TestCode(c, exit).Some?
      ensures ok ==> regcount == 0 && out == old(out) + TestCode(c, exit).value
    {
      ok := true;
      if c.RegE? {
        Emit(Ins(Jz(c.r, exit)));
      } else {
        ok := GenExpr(c);
        if ok {
          Emit(Ins(Jz(Scr(regcount - 1), exit)));
          regcount := regcount - 1;
        }
      }
    }

    /** NODE_MULTIPUSH walks the list of registers (spl/spl.c:1188-1197). */
    method GenPush(rs: seq<Reg>)
      modifies this`out
      ensures out == old(out) + PushLines(rs)
    {
      var i := 0;
      while i < |rs|
        invariant 0 <= i <= |rs|
        invariant out == old(out) + PushLines(rs)[..i]
      {
        Emit(Ins(Push(rs[i])));
        i := i + 1;
      }
    }

    /** NODE_MULTIPOP reverses the list first (spl/spl.c:1199-1221). */
    method GenPop(rs: seq<Reg>)
      modifies this`out
      ensures out == old(out) + PopLines(rs)
    {
      var reversed, rest := [], rs;
      while rest != []
        invariant |reversed| + |rest| == |rs| && rest == rs[|reversed|..]
        invariant forall j | 0 <= j < |reversed| :: reversed[j] == rs[|reversed| - 1 - j]
        decreases |rest|
      {
        reversed, rest := [rest[0]] + reversed, rest[1..];
      }
      var i := 0;
      while i < |reversed|
        invariant 0 <= i <= |reversed|
        invariant out == old(out) + PopLines(rs)[..i]
      {
        Emit(Ins(Pop(reversed[i])));
        i := i + 1;
      }
    }

    /** What a statement's generator promises about the compiler's globals. */
    twostate predicate Emits(s: Stmt, ok: bool)
      reads this
    {
      var r := StmtCode(s, old(namegen), old(whiles));
      && (ok <==> r.Some?)
      && (ok ==> out == old(out) + r.value.lines && namegen == r.value.next && whiles == old(whiles) && regcount == 0)
    }

    /** NODE_IF (spl/spl.c:1075-1098). */
    method GenIf(s: Stmt) returns (ok: bool)
      requires regcount == 0 && s.If?
      modifies this
      ensures Emits(s, ok)
      decreases s, 0
    {
      ghost var was, n := out, namegen;
      var l1, l2 := namegen, namegen + 1;
      namegen := namegen + 2;
      ok := GenTest(s.c, l1);
      if !ok { return; }
      ok := GenStmt(s.thn);
      if !ok { return; }
      Emit(Ins(Jmp(l2)));
      Emit(LabelDef(l1));
      ok := GenStmt(s.els);
      if !ok { return; }
      Emit(LabelDef(l2));
      ghost var test, x := TestCode(s.c, n).value, StmtCode(s.thn, n + 2, whiles).value;
      ghost var y := StmtCode(s.els, x.next, whiles).value;
      Regroup(was + test + x.lines, [Ins(Jmp(l2))], [LabelDef(l1)], y.lines + [LabelDef(l2)]);
      assert out == was + test + x.lines + ([Ins(Jmp(l2))] + [LabelDef(l1)] + (y.lines + [LabelDef(l2)]));
      Regroup(was, test, x.lines, [Ins(Jmp(l2))] + [LabelDef(l1)] + (y.lines + [LabelDef(l2)]));
      assert [Ins(Jmp(l2))] + [LabelDef(l1)] == [Ins(Jmp(l2)), LabelDef(l1)];
    }

    /** NODE_WHILE (spl/spl.c:1100-1124). */
    method GenWhile(s: Stmt) returns (ok: bool)
      requires regcount == 0 && s.While?
      modifies this
      ensures Emits(s, ok)
      decreases s, 0
    {
      ghost var was, n := out, namegen;
      var l1, l2 := namegen, namegen + 1;
      namegen := namegen + 2;
      whiles := [Loop(l1, l2)] + whiles;
      Emit(LabelDef(l1));
      ok := GenTest(s.c, l2);
      if !ok { return; }
      ok := GenStmt(s.body);
      if !ok { return; }
      Emit(Ins(Jmp(l1)));
      whiles := whiles[1..];
      Emit(LabelDef(l2));
      ghost var test, x := TestCode(s.c, n + 1).value, StmtCode(s.body, n + 2, [Loop(l1, l2)] + whiles).value;
      Regroup(was + [LabelDef(n)] + test, x.lines, [Ins(Jmp(n))], [LabelDef(n + 1)]);
      assert [Ins(Jmp(n))] + [LabelDef(n + 1)] == [Ins(Jmp(n)), LabelDef(n + 1)];
      Regroup(was, [LabelDef(n)], test, x.lines + [Ins(Jmp(n)), LabelDef(n + 1)]);
    }

    /** codegen on a statement. */
    method GenStmt(s: Stmt) returns (ok: bool)
      requires regcount == 0
      modifies this
      ensures Emits(s, ok)
      decreases s, 1
    {
      ok := true;
      match s {
        case Skip =>
        case Seq(a, b) =>
          ok := GenStmt(a);
          if ok {
            ok := GenStmt(b);
          }
        case Assign(t, rhs) => ok := GenAssign(t, rhs);
        case If(_, _, _) => ok := GenIf(s);
        case While(_, _) => ok := GenWhile(s);
        case Break =>
          ok := whiles != [];
          if ok {
            Emit(Ins(Jmp(whiles[0].end)));
          }
        case Continue =>
          ok := whiles != [];
          if ok {
            Emit(Ins(Jmp(whiles[0].start)));
          }
        case MultiPush(rs) => GenPush(rs);
        case MultiPop(rs) => GenPop(rs);
      }
    }
  }
}
