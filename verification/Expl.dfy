/** The scalar fragment of ExpL: expressions with short-circuit AND and OR, calls with
    call-free arguments, assignments, if, while, and functions that end in a return
    (expl/abstree.y:347-366, 378-430, 581-735). Names are resolved to positions. */
module Expl {
  import opened Words

  datatype Expr =
    | Num(n: int)
    | Text(s: string)
    | Local(i: nat)
    | Param(i: nat)
    | Global(i: nat)
    | Arith(aop: ArithOp, left: Expr, right: Expr)
    | Rel(rop: RelOp, left: Expr, right: Expr)
    | And(left: Expr, right: Expr)
    | Or(left: Expr, right: Expr)
    | Not(e: Expr)
    | Call(f: nat, args: seq<Expr>)

  datatype Stmt =
    | Skip
    | Seq(first: Stmt, second: Stmt)
    | SetLocal(i: nat, e: Expr)
    | SetParam(i: nat, e: Expr)
    | SetGlobal(i: nat, e: Expr)
    | If(c: Expr, body: Stmt)
    | IfElse(c: Expr, a: Stmt, b: Stmt)
    | While(c: Expr, body: Stmt)

  datatype Fun = Fun(params: nat, locals: nat, body: Stmt, ret: Expr)

  type Program = seq<Fun>

  // ---- what the type checker and the fragment ask

  predicate Boolean(e: Expr) {
    e.Rel? || e.And? || e.Or? || e.Not?
  }

  /** The code of AND and OR leaves a number that is only right as a truth value. */
  predicate Loose(e: Expr) {
    e.And? || e.Or?
  }

  predicate CallFree(e: Expr) {
    match e
    case Arith(_, l, r) => CallFree(l) && CallFree(r)
    case Rel(_, l, r) => CallFree(l) && CallFree(r)
    case And(l, r) => CallFree(l) && CallFree(r)
    case Or(l, r) => CallFree(l) && CallFree(r)
    case Not(x) => CallFree(x)
    case Call(_, _) => false
    case _ => true
  }

  /** Names are bound, operands of AND, OR and NOT are boolean, and the value of an AND or
      OR is used only as a truth value. */
  predicate ExprOk(p: Program, fn: Fun, globals: nat, e: Expr) {
    match e
    case Num(_) => true
    case Text(_) => true
    case Local(i) => i < fn.locals
    case Param(i) => i < fn.params
    case Global(i) => i < globals
    case Arith(_, l, r) => ExprOk(p, fn, globals, l) && ExprOk(p, fn, globals, r) && !Loose(l) && !Loose(r)
    case Rel(_, l, r) => ExprOk(p, fn, globals, l) && ExprOk(p, fn, globals, r) && !Loose(l) && !Loose(r)
    case And(l, r) => ExprOk(p, fn, globals, l) && ExprOk(p, fn, globals, r) && Boolean(l) && Boolean(r)
    case Or(l, r) => ExprOk(p, fn, globals, l) && ExprOk(p, fn, globals, r) && Boolean(l) && Boolean(r)
    case Not(x) => ExprOk(p, fn, globals, x) && Boolean(x)
    case Call(f, args) =>
      f < |p| && |args| == p[f].params && forall a | a in args :: ExprOk(p, fn, globals, a) && CallFree(a) && !Loose(a)
  }

  predicate StmtOk(p: Program, fn: Fun, globals: nat, s: Stmt) {
    match s
    case Skip => true
    case Seq(a, b) => StmtOk(p, fn, globals, a) && StmtOk(p, fn, globals, b)
    case SetLocal(i, e) => i < fn.locals && ExprOk(p, fn, globals, e) && !Loose(e)
    case SetParam(i, e) => i < fn.params && ExprOk(p, fn, globals, e) && !Loose(e)
    case SetGlobal(i, e) => i < globals && ExprOk(p, fn, globals, e) && !Loose(e)
    case If(c, b) => ExprOk(p, fn, globals, c) && Boolean(c) && StmtOk(p, fn, globals, b)
    case IfElse(c, a, b) => ExprOk(p, fn, globals, c) && Boolean(c) && StmtOk(p, fn, globals, a) && StmtOk(p, fn, globals, b)
    case While(c, b) => ExprOk(p, fn, globals, c) && Boolean(c) && StmtOk(p, fn, globals, b)
  }

  predicate ProgramOk(p: Program, globals: nat) {
    forall f | 0 <= f < |p| ::
      StmtOk(p, p[f], globals, p[f].body) && ExprOk(p, p[f], globals, p[f].ret) && !Loose(p[f].ret)
  }

  // ---- meaning

  /** A local variable has no value before its first assignment. */
  datatype Slot = Unset | Set(w: Word)

  datatype Frame = Frame(params: seq<Word>, locals: seq<Slot>)

  /** Yields: a word, and the globals after calls. Fails: a division by zero. Open: an unset
      variable was read, and from there on the value is not defined. Endless: the fuel ran out. */
  datatype Res = Yields(w: Word, g: seq<Word>) | Fails | Open | Endless

  datatype Args = Words(ws: seq<Word>) | NoWords(r: Res)

  datatype Out = Done(fr: Frame, g: seq<Word>) | Stops(r: Res)

  predicate FrameOk(fn: Fun, fr: Frame) {
    |fr.params| == fn.params && |fr.locals| == fn.locals
  }

  function Bool(b: bool): Word {
    Int(if b then 1 else 0)
  }

  predicate IsTrue(w: Word) {
    w == Int(1)
  }

  function Eval(p: Program, fn: Fun, e: Expr, fr: Frame, g: seq<Word>, fuel: nat): (r: Res)
    requires ProgramOk(p, |g|) && ExprOk(p, fn, |g|, e) && FrameOk(fn, fr)
    ensures r.Yields? ==> |r.g| == |g|
    decreases fuel, 1, e, 1
  {
    match e
    case Num(n) => Yields(Int(n), g)
    case Text(s) => Yields(Str(s), g)
    case Local(i) => if fr.locals[i].Unset? then Open else Yields(fr.locals[i].w, g)
    case Param(i) => Yields(fr.params[i], g)
    case Global(i) => Yields(g[i], g)
    case Arith(op, l, r) =>
      var a := Eval(p, fn, l, fr, g, fuel);
      if !a.Yields? then a
      else
        var b := Eval(p, fn, r, fr, a.g, fuel);
        if !b.Yields? then b
        else if !ArithDefined(op, ToInt(b.w)) then Fails
        else Yields(Int(ArithValue(op, ToInt(a.w), ToInt(b.w))), b.g)
    case Rel(op, l, r) =>
      var a := Eval(p, fn, l, fr, g, fuel);
      if !a.Yields? then a
      else
        var b := Eval(p, fn, r, fr, a.g, fuel);
        if !b.Yields? then b else Yields(RelValue(op, a.w, b.w), b.g)
    case And(l, r) =>
      var a := Eval(p, fn, l, fr, g, fuel);
      if !a.Yields? then a else if !IsTrue(a.w) then Yields(Bool(false), a.g) else Truthy(Eval(p, fn, r, fr, a.g, fuel))
    case Or(l, r) =>
      var a := Eval(p, fn, l, fr, g, fuel);
      if !a.Yields? then a else if IsTrue(a.w) then Yields(Bool(true), a.g) else Truthy(Eval(p, fn, r, fr, a.g, fuel))
    case Not(x) =>
      var a := Eval(p, fn, x, fr, g, fuel);
      if !a.Yields? then a else Yields(Bool(!IsTrue(a.w)), a.g)
    case Call(f, args) =>
      var a := EvalArgs(p, fn, args, fr, g, fuel);
      if a.NoWords? then a.r else if fuel == 0 then Endless else Apply(p, f, a.ws, g, fuel - 1)
  }

  function Truthy(r: Res): Res {
    if r.Yields? then Yields(Bool(IsTrue(r.w)), r.g) else r
  }

  /** The last argument is evaluated first. */
  function EvalArgs(p: Program, fn: Fun, args: seq<Expr>, fr: Frame, g: seq<Word>, fuel: nat): (r: Args)
    requires ProgramOk(p, |g|) && FrameOk(fn, fr) && forall a | a in args :: ExprOk(p, fn, |g|, a)
    ensures r.Words? ==> |r.ws| == |args|
    ensures r.NoWords? ==> !r.r.Yields?
    decreases fuel, 1, args, 0
  {
    if args == [] then Words([])
    else
      var rest := EvalArgs(p, fn, args[1..], fr, g, fuel);
      if rest.NoWords? then rest
      else
        var a := Eval(p, fn, args[0], fr, g, fuel);
        if a.Yields? then Words([a.w] + rest.ws) else NoWords(a)
  }

  function Fresh(fn: Fun, ws: seq<Word>): Frame {
    Frame(ws, seq(fn.locals, _ => Unset))
  }

  /** A function applied to argument values. */
  function Apply(p: Program, f: nat, ws: seq<Word>, g: seq<Word>, fuel: nat): (r: Res)
    requires ProgramOk(p, |g|) && f < |p| && |ws| == p[f].params
    ensures r.Yields? ==> |r.g| == |g|
    decreases fuel, 2
  {
    var o := Exec(p, p[f], p[f].body, Fresh(p[f], ws), g, fuel);
    if o.Stops? then o.r else Eval(p, p[f], p[f].ret, o.fr, o.g, fuel)
  }

  function Exec(p: Program, fn: Fun, s: Stmt, fr: Frame, g: seq<Word>, fuel: nat): (r: Out)
    requires ProgramOk(p, |g|) && StmtOk(p, fn, |g|, s) && FrameOk(fn, fr)
    ensures r.Done? ==> |r.g| == |g| && FrameOk(fn, r.fr)
    ensures r.Stops? ==> !r.r.Yields?
    decreases fuel, 1, s, 2
  {
    match s
    case Skip => Done(fr, g)
    case Seq(a, b) =>
      var o := Exec(p, fn, a, fr, g, fuel);
      if o.Stops? then o else Exec(p, fn, b, o.fr, o.g, fuel)
    case SetLocal(i, e) =>
      var v := Eval(p, fn, e, fr, g, fuel);
      if v.Yields? then Done(fr.(locals := fr.locals[i := Set(v.w)]), v.g) else Stops(v)
    case SetParam(i, e) =>
      var v := Eval(p, fn, e, fr, g, fuel);
      if v.Yields? then Done(fr.(params := fr.params[i := v.w]), v.g) else Stops(v)
    case SetGlobal(i, e) =>
      var v := Eval(p, fn, e, fr, g, fuel);
      if v.Yields? then Done(fr, v.g[i := v.w]) else Stops(v)
    case If(c, b) =>
      var v := Eval(p, fn, c, fr, g, fuel);
      if !v.Yields? then Stops(v) else if IsTrue(v.w) then Exec(p, fn, b, fr, v.g, fuel) else Done(fr, v.g)
    case IfElse(c, a, b) =>
      var v := Eval(p, fn, c, fr, g, fuel);
      if !v.Yields? then Stops(v) else if IsTrue(v.w) then Exec(p, fn, a, fr, v.g, fuel) else Exec(p, fn, b, fr, v.g, fuel)
    case While(c, b) =>
      var v := Eval(p, fn, c, fr, g, fuel);
      if !v.Yields? then Stops(v)
      else if !IsTrue(v.w) then Done(fr, v.g)
      else if fuel == 0 then Stops(Endless)
      else
        var o := Exec(p, fn, b, fr, v.g, fuel - 1);
        if o.Stops? then o else Exec(p, fn, s, o.fr, o.g, fuel - 1)
  }

  /** Without calls evaluation leaves the globals alone. */
  lemma {:induction false} CallFreeIsPure(p: Program, fn: Fun, e: Expr, fr: Frame, g: seq<Word>, fuel: nat)
    requires ProgramOk(p, |g|) && ExprOk(p, fn, |g|, e) && FrameOk(fn, fr) && CallFree(e)
    ensures var r := Eval(p, fn, e, fr, g, fuel); r.Yields? ==> r.g == g
    decreases e
  {
    hide Apply, EvalArgs, ProgramOk;
    match e {
      case Arith(_, l, r) =>
        CallFreeIsPure(p, fn, l, fr, g, fuel);
        CallFreeIsPure(p, fn, r, fr, g, fuel);
      case Rel(_, l, r) =>
        CallFreeIsPure(p, fn, l, fr, g, fuel);
        CallFreeIsPure(p, fn, r, fr, g, fuel);
      case And(l, r) =>
        CallFreeIsPure(p, fn, l, fr, g, fuel);
        CallFreeIsPure(p, fn, r, fr, g, fuel);
      case Or(l, r) =>
        CallFreeIsPure(p, fn, l, fr, g, fuel);
        CallFreeIsPure(p, fn, r, fr, g, fuel);
      case Not(x) => CallFreeIsPure(p, fn, x, fr, g, fuel);
      case _ =>
    }
  }

  /** A boolean tree has a truth value. */
  lemma {:induction false} BooleanIsBit(p: Program, fn: Fun, e: Expr, fr: Frame, g: seq<Word>, fuel: nat)
    requires ProgramOk(p, |g|) && ExprOk(p, fn, |g|, e) && FrameOk(fn, fr) && Boolean(e)
    ensures var r := Eval(p, fn, e, fr, g, fuel); r.Yields? ==> r.w == Int(0) || r.w == Int(1)
  {
    hide Apply, EvalArgs, ProgramOk, ArithValue;
  }
}
