/** Syntax trees of SPL after parsing (spl/splparser.y, spl/node.h) and their
    meaning as a big-step evaluator. Registers and memory words are XSM words. */
module Spl {
  import opened Words
  import opened Xsm

  datatype BinOp = RelB(rel: RelOp) | ArithB(aop: ArithOp) | AndB | OrB

  datatype Expr =
    | NumE(n: int)
    | TextE(s: string)
    | RegE(r: Reg)
    | BinE(op: BinOp, left: Expr, right: Expr)
    | NotE(e: Expr)
    | CellE(e: Expr)

  datatype Target = RegT(r: Reg) | CellT(a: Expr)

  datatype Rhs = ExprR(e: Expr) | PortR(p: Reg)

  datatype Stmt =
    | Skip
    | Seq(s1: Stmt, s2: Stmt)
    | Assign(t: Target, rhs: Rhs)
    | If(c: Expr, thn: Stmt, els: Stmt)
    | While(c: Expr, body: Stmt)
    | Break
    | Continue
    | MultiPush(rs: seq<Reg>)
    | MultiPop(rs: seq<Reg>)

  /** R16-R19 belong to the compiler. */
  predicate Scratch(r: Reg) {
    16 <= r < 20
  }

  predicate IsPort(r: Reg) {
    20 <= r < 24
  }

  /** The registers that the lexer can put into a tree. */
  predicate UserReg(r: Reg) {
    !Scratch(r) && !IsPort(r)
  }

  predicate ExprOk(e: Expr) {
    match e
    case NumE(_) => true
    case TextE(_) => true
    case RegE(r) => UserReg(r)
    case BinE(_, l, r) => ExprOk(l) && ExprOk(r)
    case NotE(x) => ExprOk(x)
    case CellE(x) => ExprOk(x)
  }

  predicate StmtOk(s: Stmt) {
    match s
    case Skip => true
    case Seq(a, b) => StmtOk(a) && StmtOk(b)
    case Assign(t, rhs) =>
      && (match t case RegT(r) => UserReg(r) case CellT(a) => ExprOk(a) && a != RegE(IP))
      && (match rhs case ExprR(e) => ExprOk(e) case PortR(p) => IsPort(p))
    case If(c, a, b) => ExprOk(c) && StmtOk(a) && StmtOk(b)
    case While(c, b) => ExprOk(c) && StmtOk(b)
    case Break => true
    case Continue => true
    case MultiPush(rs) => forall i | 0 <= i < |rs| :: UserReg(rs[i])
    case MultiPop(rs) => forall i | 0 <= i < |rs| :: UserReg(rs[i])
  }

  datatype Store = Store(regs: RegFile, mem: seq<Word>)

  /** && is emitted as a product and || as a sum (spl/spl.c:496-560). */
  function BinValue(op: BinOp, l: Word, r: Word): Fetched {
    match op
    case RelB(rel) => Value(RelValue(rel, l, r))
    case ArithB(a) => if ArithDefined(a, ToInt(r)) then Value(Int(ArithValue(a, ToInt(l), ToInt(r)))) else NoValue
    case AndB => Value(Int(ToInt(l) * ToInt(r)))
    case OrB => Value(Int(ToInt(l) + ToInt(r)))
  }

  /** The value of an expression; NoValue when the machine would stop: division
      by zero, an address outside memory, or the register IP. */
  function Eval(e: Expr, st: Store): Fetched {
    match e
    case NumE(n) => Value(Int(n))
    case TextE(s) => Value(Str(s))
    case RegE(r) => if r == IP then NoValue else Value(st.regs[r])
    case BinE(op, l, r) =>
      var a, b := Eval(l, st), Eval(r, st);
      if a.Value? && b.Value? then BinValue(op, a.w, b.w) else NoValue
    case NotE(x) =>
      (match Eval(x, st)
       case Value(w) => Value(Int(1 - ToInt(w)))
       case NoValue => NoValue)
    case CellE(x) =>
      (match Eval(x, st)
       case Value(w) => if InMemory(ToInt(w), st.mem) then Value(st.mem[ToInt(w)]) else NoValue
       case NoValue => NoValue)
  }

  datatype Outcome = Normal(st: Store) | Broke(st: Store) | Continued(st: Store) | Fault | Timeout

  function RhsValue(rhs: Rhs, st: Store): Fetched {
    match rhs
    case ExprR(e) => Eval(e, st)
    case PortR(p) => Value(st.regs[p])
  }

  function AssignTo(t: Target, w: Word, st: Store): Outcome {
    match t
    case RegT(r) => if r == IP then Fault else Normal(st.(regs := st.regs[r := w]))
    case CellT(a) =>
      (match Eval(a, st)
       case Value(x) => if InMemory(ToInt(x), st.mem) then Normal(st.(mem := st.mem[ToInt(x) := w])) else Fault
       case NoValue => Fault)
  }

  function PushOne(r: Reg, st: Store): Outcome {
    var sp := ToInt(st.regs[SP]) + 1;
    if r == IP || !InMemory(sp, st.mem) then Fault
    else
      var moved := st.(regs := st.regs[SP := Int(sp)]);
      Normal(moved.(mem := st.mem[sp := moved.regs[r]]))
  }

  function PopOne(r: Reg, st: Store): Outcome {
    var sp := ToInt(st.regs[SP]);
    if r == IP || !InMemory(sp, st.mem) then Fault
    else Normal(st.(regs := st.regs[r := st.mem[sp]][SP := Int(sp - 1)]))
  }

  function PushAll(rs: seq<Reg>, st: Store): (o: Outcome)
    ensures o.Normal? || o.Fault?
  {
    if rs == [] then Normal(st)
    else
      var o := PushOne(rs[0], st);
      if o.Normal? then PushAll(rs[1..], o.st) else o
  }

  /** Pops the listed registers from the last to the first. */
  function PopAll(rs: seq<Reg>, st: Store): (o: Outcome)
    ensures o.Normal? || o.Fault?
  {
    if rs == [] then Normal(st)
    else
      var o := PopOne(rs[|rs| - 1], st);
      if o.Normal? then PopAll(rs[..|rs| - 1], o.st) else o
  }

  /** The meaning of a statement, cut off after f turns of any one loop. */
  function Sem(f: nat, s: Stmt, st: Store): Outcome
    decreases f, s
  {
    match s
    case Skip => Normal(st)
    case Seq(a, b) =>
      var o := Sem(f, a, st);
      if o.Normal? then Sem(f, b, o.st) else o
    case Assign(t, rhs) =>
      (match RhsValue(rhs, st)
       case Value(w) => AssignTo(t, w, st)
       case NoValue => Fault)
    case If(c, a, b) =>
      (match Eval(c, st)
       case NoValue => Fault
       case Value(w) => if Truth(w) then Sem(f, a, st) else Sem(f, b, st))
    case While(c, body) =>
      if f == 0 then Timeout
      else
        (match Eval(c, st)
         case NoValue => Fault
         case Value(w) =>
           if !Truth(w) then Normal(st)
           else
             match Sem(f, body, st)
             case Normal(st1) => Sem(f - 1, s, st1)
             case Continued(st1) => Sem(f - 1, s, st1)
             case Broke(st1) => Normal(st1)
             case Fault => Fault
             case Timeout => Timeout)
    case Break => Broke(st)
    case Continue => Continued(st)
    case MultiPush(rs) => PushAll(rs, st)
    case MultiPop(rs) => PopAll(rs, st)
  }

  /** Words that agree everywhere but on the compiler's own registers. */
  predicate SameForUser(a: Store, b: Store) {
    a.mem == b.mem && forall r: Reg | !Scratch(r) :: a.regs[r] == b.regs[r]
  }

  lemma {:induction false} EvalFrame(e: Expr, a: Store, b: Store)
    requires ExprOk(e) && SameForUser(a, b)
    ensures Eval(e, a) == Eval(e, b)
  {
    match e
    case NumE(_) =>
    case TextE(_) =>
    case RegE(_) =>
    case BinE(_, l, r) => EvalFrame(l, a, b); EvalFrame(r, a, b);
    case NotE(x) => EvalFrame(x, a, b);
    case CellE(x) => EvalFrame(x, a, b);
  }

  // ---- conditions ----

  /** Conditions built from comparisons. */
  predicate IsCondition(e: Expr) {
    match e
    case BinE(RelB(_), _, _) => true
    case BinE(AndB, l, r) => IsCondition(l) && IsCondition(r)
    case BinE(OrB, l, r) => IsCondition(l) && IsCondition(r)
    case NotE(x) => IsCondition(x)
    case _ => false
  }

  predicate NegationFree(e: Expr) {
    match e
    case BinE(AndB, l, r) => NegationFree(l) && NegationFree(r)
    case BinE(OrB, l, r) => NegationFree(l) && NegationFree(r)
    case NotE(_) => false
    case _ => true
  }

  /** The logical reading of a condition. */
  predicate Holds(e: Expr, st: Store)
    requires IsCondition(e)
  {
    match e
    case BinE(RelB(_), _, _) => Eval(e, st) == Value(Int(1))
    case BinE(AndB, l, r) => Holds(l, st) && Holds(r, st)
    case BinE(OrB, l, r) => Holds(l, st) || Holds(r, st)
    case NotE(x) => !Holds(x, st)
  }

  /** Without negation, the product-and-sum value is non-negative and non-zero
      exactly when the condition holds. */
  lemma {:induction false} ConditionTruth(e: Expr, st: Store)
    requires IsCondition(e) && NegationFree(e) && Eval(e, st).Value?
    ensures Eval(e, st).w.Int? && Eval(e, st).w.n >= 0
    ensures Truth(Eval(e, st).w) <==> Holds(e, st)
  {
    match e
    case BinE(RelB(_), _, _) =>
    case BinE(AndB, l, r) => ConditionTruth(l, st); ConditionTruth(r, st);
    case BinE(OrB, l, r) => ConditionTruth(l, st); ConditionTruth(r, st);
  }

  /** Every negated part has value 0 or 1. */
  predicate NegatesBits(e: Expr, st: Store) {
    match e
    case BinE(AndB, l, r) => NegatesBits(l, st) && NegatesBits(r, st)
    case BinE(OrB, l, r) => NegatesBits(l, st) && NegatesBits(r, st)
    case NotE(x) => NegatesBits(x, st) && Eval(x, st) in {Value(Int(0)), Value(Int(1))}
    case _ => true
  }

  /** With negation at any depth the value is right when every negated part is a bit. */
  lemma {:induction false} NegatedConditionTruth(e: Expr, st: Store)
    requires IsCondition(e) && NegatesBits(e, st) && Eval(e, st).Value?
    ensures Eval(e, st).w.Int? && Eval(e, st).w.n >= 0
    ensures Truth(Eval(e, st).w) <==> Holds(e, st)
  {
    match e
    case BinE(RelB(_), _, _) =>
    case BinE(AndB, l, r) => NegatedConditionTruth(l, st); NegatedConditionTruth(r, st);
    case BinE(OrB, l, r) => NegatedConditionTruth(l, st); NegatedConditionTruth(r, st);
    case NotE(x) => NegatedConditionTruth(x, st);
  }

  /** Negation is 1 - x, so over a condition that is right itself !e is right exactly when
      e has value 0 or 1. */
  lemma NegationTruth(e: Expr, st: Store)
    requires IsCondition(e) && NegatesBits(e, st) && Eval(e, st).Value?
    ensures (Truth(Eval(NotE(e), st).w) <==> Holds(NotE(e), st)) <==> ToInt(Eval(e, st).w) <= 1
  {
    NegatedConditionTruth(e, st);
  }

  /** With both sides of || true the sum is 2, and its negation counts as true. */
  lemma NegatedOrFails(st: Store) returns (e: Expr)
    ensures IsCondition(e) && NegationFree(e) && Holds(e, st)
    ensures Eval(NotE(e), st).Value? && Truth(Eval(NotE(e), st).w) && !Holds(NotE(e), st)
  {
    var one := BinE(RelB(Eq), NumE(0), NumE(0));
    e := BinE(OrB, one, one);
    assert Eval(one, st) == Value(Int(1));
  }

  // ---- multipush and multipop ----

  predicate Distinct(rs: seq<Reg>) {
    forall i, j | 0 <= i < j < |rs| :: rs[i] != rs[j]
  }

  /** What a run of pushes leaves: SP moved by their number, the words on the
      stack in order, and nothing else changed. */
  lemma {:induction false} PushAllEffect(rs: seq<Reg>, st: Store)
    requires SP !in rs && IP !in rs && st.regs[SP].Int?
    requires -1 <= ToInt(st.regs[SP]) && ToInt(st.regs[SP]) + |rs| < |st.mem|
    ensures PushAll(rs, st).Normal?
    ensures var t := PushAll(rs, st).st; var sp := ToInt(st.regs[SP]);
            && t.regs == st.regs[SP := Int(sp + |rs|)]
            && |t.mem| == |st.mem|
            && (forall i | 0 <= i < |rs| :: t.mem[sp + 1 + i] == st.regs[rs[i]])
            && (forall a | 0 <= a < |st.mem| && !(sp < a <= sp + |rs|) :: t.mem[a] == st.mem[a])
    decreases |rs|
  {
    if rs != [] {
      var o := PushOne(rs[0], st);
      var rest := rs[1..];
      assert forall i | 0 <= i < |rest| :: rest[i] == rs[i + 1];
      assert SP !in rest && IP !in rest;
      PushAllEffect(rest, o.st);
      var t, sp := PushAll(rs, st).st, ToInt(st.regs[SP]);
      forall i | 0 <= i < |rs| ensures t.mem[sp + 1 + i] == st.regs[rs[i]] {
        if i > 0 {
          assert t.mem[sp + 2 + (i - 1)] == o.st.regs[rest[i - 1]];
        }
      }
    }
  }

  /** Popping reads back the words that the stack holds, whatever the registers hold. */
  lemma {:induction false} PopAllEffect(rs: seq<Reg>, st: Store)
    requires SP !in rs && IP !in rs && Distinct(rs) && st.regs[SP].Int?
    requires |rs| - 1 <= ToInt(st.regs[SP]) < |st.mem|
    ensures PopAll(rs, st).Normal?
    ensures var t := PopAll(rs, st).st; var sp := ToInt(st.regs[SP]) - |rs|;
            && t.mem == st.mem
            && t.regs[SP] == Int(sp)
            && (forall i | 0 <= i < |rs| :: t.regs[rs[i]] == st.mem[sp + 1 + i])
            && (forall r: Reg | r !in rs && r != SP :: t.regs[r] == st.regs[r])
    decreases |rs|
  {
    if rs != [] {
      var last := rs[|rs| - 1];
      var o := PopOne(last, st);
      var rest := rs[..|rs| - 1];
      PopAllEffect(rest, o.st);
      assert forall r: Reg :: r in rs <==> r in rest || r == last;
      assert last !in rest;
    }
  }

  /** The frame of a multipush as its multipop finds it: SP where the pushes left
      it and the pushed words still on the stack. */
  ghost predicate StackHolds(rs: seq<Reg>, st: Store, now: Store) {
    var sp := ToInt(st.regs[SP]);
    && now.regs[SP] == Int(sp + |rs|)
    && |now.mem| == |st.mem| && 0 <= sp + 1 && sp + |rs| < |now.mem|
    && (forall i | 0 <= i < |rs| :: now.mem[sp + 1 + i] == st.regs[rs[i]])
  }

  lemma PopAllRestores(rs: seq<Reg>, st: Store, now: Store)
    requires SP !in rs && IP !in rs && Distinct(rs) && st.regs[SP].Int?
    requires -1 <= ToInt(st.regs[SP]) && ToInt(st.regs[SP]) + |rs| < |st.mem|
    requires StackHolds(rs, st, now)
    ensures PopAll(rs, now).Normal? && PopAll(rs, now).st.mem == now.mem
    ensures forall r: Reg :: PopAll(rs, now).st.regs[r] == (if r in rs || r == SP then st.regs[r] else now.regs[r])
  {
    PopAllEffect(rs, now);
  }

  /** multipop of the same list undoes multipush: every register is back, SP
      included, even if the named registers were overwritten in between. */
  lemma PushPopRestores(rs: seq<Reg>, st: Store, between: Store)
    requires SP !in rs && IP !in rs && Distinct(rs) && st.regs[SP].Int?
    requires -1 <= ToInt(st.regs[SP]) && ToInt(st.regs[SP]) + |rs| < |st.mem|
    requires var o := PushAll(rs, st);
             o.Normal? ==> between.mem == o.st.mem && (forall r: Reg | r !in rs :: between.regs[r] == o.st.regs[r])
    ensures PushAll(rs, st).Normal? && PopAll(rs, between).Normal?
    ensures PopAll(rs, between).st.regs == st.regs
  {
    PushAllEffect(rs, st);
    PopAllRestores(rs, st, between);
    var back := PopAll(rs, between).st;
    forall r: Reg | r !in rs && r != SP ensures back.regs[r] == st.regs[r] {
      assert back.regs[r] == between.regs[r];
    }
  }
}
