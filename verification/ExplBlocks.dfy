/** What the straight pieces of generated ExpL code do to registers and stack. */
module ExplBlocks {
  import opened Words
  import X = Xsm
  import opened Assembly
  import opened Expl
  import opened ExplCode

  type State = X.State

  function Sp(m: State): int {
    ToInt(m.regs[X.SP])
  }

  function Bp(m: State): int {
    ToInt(m.regs[X.BP])
  }

  /** A push had no room: the stack has reached the end of memory. */
  predicate Full(m: State) {
    m.status == X.Faulted && Sp(m) >= |m.mem|
  }

  // ---- straight-line code

  predicate Plain(l: Line) {
    l.Ins? && (l.i.Mov? || l.i.Arith? || l.i.Logic? || l.i.Push? || l.i.Pop?)
  }

  function AsInt(l: Line): X.Instr<int>
    requires Plain(l)
  {
    match l.i
    case Mov(d, src) => X.Mov(d, src)
    case Arith(op, a, o) => X.Arith(op, a, o)
    case Logic(op, a, b) => X.Logic(op, a, b)
    case Push(r) => X.Push(r)
    case Pop(r) => X.Pop(r)
  }

  function Do(l: Line, m: State): State
    requires Plain(l)
  {
    if m.status != X.Running then m else X.Exec(AsInt(l), m.(ip := m.ip + 2))
  }

  predicate AllPlain(ls: seq<Line>) {
    forall i | 0 <= i < |ls| :: Plain(ls[i])
  }

  function Straight(ls: seq<Line>, m: State): State
    requires AllPlain(ls)
  {
    if ls == [] then m else Straight(ls[1..], Do(ls[0], m))
  }

  lemma {:induction false} StraightStops(ls: seq<Line>, m: State)
    requires AllPlain(ls) && m.status != X.Running
    ensures Straight(ls, m) == m
  {
    if ls != [] {
      StraightStops(ls[1..], m);
    }
  }

  lemma {:induction false} StraightAppend(a: seq<Line>, b: seq<Line>, m: State)
    requires AllPlain(a) && AllPlain(b)
    ensures AllPlain(a + b) && Straight(a + b, m) == Straight(b, Straight(a, m))
  {
    if a == [] {
      assert a + b == b;
    } else {
      assert (a + b)[0] == a[0] && (a + b)[1..] == a[1..] + b;
      StraightAppend(a[1..], b, Do(a[0], m));
    }
  }

  /** Straight-line code in a file runs as Straight says. */
  lemma {:induction false} StraightRuns(lines: seq<Line>, base: int, k: nat, ls: seq<Line>, m: State) returns (steps: nat)
    requires Closed(lines) && AtLine(lines, base, k, m) && CodeAt(lines, k, ls) && AllPlain(ls)
    ensures Reaches(lines, base, m, steps, Straight(ls, m))
    ensures Straight(ls, m).status == X.Running ==> AtLine(lines, base, k + |ls|, Straight(ls, m))
    decreases |ls|
  {
    hide Reaches, Closed;
    if ls == [] {
      steps := 0;
      ReachesNone(lines, base, m);
    } else {
      assert ls == [ls[0]] + ls[1..];
      CodeAtSplit(lines, k, [ls[0]], ls[1..]);
      assert AllPlain(ls[1..]) by { forall i | 0 <= i < |ls[1..]| ensures Plain(ls[1..][i]) { assert ls[1..][i] == ls[i + 1]; } }
      OneRuns(lines, base, k, m);
      var m1 := Do(ls[0], m);
      if m1.status == X.Running {
        var rest := StraightRuns(lines, base, k + 1, ls[1..], m1);
        ReachesAdd(lines, base, m, 1, m1, rest, Straight(ls, m));
        steps := 1 + rest;
      } else {
        steps := 1;
        StraightStops(ls[1..], m1);
      }
    }
  }

  lemma OneRuns(lines: seq<Line>, base: int, k: nat, m: State)
    requires Closed(lines) && AtLine(lines, base, k, m) && k < |lines| && Plain(lines[k])
    ensures Reaches(lines, base, m, 1, Do(lines[k], m))
    ensures Do(lines[k], m).status == X.Running ==> AtLine(lines, base, k + 1, Do(lines[k], m))
  {
    hide Reaches, Closed;
    ReachesOne(lines, base, k, m);
  }

  // ---- addresses

  /** Only registers a and b may differ, and the machine still runs. */
  predicate OnlyRegs(m: State, m': State, a: nat, b: nat) {
    m'.status == X.Running && m'.mem == m.mem && forall r: X.Reg | r != a && r != b :: m'.regs[r] == m.regs[r]
  }

  lemma LocalAddressDoes(i: nat, a: nat, b: nat, m: State)
    requires a < 20 && b < 20 && a != b && m.status == X.Running
    ensures AllPlain(LocalAddress(i, a, b))
    ensures var m' := Straight(LocalAddress(i, a, b), m); OnlyRegs(m, m', a, b) && m'.regs[a] == Int(Bp(m) + i + 1)
  {
    var ls := LocalAddress(i, a, b);
    var m1 := Do(ls[0], m);
    var m2 := Do(ls[1], m1);
    var m3 := Do(ls[2], m2);
    assert ls[1..][0] == ls[1] && ls[1..][1..] == ls[2..] && ls[2..][0] == ls[2] && ls[2..][1..] == [];
    assert Straight(ls, m) == Straight(ls[1..], m1) == Straight(ls[2..], m2) == m3;
  }

  lemma ParamAddressDoes(i: nat, a: nat, b: nat, m: State)
    requires a < 20 && b < 20 && a != b && m.status == X.Running
    ensures AllPlain(ParamAddress(i, a, b))
    ensures var m' := Straight(ParamAddress(i, a, b), m); OnlyRegs(m, m', a, b) && m'.regs[a] == Int(Bp(m) - 2 - (i + 1))
  {
    var ls := ParamAddress(i, a, b);
    var m1 := Do(ls[0], m);
    var m2 := Do(ls[1], m1);
    var m3 := Do(ls[2], m2);
    var m4 := Do(ls[3], m3);
    var m5 := Do(ls[4], m4);
    assert ls[1..][0] == ls[1] && ls[1..][1..] == ls[2..] && ls[2..][0] == ls[2] && ls[2..][1..] == ls[3..];
    assert ls[3..][0] == ls[3] && ls[3..][1..] == ls[4..] && ls[4..][0] == ls[4] && ls[4..][1..] == [];
    assert Straight(ls, m) == Straight(ls[1..], m1) == Straight(ls[2..], m2) == Straight(ls[3..], m3) == Straight(ls[4..], m4) == m5;
  }

  // ---- saving and restoring registers

  /** The first words above stack pointer s are the registers R0 to R(k-1) of m. */
  predicate SavedAt(mem: seq<Word>, s: int, k: nat, m: State)
    requires k <= 20
  {
    0 <= s + 1 && s + k < |mem| && forall i | 0 <= i < k :: mem[s + 1 + i] == m.regs[i]
  }

  predicate StackIs(m: State, s: int) {
    m.regs[X.SP] == Int(s) && 0 <= s < |m.mem|
  }

  /** Nothing but SP changes among the registers, and memory only above stack pointer s. */
  predicate Pushed(m: State, m': State, s: int) {
    && m'.status == X.Running && |m'.mem| == |m.mem| && (forall r: X.Reg | r != X.SP :: m'.regs[r] == m.regs[r])
    && forall a | 0 <= a <= s && a < |m.mem| :: m'.mem[a] == m.mem[a]
  }

  lemma PlainStack()
    ensures forall k: nat | k <= 20 :: AllPlain(Saves(k)) && AllPlain(Restores(k))
    ensures forall m: nat :: AllPlain(Pushes(m))
    ensures forall r: nat, m: nat | r < 20 :: AllPlain(Pops(r, m))
  {
  }

  lemma {:induction false} SavesDo(k: nat, m: State)
    requires k <= 20 && m.status == X.Running && StackIs(m, Sp(m))
    ensures AllPlain(Saves(k))
    ensures var m', s := Straight(Saves(k), m), Sp(m);
            Full(m') || (Pushed(m, m', s) && StackIs(m', s + k) && SavedAt(m'.mem, s, k, m))
  {
    PlainStack();
    if k > 0 {
      SavesDo(k - 1, m);
      assert Saves(k) == Saves(k - 1) + [Ins(X.Push(k - 1))];
      StraightAppend(Saves(k - 1), [Ins(X.Push(k - 1))], m);
      var m1 := Straight(Saves(k - 1), m);
      var m2 := Do(Ins(X.Push(k - 1)), m1);
      assert [Ins(X.Push(k - 1))][1..] == [];
      assert Straight(Saves(k), m) == m2;
    }
  }

  lemma {:induction false} PushesDo(c: nat, m: State)
    requires m.status == X.Running && StackIs(m, Sp(m))
    ensures AllPlain(Pushes(c))
    ensures var m', s := Straight(Pushes(c), m), Sp(m); Full(m') || (Pushed(m, m', s) && StackIs(m', s + c))
  {
    PlainStack();
    if c > 0 {
      PushesDo(c - 1, m);
      assert Pushes(c) == Pushes(c - 1) + [Ins(X.Push(0))];
      StraightAppend(Pushes(c - 1), [Ins(X.Push(0))], m);
      var m1 := Straight(Pushes(c - 1), m);
      assert [Ins(X.Push(0))][1..] == [];
      assert Straight(Pushes(c), m) == Do(Ins(X.Push(0)), m1);
    }
  }

  lemma {:induction false} PopsDo(r: nat, c: nat, m: State)
    requires r < 20 && m.status == X.Running && StackIs(m, Sp(m)) && c <= Sp(m)
    ensures AllPlain(Pops(r, c))
    ensures var m' := Straight(Pops(r, c), m);
            m'.status == X.Running && m'.mem == m.mem && StackIs(m', Sp(m) - c)
            && forall q: X.Reg | q != r && q != X.SP :: m'.regs[q] == m.regs[q]
  {
    PlainStack();
    if c > 0 {
      PopsDo(r, c - 1, m);
      assert Pops(r, c) == Pops(r, c - 1) + [Ins(X.Pop(r))];
      StraightAppend(Pops(r, c - 1), [Ins(X.Pop(r))], m);
      assert [Ins(X.Pop(r))][1..] == [];
      assert Straight(Pops(r, c), m) == Do(Ins(X.Pop(r)), Straight(Pops(r, c - 1), m));
    }
  }

  /** Popping R(k-1) to R0 brings the saved registers back. */
  lemma {:induction false} RestoresDo(k: nat, m: State, was: State)
    requires k <= 20 && m.status == X.Running && StackIs(m, Sp(m)) && k <= Sp(m) && SavedAt(m.mem, Sp(m) - k, k, was)
    ensures AllPlain(Restores(k))
    ensures var m' := Straight(Restores(k), m);
            m'.status == X.Running && m'.mem == m.mem && StackIs(m', Sp(m) - k)
            && (forall q: X.Reg | q >= k && q != X.SP :: m'.regs[q] == m.regs[q])
            && forall q: X.Reg | q < k :: m'.regs[q] == was.regs[q]
    decreases k
  {
    PlainStack();
    if k > 0 {
      assert Restores(k) == [Ins(X.Pop(k - 1))] + Restores(k - 1);
      StraightAppend([Ins(X.Pop(k - 1))], Restores(k - 1), m);
      var m1 := Do(Ins(X.Pop(k - 1)), m);
      assert [Ins(X.Pop(k - 1))][1..] == [];
      assert Straight([Ins(X.Pop(k - 1))], m) == m1;
      RestoresDo(k - 1, m1, was);
    }
  }
}
