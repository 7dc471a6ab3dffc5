/** Assembly files as the compiler writes them, and the machine code that the
    label resolver of xfs-interface/labels.c makes of them. Label number n is
    written _Ln (spl/label.c:18-25); Labels.dfy has the resolver's text form. */
module Assembly {
  import opened Words
  import opened Xsm

  datatype Line = LabelDef(id: nat) | Ins(i: Instr<nat>)

  /** How many instructions stand before line k. */
  function Index(lines: seq<Line>, k: nat): nat
    requires k <= |lines|
  {
    if k == 0 then 0 else Index(lines, k - 1) + (if lines[k - 1].Ins? then 1 else 0)
  }

  datatype Found = At(offset: nat) | Missing

  /** Phase one keeps a list with the latest definition first, so the last
      definition in the file wins. Offsets count words from the file's start. */
  function LabelOffset(lines: seq<Line>, id: nat): Found {
    if lines == [] then Missing
    else if lines[|lines| - 1] == LabelDef(id) then At(INSTR_SIZE * Index(lines, |lines| - 1))
    else LabelOffset(lines[..|lines| - 1], id)
  }

  predicate TargetKnown(lines: seq<Line>, i: Instr<nat>) {
    match i
    case Jmp(t) => LabelOffset(lines, t).At?
    case Jz(_, t) => LabelOffset(lines, t).At?
    case Jnz(_, t) => LabelOffset(lines, t).At?
    case Call(t) => LabelOffset(lines, t).At?
    case _ => true
  }

  /** Every jump goes to a label of the file. */
  predicate Closed(lines: seq<Line>) {
    forall k | 0 <= k < |lines| && lines[k].Ins? :: TargetKnown(lines, lines[k].i)
  }

  predicate DistinctLabels(lines: seq<Line>) {
    forall j, k | 0 <= j < k < |lines| && lines[j].LabelDef? :: lines[j] != lines[k]
  }

  function Patch(lines: seq<Line>, base: int, i: Instr<nat>): Instr<int>
    requires TargetKnown(lines, i)
  {
    match i
    case Mov(d, src) => Mov(d, src)
    case Arith(op, l, o) => Arith(op, l, o)
    case Logic(op, l, r) => Logic(op, l, r)
    case Jmp(t) => Jmp(base + LabelOffset(lines, t).offset)
    case Jz(r, t) => Jz(r, base + LabelOffset(lines, t).offset)
    case Jnz(r, t) => Jnz(r, base + LabelOffset(lines, t).offset)
    case Push(r) => Push(r)
    case Pop(r) => Pop(r)
    case Call(t) => Call(base + LabelOffset(lines, t).offset)
    case Ret => Ret
    case Halt => Halt
  }

  /** Phase two over the first k lines: labels disappear, targets become addresses. */
  function ResolveTo(lines: seq<Line>, base: int, k: nat): seq<Instr<int>>
    requires Closed(lines) && k <= |lines|
  {
    if k == 0 then []
    else
      var before := ResolveTo(lines, base, k - 1);
      if lines[k - 1].Ins? then before + [Patch(lines, base, lines[k - 1].i)] else before
  }

  function Resolve(lines: seq<Line>, base: int): seq<Instr<int>>
    requires Closed(lines)
  {
    ResolveTo(lines, base, |lines|)
  }

  function AddressOfLine(lines: seq<Line>, base: int, k: nat): int
    requires k <= |lines|
  {
    base + INSTR_SIZE * Index(lines, k)
  }

  lemma {:induction false} ResolvedAt(lines: seq<Line>, base: int, k: nat, n: nat)
    requires Closed(lines) && k <= n <= |lines|
    ensures |ResolveTo(lines, base, n)| == Index(lines, n)
    ensures Index(lines, k) <= Index(lines, n)
    ensures k < n && lines[k].Ins? ==>
              && Index(lines, k) < Index(lines, n)
              && ResolveTo(lines, base, n)[Index(lines, k)] == Patch(lines, base, lines[k].i)
  {
    if n > k {
      ResolvedAt(lines, base, k, n - 1);
    } else if n > 0 {
      ResolvedAt(lines, base, k - 1, n - 1);
    }
  }

  lemma {:induction false} IndexPrefix(lines: seq<Line>, n: nat, k: nat)
    requires k <= n <= |lines|
    ensures Index(lines[..n], k) == Index(lines, k)
  {
    if k > 0 {
      IndexPrefix(lines, n, k - 1);
    }
  }

  /** With distinct labels a jump goes to the first instruction after its label. */
  lemma {:induction false} LabelOffsetAt(lines: seq<Line>, k: nat)
    requires DistinctLabels(lines) && k < |lines| && lines[k].LabelDef?
    ensures LabelOffset(lines, lines[k].id) == At(INSTR_SIZE * Index(lines, k))
    decreases |lines|
  {
    if k < |lines| - 1 {
      LabelOffsetAt(lines[..|lines| - 1], k);
      IndexPrefix(lines, |lines| - 1, k);
    }
  }

  /** The machine is running and about to execute line k of the file. */
  ghost predicate AtLine(lines: seq<Line>, base: int, k: nat, m: State) {
    k <= |lines| && m.status == Running && m.ip == AddressOfLine(lines, base, k)
  }

  /** One machine step from an instruction line executes that line. */
  lemma StepLine(lines: seq<Line>, base: int, k: nat, m: State)
    requires Closed(lines) && AtLine(lines, base, k, m) && k < |lines| && lines[k].Ins?
    ensures InCode(Resolve(lines, base), base, m.ip)
    ensures Step(Resolve(lines, base), base, m)
            == Exec(Patch(lines, base, lines[k].i), m.(ip := AddressOfLine(lines, base, k + 1)))
  {
    hide Exec, Patch, Closed;
    ResolvedAt(lines, base, k, |lines|);
  }

  ghost predicate CodeAt(lines: seq<Line>, k: nat, c: seq<Line>) {
    k + |c| <= |lines| && forall i | 0 <= i < |c| :: lines[k + i] == c[i]
  }

  lemma CodeAtSplit(lines: seq<Line>, k: nat, a: seq<Line>, b: seq<Line>)
    requires CodeAt(lines, k, a + b)
    ensures CodeAt(lines, k, a) && CodeAt(lines, k + |a|, b)
    ensures a != [] ==> lines[k] == a[0]
    ensures b != [] ==> lines[k + |a|] == b[0]
  {
    assert a != [] ==> lines[k + 0] == (a + b)[0];
    assert b != [] ==> lines[k + |a| + 0] == (a + b)[|a|];
    forall i | 0 <= i < |a| ensures lines[k + i] == a[i] {
      assert (a + b)[i] == a[i];
    }
    forall i | 0 <= i < |b| ensures lines[k + |a| + i] == b[i] {
      assert (a + b)[|a| + i] == b[i];
    }
  }

  // ---- runs

  /** The file, where it is loaded, and the distance travelled so far. */
  ghost predicate Reaches(lines: seq<Line>, base: int, m: State, steps: nat, m': State) {
    Closed(lines) && m' == Run(Resolve(lines, base), base, steps, m)
  }

  lemma ReachesAdd(lines: seq<Line>, base: int, m: State, a: nat, m1: State, b: nat, m2: State)
    requires Reaches(lines, base, m, a, m1) && Reaches(lines, base, m1, b, m2)
    ensures Reaches(lines, base, m, a + b, m2)
  {
    RunAdd(Resolve(lines, base), base, a, b, m);
  }

  lemma ReachesNone(lines: seq<Line>, base: int, m: State)
    requires Closed(lines)
    ensures Reaches(lines, base, m, 0, m)
  {
  }

  lemma ReachesMoved(lines: seq<Line>, base: int, m: State, steps: nat, m': State)
    requires Reaches(lines, base, m, steps, m') && m' != m
    ensures steps >= 1
  {
  }

  lemma ReachesOne(lines: seq<Line>, base: int, k: nat, m: State)
    requires Closed(lines) && AtLine(lines, base, k, m) && k < |lines| && lines[k].Ins?
    ensures Reaches(lines, base, m, 1, Exec(Patch(lines, base, lines[k].i), m.(ip := AddressOfLine(lines, base, k + 1))))
  {
    StepLine(lines, base, k, m);
    var n := Step(Resolve(lines, base), base, m);
    assert Run(Resolve(lines, base), base, 1, m) == Run(Resolve(lines, base), base, 0, n);
  }

  ghost predicate AtLabel(lines: seq<Line>, base: int, id: nat, m: State) {
    m.status == Running && LabelOffset(lines, id).At? && m.ip == base + LabelOffset(lines, id).offset
  }

  /** Standing at a label is standing at the line after it. */
  lemma AtLabelLine(lines: seq<Line>, base: int, j: nat, m: State)
    requires DistinctLabels(lines) && j < |lines| && lines[j].LabelDef?
    ensures AtLabel(lines, base, lines[j].id, m) <==> AtLine(lines, base, j, m)
    ensures AtLine(lines, base, j, m) <==> AtLine(lines, base, j + 1, m)
  {
    LabelOffsetAt(lines, j);
  }

  lemma JumpRuns(lines: seq<Line>, base: int, k: nat, id: nat, m: State) returns (m': State)
    requires Closed(lines) && AtLine(lines, base, k, m) && k < |lines| && lines[k] == Ins(Jmp(id))
    ensures Reaches(lines, base, m, 1, m') && AtLabel(lines, base, id, m')
    ensures m'.regs == m.regs && m'.mem == m.mem
  {
    ReachesOne(lines, base, k, m);
    m' := Exec(Patch(lines, base, lines[k].i), m.(ip := AddressOfLine(lines, base, k + 1)));
  }

  lemma JzRuns(lines: seq<Line>, base: int, k: nat, r: Reg, exit: nat, m: State) returns (m': State)
    requires Closed(lines) && AtLine(lines, base, k, m) && k < |lines| && lines[k] == Ins(Jz(r, exit))
    ensures Reaches(lines, base, m, 1, m') && m'.regs == m.regs && m'.mem == m.mem
    ensures if r == IP then m'.status == Faulted
            else if Truth(m.regs[r]) then AtLine(lines, base, k + 1, m') else AtLabel(lines, base, exit, m')
  {
    ReachesOne(lines, base, k, m);
    m' := Exec(Patch(lines, base, lines[k].i), m.(ip := AddressOfLine(lines, base, k + 1)));
  }
}
