/** The XSM machine as seen by compiled code (xsm/machine.c): registers, data
    memory and an instruction pointer over immutable code. Addresses are those
    of one flat memory: physical ones in kernel mode, and in user mode the
    process's own address space with every page present and writable. */
module Xsm {
  import opened Words

  type Reg = r: nat | r < 33

  const BP: Reg := 24
  const SP: Reg := 25
  const IP: Reg := 26

  type RegFile = s: seq<Word> | |s| == 33 witness seq(33, _ => Int(0))

  datatype Address = ByReg(r: Reg) | ByNum(n: int)

  datatype Source = FromReg(r: Reg) | FromNum(n: int) | FromText(s: string) | FromCell(a: Address)

  datatype Dest = ToReg(r: Reg) | ToCell(a: Address)

  datatype Operand = RegOp(r: Reg) | NumOp(n: int)

  /** T is the type of jump targets: label names before resolution, addresses after. */
  datatype Instr<T> =
    | Mov(d: Dest, src: Source)
    | Arith(aop: ArithOp, l: Reg, o: Operand)
    | Logic(rop: RelOp, l: Reg, r: Reg)
    | Jmp(target: T)
    | Jz(r: Reg, target: T)
    | Jnz(r: Reg, target: T)
    | Push(r: Reg)
    | Pop(r: Reg)
    | Call(target: T)
    | Ret
    | Halt

  datatype Status = Running | Halted | Faulted

  datatype State = State(regs: RegFile, mem: seq<Word>, ip: int, status: Status)

  /** XSM_INSTRUCTION_SIZE. */
  const INSTR_SIZE := 2

  predicate InMemory(a: int, mem: seq<Word>) {
    0 <= a < |mem|
  }

  /** A bracketed register is read without the check on IP (xsm/machine.c:526-552). */
  function AddressOf(a: Address, regs: RegFile, ip: int): int {
    match a
    case ByReg(r) => if r == IP then ip else ToInt(regs[r])
    case ByNum(n) => n
  }

  function Fail(m: State): State {
    m.(status := Faulted)
  }

  datatype Fetched = Value(w: Word) | NoValue

  function Fetch(s: Source, m: State): Fetched {
    match s
    case FromReg(r) => if r == IP then NoValue else Value(m.regs[r])
    case FromNum(n) => Value(Int(n))
    case FromText(t) => Value(Str(t))
    case FromCell(a) =>
      var x := AddressOf(a, m.regs, m.ip);
      if InMemory(x, m.mem) then Value(m.mem[x]) else NoValue
  }

  function Put(d: Dest, w: Word, m: State): State {
    match d
    case ToReg(r) => if r == IP then Fail(m) else m.(regs := m.regs[r := w])
    case ToCell(a) =>
      var x := AddressOf(a, m.regs, m.ip);
      if InMemory(x, m.mem) then m.(mem := m.mem[x := w]) else Fail(m)
  }

  /** SP has moved when the push faults. */
  function PushWord(w: Word, m: State): State {
    var sp := ToInt(m.regs[SP]) + 1;
    var moved := m.(regs := m.regs[SP := Int(sp)]);
    if InMemory(sp, m.mem) then moved.(mem := m.mem[sp := w]) else Fail(moved)
  }

  /** One instruction; the instruction pointer has already moved past it. A fault
      in kernel mode stops the machine (xsm/machine.c:243-308). */
  function Exec(i: Instr<int>, m: State): State {
    match i
    case Mov(d, s) =>
      (match Fetch(s, m)
       case NoValue => Fail(m)
       case Value(w) => Put(d, w, m))
    case Arith(op, l, o) =>
      if l == IP || o == RegOp(IP) then Fail(m)
      else
        var r := match o case RegOp(q) => ToInt(m.regs[q]) case NumOp(n) => n;
        if !ArithDefined(op, r) then Fail(m)
        else m.(regs := m.regs[l := Int(ArithValue(op, ToInt(m.regs[l]), r))])
    case Logic(op, l, r) =>
      if l == IP || r == IP then Fail(m)
      else m.(regs := m.regs[l := RelValue(op, m.regs[l], m.regs[r])])
    case Jmp(t) => m.(ip := t)
    case Jz(r, t) => if r == IP then Fail(m) else if Truth(m.regs[r]) then m else m.(ip := t)
    case Jnz(r, t) => if r == IP then Fail(m) else if Truth(m.regs[r]) then m.(ip := t) else m
    case Push(r) => if r == IP then Fail(m) else PushWord(if r == SP then Int(ToInt(m.regs[SP]) + 1) else m.regs[r], m)
    case Pop(r) =>
      var sp := ToInt(m.regs[SP]);
      if r == IP || !InMemory(sp, m.mem) then Fail(m)
      else m.(regs := m.regs[r := m.mem[sp]][SP := Int(sp - 1)])
    case Call(t) =>
      var n := PushWord(Int(m.ip), m);
      if n.status == Running then n.(ip := t) else n
    case Ret =>
      var sp := ToInt(m.regs[SP]);
      if !InMemory(sp, m.mem) then Fail(m)
      else m.(regs := m.regs[SP := Int(sp - 1)], ip := ToInt(m.mem[sp]))
    case Halt => m.(status := Halted)
  }

  predicate InCode(code: seq<Instr<int>>, base: int, ip: int) {
    base <= ip && (ip - base) % INSTR_SIZE == 0 && (ip - base) / INSTR_SIZE < |code|
  }

  /** One machine step; a stopped machine, or one that has left the code, stays. */
  function Step(code: seq<Instr<int>>, base: int, m: State): State {
    if m.status != Running || !InCode(code, base, m.ip) then m
    else Exec(code[(m.ip - base) / INSTR_SIZE], m.(ip := m.ip + INSTR_SIZE))
  }

  function Run(code: seq<Instr<int>>, base: int, n: nat, m: State): State {
    if n == 0 then m else Run(code, base, n - 1, Step(code, base, m))
  }

  lemma {:induction false} RunAdd(code: seq<Instr<int>>, base: int, a: nat, b: nat, m: State)
    ensures Run(code, base, a + b, m) == Run(code, base, b, Run(code, base, a, m))
    decreases a
  {
    if a > 0 {
      RunAdd(code, base, a - 1, b, Step(code, base, m));
    }
  }

  /** A machine at rest stays at rest. */
  lemma {:induction false} RunStays(code: seq<Instr<int>>, base: int, n: nat, m: State)
    requires Step(code, base, m) == m
    ensures Run(code, base, n, m) == m
  {
    if n > 0 {
      RunStays(code, base, n - 1, m);
    }
  }

  /** The machine is deterministic: two runs that both come to rest agree. */
  lemma RunUnique(code: seq<Instr<int>>, base: int, a: nat, b: nat, m: State)
    requires Step(code, base, Run(code, base, a, m)) == Run(code, base, a, m)
    requires Step(code, base, Run(code, base, b, m)) == Run(code, base, b, m)
    ensures Run(code, base, a, m) == Run(code, base, b, m)
  {
    if a <= b {
      RunAdd(code, base, a, b - a, m);
      RunStays(code, base, b - a, Run(code, base, a, m));
    } else {
      RunAdd(code, base, b, a - b, m);
      RunStays(code, base, a - b, Run(code, base, b, m));
    }
  }

  /** The simulator's processor: every instruction updates its fields in place. */
  class Cpu {
    const code: seq<Instr<int>>
    const base: int
    const regs: array<Word>
    const mem: array<Word>
    var ip: int
    var status: Status

    ghost predicate Valid()
      reads this, regs, mem
    {
      regs.Length == 33 && regs != mem
    }

    ghost function Contents(): State
      reads this, regs, mem
      requires Valid()
    {
      State(regs[..], mem[..], ip, status)
    }

    constructor (code: seq<Instr<int>>, base: int, memory: array<Word>)
      ensures Valid() && fresh(regs) && mem == memory && this.code == code && this.base == base
      ensures ip == base && status == Running
    {
      this.code, this.base, mem := code, base, memory;
      regs := new Word[33](_ => Int(0));
      ip, status := base, Running;
    }

    /** machine_execute_mov: the left operand is located first, then the right one is read. */
    method ExecuteMov(d: Dest, src: Source)
      requires Valid() && status == Running
      modifies this`status, regs, mem
      ensures Valid() && Contents() == Exec(Mov(d, src), old(Contents()))
    {
      var target := match d case ToCell(a) => AddressOf(a, regs[..], ip) case ToReg(r) => r;
      if (d.ToCell? && !(0 <= target < mem.Length)) || (d.ToReg? && target == IP) {
        status := Faulted;
        return;
      }
      var word;
      match src {
        case FromCell(a) =>
          var x := AddressOf(a, regs[..], ip);
          if !(0 <= x < mem.Length) {
            status := Faulted;
            return;
          }
          word := mem[x];
        case FromReg(r) =>
          if r == IP {
            status := Faulted;
            return;
          }
          word := regs[r];
        case FromNum(n) => word := Int(n);
        case FromText(t) => word := Str(t);
      }
      if d.ToCell? {
        mem[target] := word;
      } else {
        regs[target] := word;
      }
    }

    method ExecuteArith(op: ArithOp, l: Reg, o: Operand)
      requires Valid() && status == Running
      modifies this`status, regs
      ensures Valid() && Contents() == Exec(Arith(op, l, o), old(Contents()))
    {
      if l == IP || o == RegOp(IP) {
        status := Faulted;
        return;
      }
      var lValue := ToInt(regs[l]);
      var rValue := match o case NumOp(n) => n case RegOp(r) => ToInt(regs[r]);
      if (op == Div || op == Mod) && rValue == 0 {
        status := Faulted;
        return;
      }
      var result;
      match op {
        case Add => result := rValue + lValue;
        case Sub => result := lValue - rValue;
        case Mul => result := lValue * rValue;
        case Div => result := TruncDiv(lValue, rValue);
        case Mod => result := TruncMod(lValue, rValue);
      }
      regs[l] := Int(result);
    }

    /** machine_execute_logical: by strcmp when either word is a string. */
    method ExecuteLogical(op: RelOp, l: Reg, r: Reg)
      requires Valid() && status == Running
      modifies this`status, regs
      ensures Valid() && Contents() == Exec(Logic(op, l, r), old(Contents()))
    {
      if l == IP || r == IP {
        status := Faulted;
        return;
      }
      var left, right := ToInt(regs[l]), ToInt(regs[r]);
      if IsString(regs[l]) || IsString(regs[r]) {
        left, right := Strcmp(Text(regs[l]), Text(regs[r])), 0;
      }
      var result;
      match op {
        case Lt => result := left < right;
        case Gt => result := left > right;
        case Eq => result := left == right;
        case Ne => result := left != right;
        case Ge => result := left >= right;
        case Le => result := left <= right;
      }
      regs[l] := if result then Int(1) else Int(0);
    }

    /** machine_push_do: SP moves first, and the pushed register is read after it. */
    method PushDo(r: Reg)
      requires Valid() && status == Running && r != IP
      modifies this`status, regs, mem
      ensures Valid() && Contents() == Exec(Push(r), old(Contents()))
    {
      var top := ToInt(regs[SP]) + 1;
      regs[SP] := Int(top);
      if !(0 <= top < mem.Length) {
        status := Faulted;
        return;
      }
      mem[top] := regs[r];
    }

    /** machine_pop_do: SP is read before the destination is written. */
    method PopDo(r: Reg)
      requires Valid() && status == Running && r != IP
      modifies this`status, regs
      ensures Valid() && Contents() == Exec(Pop(r), old(Contents()))
    {
      var top := ToInt(regs[SP]);
      if !(0 <= top < mem.Length) {
        status := Faulted;
        return;
      }
      regs[r] := mem[top];
      regs[SP] := Int(top - 1);
    }

    method CallDo(target: int)
      requires Valid() && status == Running
      modifies this`status, this`ip, regs, mem
      ensures Valid() && Contents() == Exec(Call(target), old(Contents()))
    {
      var top := ToInt(regs[SP]) + 1;
      regs[SP] := Int(top);
      if !(0 <= top < mem.Length) {
        status := Faulted;
        return;
      }
      mem[top] := Int(ip);
      ip := target;
    }

    method RetDo()
      requires Valid() && status == Running
      modifies this`status, this`ip, regs
      ensures Valid() && Contents() == Exec(Ret, old(Contents()))
    {
      var top := ToInt(regs[SP]);
      if !(0 <= top < mem.Length) {
        status := Faulted;
        return;
      }
      regs[SP] := Int(top - 1);
      ip := ToInt(mem[top]);
    }

    /** machine_execute_jump: JZ negates the test and JMP has a true one. */
    method ExecuteJump(i: Instr<int>)
      requires Valid() && status == Running && (i.Jmp? || i.Jz? || i.Jnz?)
      modifies this`status, this`ip
      ensures Valid() && Contents() == Exec(i, old(Contents()))
    {
      var test := true;
      if !i.Jmp? {
        if i.r == IP {
          status := Faulted;
          return;
        }
        test := Truth(regs[i.r]);
      }
      if i.Jz? {
        test := !test;
      }
      if test {
        ip := i.target;
      }
    }

    /** One turn of machine_run, in a mode that takes no interrupts. */
    method StepOnce()
      requires Valid()
      modifies this`status, this`ip, regs, mem
      ensures Valid() && Contents() == Step(code, base, old(Contents()))
    {
      if status != Running || !InCode(code, base, ip) {
        return;
      }
      var i := code[(ip - base) / INSTR_SIZE];
      ip := ip + INSTR_SIZE;
      match i {
        case Mov(d, src) => ExecuteMov(d, src);
        case Arith(op, l, o) => ExecuteArith(op, l, o);
        case Logic(op, l, r) => ExecuteLogical(op, l, r);
        case Jmp(_) => ExecuteJump(i);
        case Jz(_, _) => ExecuteJump(i);
        case Jnz(_, _) => ExecuteJump(i);
        case Push(r) =>
          if r == IP {
            status := Faulted;
          } else {
            PushDo(r);
          }
        case Pop(r) =>
          if r == IP {
            status := Faulted;
          } else {
            PopDo(r);
          }
        case Call(t) => CallDo(t);
        case Ret => RetDo();
        case Halt => status := Halted;
      }
    }
  }
}
