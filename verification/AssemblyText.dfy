/** The text of assembly lines as the compiler prints them (spl/spl.c), and the
    agreement of the text resolver of Labels.dfy with the resolution of
    Assembly.dfy on such text. */
module AssemblyText {
  import opened Words
  import opened Xsm
  import opened Assembly
  import opened Labels

  // ---- printing ----

  function RegName(r: Reg): string {
    if r < 20 then "R" + NatText(r)
    else if r < 24 then "P" + NatText(r - 20)
    else ["BP", "SP", "IP", "PTBR", "PTLR", "EIP", "EC", "EPN", "EMA"][r - 24]
  }

  function AddressText(a: Address): string {
    "[" + (match a case ByReg(r) => RegName(r) case ByNum(n) => IntText(n)) + "]"
  }

  function DestText(d: Dest): string {
    match d
    case ToReg(r) => RegName(r)
    case ToCell(a) => AddressText(a)
  }

  function SourceText(src: Source): string {
    match src
    case FromReg(r) => RegName(r)
    case FromNum(n) => IntText(n)
    case FromText(s) => "\"" + s + "\""
    case FromCell(a) => AddressText(a)
  }

  function Opcode<T>(i: Instr<T>): string {
    match i
    case Mov(_, src) => if src.FromReg? && 20 <= src.r < 24 then "PORT" else "MOV"
    case Arith(op, _, _) => (match op case Add => "ADD" case Sub => "SUB" case Mul => "MUL" case Div => "DIV" case Mod => "MOD")
    case Logic(op, _, _) =>
      (match op case Lt => "LT" case Gt => "GT" case Eq => "EQ" case Ne => "NE" case Ge => "GE" case Le => "LE")
    case Jmp(_) => "JMP"
    case Jz(_, _) => "JZ"
    case Jnz(_, _) => "JNZ"
    case Push(_) => "PUSH"
    case Pop(_) => "POP"
    case Call(_) => "CALL"
    case Ret => "RET"
    case Halt => "HALT"
  }

  /** An instruction's text; `target` is the text of its jump target, if it has one. */
  function InstrText<T>(i: Instr<T>, target: string): string {
    match i
    case Mov(d, src) => Opcode(i) + " " + (DestText(d) + ", " + SourceText(src))
    case Arith(_, l, o) =>
      Opcode(i) + " " + (RegName(l) + ", " + (match o case RegOp(r) => RegName(r) case NumOp(n) => IntText(n)))
    case Logic(_, l, r) => Opcode(i) + " " + (RegName(l) + ", " + RegName(r))
    case Jmp(_) => Opcode(i) + " " + target
    case Call(_) => Opcode(i) + " " + target
    case Jz(r, _) => Opcode(i) + " " + RegName(r) + ", " + target
    case Jnz(r, _) => Opcode(i) + " " + RegName(r) + ", " + target
    case Push(r) => Opcode(i) + " " + RegName(r)
    case Pop(r) => Opcode(i) + " " + RegName(r)
    case Ret => Opcode(i)
    case Halt => Opcode(i)
  }

  predicate IsJump<T>(i: Instr<T>) {
    i.Jmp? || i.Call? || i.Jz? || i.Jnz?
  }

  function NameOf(id: nat): string {
    "_L" + NatText(id)
  }

  function LineText(l: Line): string {
    match l
    case LabelDef(id) => NameOf(id) + ":"
    case Ins(i) => InstrText(i, if IsJump(i) then NameOf(i.target) else "")
  }

  function FileText(lines: seq<Line>): (t: seq<string>)
    ensures |t| == |lines| && forall k | 0 <= k < |lines| :: t[k] == LineText(lines[k])
  {
    seq(|lines|, k requires 0 <= k < |lines| => LineText(lines[k]))
  }

  function CodeLine(i: Instr<int>): string {
    InstrText(i, if IsJump(i) then IntText(i.target) else "")
  }

  function CodeText(code: seq<Instr<int>>): (t: seq<string>)
    ensures |t| == |code| && forall k | 0 <= k < |code| :: t[k] == CodeLine(code[k])
  {
    seq(|code|, k requires 0 <= k < |code| => CodeLine(code[k]))
  }

  // ---- names ----

  lemma NamesDiffer(a: nat, b: nat)
    requires a != b
    ensures NameOf(a) != NameOf(b)
  {
    NatTextValue(a);
    NatTextValue(b);
    assert NameOf(a)[2..] == NatText(a) && NameOf(b)[2..] == NatText(b);
  }

  // ---- tokens ----

  predicate Solid(w: string, seps: string) {
    w != "" && forall i | 0 <= i < |w| :: w[i] !in seps
  }

  lemma {:induction false} FrontSolid(w: string, rest: string, seps: string)
    requires (forall i | 0 <= i < |w| :: w[i] !in seps) && (rest == "" || rest[0] in seps)
    ensures Front(w + rest, seps) == w
    decreases |w|
  {
    if w == "" {
      assert w + rest == rest;
    } else {
      assert (w + rest)[1..] == w[1..] + rest;
      FrontSolid(w[1..], rest, seps);
    }
  }

  lemma TokensSolid(w: string, rest: string, seps: string)
    requires Solid(w, seps) && (rest == "" || rest[0] in seps)
    ensures Tokens(w + rest, seps) == [w] + Tokens(rest, seps)
  {
    var s := w + rest;
    assert s[0] == w[0] && Skip(s, seps) == s;
    FrontSolid(w, rest, seps);
    assert s[|w|..] == rest;
  }

  lemma TokensSkip(c: char, rest: string, seps: string)
    requires c in seps
    ensures Tokens([c] + rest, seps) == Tokens(rest, seps)
  {
    assert ([c] + rest)[1..] == rest;
  }

  lemma OneToken(w: string, seps: string)
    requires Solid(w, seps)
    ensures Tokens(w, seps) == [w]
  {
    assert w + "" == w;
    TokensSolid(w, "", seps);
  }

  lemma OpcodeToken(op: string, rest: string)
    requires Solid(op, " ,")
    ensures Tokens(op + " " + rest, " ,") == [op] + Tokens(rest, " ,")
  {
    assert op + " " + rest == op + ([' '] + rest);
    TokensSolid(op, [' '] + rest, " ,");
    TokensSkip(' ', rest, " ,");
  }

  lemma RegNameSolid(r: Reg)
    ensures Solid(RegName(r), " ,") && RegName(r)[|RegName(r)| - 1] != ':'
  {
    NatTextDigits(if r < 20 then r else if r < 24 then r - 20 else 0);
  }

  lemma NameSolid(id: nat)
    ensures Solid(NameOf(id), " ,") && Solid(NameOf(id), ":") && IsName(NameOf(id))
    ensures NameOf(id)[|NameOf(id)| - 1] != ':'
  {
    NatTextDigits(id);
    assert IsAlpha(NameOf(id)[1]);
  }

  lemma LabelText(id: nat)
    ensures IsLabel(LineText(LabelDef(id))) && LabelName(LineText(LabelDef(id))) == NameOf(id)
  {
    NameSolid(id);
    TokensSolid(NameOf(id), ":", ":");
  }

  lemma IntTextEnd(n: int)
    ensures IntText(n) != "" && IntText(n)[|IntText(n)| - 1] != ':'
  {
    NatTextDigits(if n < 0 then -n else n);
  }

  /** The opcode is the first token. */
  lemma PlainTokens(i: Instr<nat>)
    requires !IsJump(i)
    ensures var t := Tokens(LineText(Ins(i)), " ,"); t != [] && t[0] == Opcode(i)
  {
    hide Tokens, RegName, IntText, Skip, Front, AddressText, NatText;
    var op, t := Opcode(i), LineText(Ins(i));
    assert Solid(op, " ,");
    if i.Ret? || i.Halt? {
      OneToken(op, " ,");
    } else {
      var rest := t[|op| + 1..];
      assert t == op + " " + rest;
      OpcodeToken(op, rest);
    }
  }

  /** An instruction that does not jump is an instruction line and no jump to phase two. */
  lemma PlainText(i: Instr<nat>)
    requires !IsJump(i)
    ensures IsInstruction(LineText(Ins(i))) && JumpOf(LineText(Ins(i))) == NoJump
  {
    hide Tokens, LineText, Opcode, Upper;
    PlainTokens(i);
    PlainEnd(i);
    PlainOpcode(i);
  }

  lemma PlainOpcode(i: Instr<nat>)
    requires !IsJump(i)
    ensures Upper(Opcode(i)) !in {"JMP", "CALL", "JNZ", "JZ"}
  {
    assert |Opcode(i)| <= 4;
    var op, u := Opcode(i), Upper(Opcode(i));
    assert u[0] == UpperChar(op[0]) && op[0] !in "JC";
    assert u[0] !in "JC";
  }

  lemma PlainEnd(i: Instr<nat>)
    requires !IsJump(i)
    ensures var t := LineText(Ins(i)); t != "" && t[|t| - 1] != ':'
  {
    hide NatText, RegName, IntText;
    match i
    case Mov(_, src) =>
      match src {
        case FromReg(r) => RegNameSolid(r);
        case FromNum(n) => IntTextEnd(n);
        case FromText(_) =>
        case FromCell(_) =>
      }
    case Arith(_, _, o) =>
      match o {
        case RegOp(r) => RegNameSolid(r);
        case NumOp(n) => IntTextEnd(n);
      }
    case Logic(_, _, r) => RegNameSolid(r);
    case Push(r) => RegNameSolid(r);
    case Pop(r) => RegNameSolid(r);
    case Ret =>
    case Halt =>
  }

  /** What stands before a jump's target. */
  function JumpPrefix<T>(i: Instr<T>): string
    requires IsJump(i)
  {
    if i.Jmp? || i.Call? then Opcode(i) + " " else Opcode(i) + " " + RegName(i.r) + ", "
  }

  lemma PrefixText<T>(i: Instr<T>, target: string)
    requires IsJump(i)
    ensures InstrText(i, target) == JumpPrefix(i) + target
  {
  }

  /** The tokens of a jump. */
  lemma JumpTokens(i: Instr<nat>, target: string)
    requires IsJump(i) && Solid(target, " ,")
    ensures Tokens(InstrText(i, target), " ,") ==
            if i.Jmp? || i.Call? then [Opcode(i), target] else [Opcode(i), RegName(i.r), target]
  {
    hide Tokens, RegName, Skip, Front;
    var op, t := Opcode(i), InstrText(i, target);
    assert Solid(op, " ,");
    OneToken(target, " ,");
    if i.Jmp? || i.Call? {
      OpcodeToken(op, target);
    } else {
      var reg := RegName(i.r);
      RegNameSolid(i.r);
      assert t == op + " " + (reg + ([','] + ([' '] + target)));
      OpcodeToken(op, reg + ([','] + ([' '] + target)));
      TokensSolid(reg, [','] + ([' '] + target), " ,");
      TokensSkip(',', [' '] + target, " ,");
      TokensSkip(' ', target, " ,");
    }
  }

  /** A jump's text is split by phase two into what stands before the target and
      the target. */
  lemma JumpText(i: Instr<nat>, target: string)
    requires IsJump(i) && Solid(target, " ,") && IsName(target) && target[|target| - 1] != ':'
    ensures IsInstruction(InstrText(i, target))
    ensures JumpOf(InstrText(i, target)) == ToName(JumpPrefix(i), target)
  {
    hide Tokens, RegName, Upper, IsName;
    JumpTokens(i, target);
    UpperSame(Opcode(i));
    PrefixText(i, target);
  }

  lemma {:induction false} UpperSame(s: string)
    requires forall i | 0 <= i < |s| :: !('a' <= s[i] <= 'z')
    ensures Upper(s) == s
  {
    if s != "" {
      UpperSame(s[1..]);
    }
  }

  // ---- which lines are jumps ----

  predicate EitherCase(s: string, caps: string) {
    |s| == |caps| && forall i | 0 <= i < |s| :: s[i] == caps[i] || s[i] as int == caps[i] as int + 32
  }

  /** In the codes of ISO/IEC 646. */
  predicate HasLetter(s: string) {
    exists i | 0 <= i < |s| :: 65 <= s[i] as int <= 90 || 97 <= s[i] as int <= 122
  }

  lemma {:induction false} UpperIff(s: string, caps: string)
    requires forall i | 0 <= i < |caps| :: 'A' <= caps[i] <= 'Z'
    ensures Upper(s) == caps <==> EitherCase(s, caps)
    decreases |s|
  {
    if s != "" && caps != "" {
      UpperIff(s[1..], caps[1..]);
      var u := Upper(s);
      assert u[0] == UpperChar(s[0]) && u[1..] == Upper(s[1..]);
      assert u == caps <==> u[0] == caps[0] && u[1..] == caps[1..];
      assert EitherCase(s, caps) ==> EitherCase(s[1..], caps[1..]);
    }
  }

  lemma OpcodesIff(op: string)
    ensures var u := Upper(op);
            && (u == "JMP" || u == "CALL" <==> EitherCase(op, "JMP") || EitherCase(op, "CALL"))
            && (u == "JNZ" || u == "JZ" <==> EitherCase(op, "JNZ") || EitherCase(op, "JZ"))
  {
    UpperIff(op, "JMP");
    UpperIff(op, "CALL");
    UpperIff(op, "JNZ");
    UpperIff(op, "JZ");
  }

  /** A line of two words is a jump to a name exactly when the first is JMP or CALL, in
      either case, and the second has a letter. */
  lemma JumpRead(op: string, name: string)
    requires Solid(op, " ,") && Solid(name, " ,")
    ensures JumpOf(op + " " + name)
            == if (EitherCase(op, "JMP") || EitherCase(op, "CALL")) && HasLetter(name) then ToName(op + " ", name) else NoJump
  {
    hide Tokens, Upper, EitherCase;
    OneToken(name, " ,");
    OpcodeToken(op, name);
    OpcodesIff(op);
  }

  /** With a register between them, exactly when the first is JNZ or JZ. */
  lemma JumpIfRead(op: string, reg: string, name: string)
    requires Solid(op, " ,") && Solid(reg, " ,") && Solid(name, " ,")
    requires !EitherCase(op, "JMP") && !EitherCase(op, "CALL")
    ensures JumpOf(op + " " + reg + ", " + name)
            == if (EitherCase(op, "JNZ") || EitherCase(op, "JZ")) && HasLetter(name) then ToName(op + " " + reg + ", ", name)
               else NoJump
  {
    hide Tokens, Upper, EitherCase;
    assert op + " " + reg + ", " + name == op + " " + (reg + ([','] + ([' '] + name)));
    OneToken(name, " ,");
    OpcodeToken(op, reg + ([','] + ([' '] + name)));
    TokensSolid(reg, [','] + ([' '] + name), " ,");
    TokensSkip(',', [' '] + name, " ,");
    TokensSkip(' ', name, " ,");
    OpcodesIff(op);
  }

  // ---- agreement ----

  lemma {:induction false} FoundIsDefined(lines: seq<Line>, id: nat) returns (j: nat)
    requires LabelOffset(lines, id).At?
    ensures j < |lines| && lines[j] == LabelDef(id)
    decreases |lines|
  {
    if lines[|lines| - 1] == LabelDef(id) {
      j := |lines| - 1;
    } else {
      j := FoundIsDefined(lines[..|lines| - 1], id);
    }
  }

  lemma LineKinds(l: Line)
    ensures IsInstruction(LineText(l)) <==> l.Ins?
    ensures IsLabel(LineText(l)) <==> l.LabelDef?
  {
    match l
    case LabelDef(id) => LabelText(id);
    case Ins(i) =>
      if IsJump(i) {
        NameSolid(i.target);
        JumpText(i, NameOf(i.target));
      } else {
        PlainText(i);
      }
  }

  lemma {:induction false} CountsAgree(lines: seq<Line>, k: nat)
    requires k <= |lines|
    ensures InstructionCount(FileText(lines), k) == Index(lines, k)
  {
    hide LineText, IsInstruction, FileText;
    if k > 0 {
      CountsAgree(lines, k - 1);
      LineKinds(lines[k - 1]);
    }
  }

  lemma NamesDistinct(lines: seq<Line>)
    requires DistinctLabels(lines)
    ensures DistinctNames(FileText(lines))
  {
    hide NameOf, IsLabel, LabelName;
    var t := FileText(lines);
    forall j, k | 0 <= j < k < |t| && IsLabel(t[j]) && IsLabel(t[k]) ensures LabelName(t[j]) != LabelName(t[k]) {
      LineKinds(lines[j]);
      LineKinds(lines[k]);
      LabelText(lines[j].id);
      LabelText(lines[k].id);
      NamesDiffer(lines[j].id, lines[k].id);
    }
  }

  lemma TargetIsKnown(lines: seq<Line>, k: nat)
    requires Closed(lines) && k < |lines| && lines[k].Ins? && IsJump(lines[k].i)
    ensures TargetKnown(lines, lines[k].i) && LabelOffset(lines, lines[k].i.target).At?
  {
  }

  /** The list of phase one has the offset that the label has in the file. */
  lemma OffsetFound(lines: seq<Line>, id: nat)
    requires DistinctLabels(lines) && LabelOffset(lines, id).At? && Readable(FileText(lines))
    ensures var t := FileText(lines); Find(Listed(t, |t|), NameOf(id)) == LabelOffset(lines, id).offset
  {
    hide Readable, Listed, Find, Index, InstructionCount, NatText, LabelOffset, DistinctNames, NameOf;
    var t := FileText(lines);
    var j := FoundIsDefined(lines, id);
    LabelOffsetAt(lines, j);
    NamesDistinct(lines);
    LabelText(id);
    FindExact(t, |t|, j);
    CountsAgree(lines, j);
    ReadInOnePiece(t, j);
    CountedIsExact(t, j, PHASE_ONE_WIDTH);
  }

  /** What phase two prints for a jump of the file. */
  lemma JumpResolved(lines: seq<Line>, base: int, k: nat)
    requires Closed(lines) && DistinctLabels(lines) && Readable(FileText(lines)) && k < |lines| && lines[k].Ins? && IsJump(lines[k].i)
    ensures var t := FileText(lines); var root := Listed(t, |t|); var jump := JumpOf(t[k]);
            && jump.ToName? && Find(root, jump.name) >= 0
            && jump.prefix + IntText(Find(root, jump.name) + base) == CodeLine(Patch(lines, base, lines[k].i))
  {
    hide Solid, RegName, IsName, Readable, Listed, Find, JumpOf, IntText, NameOf, LabelOffset, Closed, DistinctLabels, IsInstruction, InstrText;
    var i := lines[k].i;
    NameSolid(i.target);
    JumpText(i, NameOf(i.target));
    TargetIsKnown(lines, k);
    OffsetFound(lines, i.target);
    PrefixText(Patch(lines, base, i), IntText(base + LabelOffset(lines, i.target).offset));
  }

  lemma PlainLine(lines: seq<Line>, base: int, i: Instr<nat>)
    requires !IsJump(i) && TargetKnown(lines, i)
    ensures LineText(Ins(i)) == CodeLine(Patch(lines, base, i))
  {
  }

  lemma {:induction false} PhasesAgree(lines: seq<Line>, base: int, n: nat)
    requires Closed(lines) && DistinctLabels(lines) && Readable(FileText(lines)) && n <= |lines|
    ensures var t := FileText(lines);
            PhaseTwoTo(t, Listed(t, |t|), base, n) == Resolved(true, CodeText(ResolveTo(lines, base, n)))
  {
    hide JumpOf, Readable, Listed, Find, Index, LabelOffset, IsLabel, LineText, CodeLine, DistinctLabels, Patch;
    var t := FileText(lines);
    if n > 0 {
      PhasesAgree(lines, base, n - 1);
      LineKinds(lines[n - 1]);
      var before := ResolveTo(lines, base, n - 1);
      if lines[n - 1].Ins? {
        var i := lines[n - 1].i;
        var last := Patch(lines, base, i);
        assert CodeText(before + [last]) == CodeText(before) + [CodeLine(last)];
        if IsJump(i) {
          JumpResolved(lines, base, n - 1);
        } else {
          PlainText(i);
          PlainLine(lines, base, i);
        }
      }
    } else {
      assert CodeText([]) == [];
    }
  }

  lemma ReadInOnePiece(t: seq<string>, j: nat)
    requires Readable(t) && j < |t| && IsLabel(t[j])
    ensures OnePiece(t, j, PHASE_ONE_WIDTH)
  {
  }

  /** The file that the text resolver writes is the text of the resolved
      instructions. */
  lemma TextResolutionAgrees(lines: seq<Line>, base: int)
    requires Closed(lines) && DistinctLabels(lines) && Readable(FileText(lines))
    ensures ResolveText(FileText(lines), base) == Resolved(true, CodeText(Resolve(lines, base)))
  {
    var t := FileText(lines);
    WholeLines(t);
    PassesMeet(t, base);
    PhasesAgree(lines, base, |lines|);
  }
}
