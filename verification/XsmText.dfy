/** The machine's reading of instruction text: the tokens of xsm/parse.l, their use by the
    machine_execute functions, and that both undo the printing of AssemblyText. */
module XsmText {
  import opened Wrappers
  import opened Words
  import opened Xsm
  import A = AssemblyText

  datatype Token = Number(n: int) | Quoted(s: string) | Comma | Open | Close | Register(name: string) | Opcode(name: string)

  // ---- tokens

  predicate IsLetter(c: char) {
    'a' <= c <= 'z' || 'A' <= c <= 'Z'
  }

  function Digits(s: string): (n: nat)
    ensures n <= |s|
  {
    if s == "" || !IsDigit(s[0]) then 0 else 1 + Digits(s[1..])
  }

  function Letters(s: string): (n: nat)
    ensures n <= |s|
  {
    if s == "" || !IsLetter(s[0]) then 0 else 1 + Letters(s[1..])
  }

  function Unquoted(s: string): (n: nat)
    ensures n <= |s|
  {
    if s == "" || s[0] == '"' then 0 else 1 + Unquoted(s[1..])
  }

  /** The registers without a number, in the order of the machine's register file. */
  const Special := ["BP", "SP", "IP", "PTBR", "PTLR", "EIP", "EC", "EPN", "EMA"]

  /** The first token and its length, by the longest rule that matches; characters that no
      rule matches are skipped one by one. */
  function First(s: string): (t: (Option<Token>, nat))
    requires s != ""
    ensures 1 <= t.1 <= |s|
  {
    var c := s[0];
    if IsDigit(c) then (Some(Number(Atoi(s[..Digits(s)]))), Digits(s))
    else if c == '-' && Digits(s[1..]) > 0 then (Some(Number(Atoi(s[..1 + Digits(s[1..])]))), 1 + Digits(s[1..]))
    else if c == '"' then (Some(Quoted(s[1..1 + Unquoted(s[1..])])), 1 + Unquoted(s[1..]))
    else if c == ',' then (Some(Comma), 1)
    else if c == '[' then (Some(Open), 1)
    else if c == ']' then (Some(Close), 1)
    else if IsLetter(c) then
      var n := Letters(s);
      if n == 1 && c == 'R' && Digits(s[1..]) > 0 then (Some(Register(s[..1 + Digits(s[1..])])), 1 + Digits(s[1..]))
      else if n == 1 && c == 'P' && |s| > 1 && '0' <= s[1] <= '3' then (Some(Register(s[..2])), 2)
      else if s[..n] in Special then (Some(Register(s[..n])), n)
      else (Some(Opcode(s[..n])), n)
    else (None, 1)
  }

  function Lex(s: string): seq<Token> {
    if s == "" then []
    else
      var (t, n) := First(s);
      (if t.Some? then [t.value] else []) + Lex(s[n..])
  }

  // ---- instructions

  function IndexOf(names: seq<string>, name: string): (r: int)
    ensures -1 <= r < |names|
  {
    if names == [] then -1
    else if names[0] == name then 0
    else
      var r := IndexOf(names[1..], name);
      if r == -1 then -1 else r + 1
  }

  /** registers_get_register */
  function RegNumber(name: string): Option<Reg> {
    var k := IndexOf(Special, name);
    if k >= 0 then Some(24 + k)
    else if name == "" then None
    else
      var n := Atoi(name[1..]);
      if name[0] == 'R' && 0 <= n < 20 then Some(n) else if name[0] == 'P' && 0 <= n < 4 then Some(20 + n) else None
  }

  function RegToken(ts: seq<Token>): Option<Reg> {
    if ts != [] && ts[0].Register? then RegNumber(ts[0].name) else None
  }

  /** The address between brackets, and what follows. */
  function AddressTokens(ts: seq<Token>): Option<(Address, seq<Token>)> {
    if |ts| < 3 || ts[0] != Open then None
    else if ts[1].Number? then Some((ByNum(ts[1].n), ts[3..]))
    else
      var r := RegToken(ts[1..]);
      if r.Some? then Some((ByReg(r.value), ts[3..])) else None
  }

  /** machine_execute_mov */
  function MovTokens(ts: seq<Token>): Option<Instr<int>> {
    var d := DestTokens(ts);
    if d.None? || d.value.1 == [] || d.value.1[0] != Comma then None
    else
      var src := SourceTokens(d.value.1[1..]);
      if src.None? then None else Some(Mov(d.value.0, src.value))
  }

  function DestTokens(ts: seq<Token>): Option<(Dest, seq<Token>)> {
    var a := AddressTokens(ts);
    if a.Some? then Some((ToCell(a.value.0), a.value.1))
    else
      var r := RegToken(ts);
      if r.Some? then Some((ToReg(r.value), ts[1..])) else None
  }

  function SourceTokens(ts: seq<Token>): Option<Source> {
    var a := AddressTokens(ts);
    if a.Some? then Some(FromCell(a.value.0))
    else if ts == [] then None
    else
      match ts[0]
      case Number(n) => Some(FromNum(n))
      case Quoted(s) => Some(FromText(s))
      case Register(_) =>
        var r := RegToken(ts);
        if r.Some? then Some(FromReg(r.value)) else None
      case _ => None
  }

  /** A register, a comma, and a number or register: the arithmetic instructions. */
  function ArithTokens(op: ArithOp, ts: seq<Token>): Option<Instr<int>> {
    var l := RegToken(ts);
    if l.None? || |ts| < 3 || ts[1] != Comma then None
    else if ts[2].Number? then Some(Arith(op, l.value, NumOp(ts[2].n)))
    else
      var r := RegToken(ts[2..]);
      if r.Some? then Some(Arith(op, l.value, RegOp(r.value))) else None
  }

  function LogicTokens(op: RelOp, ts: seq<Token>): Option<Instr<int>> {
    var l := RegToken(ts);
    if l.None? || |ts| < 3 || ts[1] != Comma then None
    else
      var r := RegToken(ts[2..]);
      if r.Some? then Some(Logic(op, l.value, r.value)) else None
  }

  function JumpIfTokens(zero: bool, ts: seq<Token>): Option<Instr<int>> {
    var r := RegToken(ts);
    if r.None? || |ts| < 3 || ts[1] != Comma || !ts[2].Number? then None
    else Some(if zero then Jz(r.value, ts[2].n) else Jnz(r.value, ts[2].n))
  }

  function TargetTokens(call: bool, ts: seq<Token>): Option<Instr<int>> {
    if ts == [] || !ts[0].Number? then None else Some(if call then Call(ts[0].n) else Jmp(ts[0].n))
  }

  function StackTokens(push: bool, ts: seq<Token>): Option<Instr<int>> {
    var r := RegToken(ts);
    if r.None? then None else Some(if push then Push(r.value) else Pop(r.value))
  }

  /** machine_execute_instruction; tokens after an instruction's own are dropped. */
  function Decode(ts: seq<Token>): Option<Instr<int>> {
    if ts == [] || !ts[0].Opcode? then None
    else
      var rest := ts[1..];
      match ts[0].name
      case "MOV" => MovTokens(rest)
      case "PORT" => MovTokens(rest)
      case "ADD" => ArithTokens(Add, rest)
      case "SUB" => ArithTokens(Sub, rest)
      case "MUL" => ArithTokens(Mul, rest)
      case "DIV" => ArithTokens(Div, rest)
      case "MOD" => ArithTokens(Mod, rest)
      case "LT" => LogicTokens(Lt, rest)
      case "GT" => LogicTokens(Gt, rest)
      case "EQ" => LogicTokens(Eq, rest)
      case "NE" => LogicTokens(Ne, rest)
      case "GE" => LogicTokens(Ge, rest)
      case "LE" => LogicTokens(Le, rest)
      case "JZ" => JumpIfTokens(true, rest)
      case "JNZ" => JumpIfTokens(false, rest)
      case "JMP" => TargetTokens(false, rest)
      case "CALL" => TargetTokens(true, rest)
      case "PUSH" => StackTokens(true, rest)
      case "POP" => StackTokens(false, rest)
      case "RET" => Some(Ret)
      case "HALT" => Some(Halt)
      case _ => None
  }

  // ---- tokens of printed text

  /** Text after a token that ends it. */
  predicate Ends(rest: string) {
    rest == "" || !(IsDigit(rest[0]) || IsLetter(rest[0]))
  }

  lemma {:induction false} DigitsOf(s: string, rest: string)
    requires AllDigits(s) && (rest == "" || !IsDigit(rest[0]))
    ensures Digits(s + rest) == |s|
    decreases |s|
  {
    if s != "" {
      assert (s + rest)[1..] == s[1..] + rest;
      DigitsOf(s[1..], rest);
    } else {
      assert s + rest == rest;
    }
  }

  lemma {:induction false} LettersOf(s: string, rest: string)
    requires (forall i | 0 <= i < |s| :: IsLetter(s[i])) && (rest == "" || !IsLetter(rest[0]))
    ensures Letters(s + rest) == |s|
    decreases |s|
  {
    if s != "" {
      assert (s + rest)[1..] == s[1..] + rest;
      LettersOf(s[1..], rest);
    } else {
      assert s + rest == rest;
    }
  }

  lemma {:induction false} UnquotedOf(s: string, rest: string)
    requires (forall i | 0 <= i < |s| :: s[i] != '"') && (rest == "" || rest[0] == '"')
    ensures Unquoted(s + rest) == |s|
    decreases |s|
  {
    if s != "" {
      assert (s + rest)[1..] == s[1..] + rest;
      UnquotedOf(s[1..], rest);
    } else {
      assert s + rest == rest;
    }
  }

  lemma LexStep(a: string, rest: string, t: Token)
    requires a != "" && First(a + rest) == (Some(t), |a|)
    ensures Lex(a + rest) == [t] + Lex(rest)
  {
    hide First;
    assert (a + rest)[|a|..] == rest;
  }

  lemma LexNumber(n: int, rest: string)
    requires Ends(rest)
    ensures Lex(IntText(n) + rest) == [Number(n)] + Lex(rest)
  {
    var s := IntText(n);
    IntTextRoundTrip(n);
    var m: nat := if n < 0 then -n else n;
    NatTextDigits(m);
    assert IsDigit(NatText(m)[0]);
    DigitsOf(NatText(m), rest);
    assert (s + rest)[..|s|] == s;
    if n < 0 {
      assert s == "-" + NatText(m) && (s + rest)[1..] == NatText(m) + rest;
    }
    LexStep(s, rest, Number(n));
  }

  lemma LexReg(r: Reg, rest: string)
    requires Ends(rest)
    ensures Lex(A.RegName(r) + rest) == [Register(A.RegName(r))] + Lex(rest)
    ensures RegNumber(A.RegName(r)) == Some(r)
  {
    hide Lex, First, Letters, Digits, Unquoted, A.RegName, IntText, NatText, RegNumber, IndexOf, Atoi;
    var s := A.RegName(r);
    if r < 24 {
      LexNumbered(r, rest);
    } else {
      LexSpecial(r, rest);
    }
  }

  lemma LexNumbered(r: Reg, rest: string)
    requires Ends(rest) && r < 24
    ensures Lex(A.RegName(r) + rest) == [Register(A.RegName(r))] + Lex(rest)
    ensures RegNumber(A.RegName(r)) == Some(r)
  {
    hide Lex, First, NatText, IntText, Atoi, IndexOf, Letters, Digits;
    var n: nat := if r < 20 then r else r - 20;
    var c := if r < 20 then 'R' else 'P';
    var s := A.RegName(r);
    assert s == [c] + NatText(n);
    NatTextDigits(n);
    IntIsNat(n);
    IntTextRoundTrip(n);
    if r >= 20 {
      OneDigit(n);
    }
    assert s[1..] == NatText(n);
    NotSpecial(s);
    FirstNumbered(c, NatText(n), rest);
    LexStep(s, rest, Register(s));
  }

  lemma IntIsNat(n: nat)
    ensures IntText(n) == NatText(n)
  {
  }

  lemma FirstNumbered(c: char, digits: string, rest: string)
    requires c in {'R', 'P'} && digits != "" && AllDigits(digits) && Ends(rest) && (c == 'P' ==> |digits| == 1 && '0' <= digits[0] <= '3')
    ensures var s := [c] + digits; First(s + rest) == (Some(Register(s)), |s|)
  {
    hide Atoi, Unquoted;
    var s := [c] + digits;
    assert (s + rest)[1..] == digits + rest && (s + rest)[0] == c && (s + rest)[..|s|] == s;
    assert IsDigit(digits[0]) && (digits + rest)[0] == digits[0];
    DigitsOf(digits, rest);
    assert Letters(digits + rest) == 0;
  }

  lemma OneDigit(n: nat)
    requires n < 10
    ensures NatText(n) == [('0' as int + n) as char]
  {
  }

  lemma NotSpecial(s: string)
    requires |s| >= 2 && IsDigit(s[1])
    ensures IndexOf(Special, s) == -1
  {
    assert forall k | 0 <= k < |Special| :: !IsDigit(Special[k][1]);
    NotThere(Special, s);
  }

  lemma {:induction false} NotThere(names: seq<string>, s: string)
    requires forall k | 0 <= k < |names| :: names[k] != s
    ensures IndexOf(names, s) == -1
  {
    if names != [] {
      NotThere(names[1..], s);
    }
  }

  lemma {:induction false} IsThere(names: seq<string>, k: nat)
    requires k < |names| && forall i, j | 0 <= i < j < |names| :: names[i] != names[j]
    ensures IndexOf(names, names[k]) == k
  {
    if k > 0 {
      assert names[1..][k - 1] == names[k];
      IsThere(names[1..], k - 1);
    }
  }

  lemma LexSpecial(r: Reg, rest: string)
    requires Ends(rest) && r >= 24
    ensures Lex(A.RegName(r) + rest) == [Register(A.RegName(r))] + Lex(rest)
    ensures RegNumber(A.RegName(r)) == Some(r)
  {
    var s := Special[r - 24];
    assert s == A.RegName(r) && s in Special;
    SpecialNames();
    IsThere(Special, r - 24);
    LexWord(s, rest);
  }

  lemma SpecialNames()
    ensures forall i, j | 0 <= i < j < |Special| :: Special[i] != Special[j]
    ensures forall k | 0 <= k < |Special| :: |Special[k]| >= 2 && forall i | 0 <= i < |Special[k]| :: IsLetter(Special[k][i])
  {
  }

  /** A word of at least two letters. */
  lemma LexWord(s: string, rest: string)
    requires |s| >= 2 && (forall i | 0 <= i < |s| :: IsLetter(s[i])) && Ends(rest)
    ensures Lex(s + rest) == [if s in Special then Register(s) else Opcode(s)] + Lex(rest)
  {
    LettersOf(s, rest);
    assert (s + rest)[..|s|] == s && (s + rest)[0] == s[0];
    LexStep(s, rest, if s in Special then Register(s) else Opcode(s));
  }

  lemma LexSkip(rest: string)
    ensures Lex(" " + rest) == Lex(rest)
    ensures Lex("," + rest) == [Comma] + Lex(rest)
    ensures Lex("[" + rest) == [Open] + Lex(rest)
    ensures Lex("]" + rest) == [Close] + Lex(rest)
  {
    hide Letters, Digits, Unquoted, Atoi;
    assert (" " + rest)[1..] == rest && First(" " + rest) == (None, 1);
    LexMark(",", rest, Comma);
    LexMark("[", rest, Open);
    LexMark("]", rest, Close);
  }

  lemma LexMark(c: string, rest: string, t: Token)
    requires (c == "," && t == Comma) || (c == "[" && t == Open) || (c == "]" && t == Close)
    ensures Lex(c + rest) == [t] + Lex(rest)
  {
    hide Lex, Letters, Digits, Unquoted, Atoi;
    assert (c + rest)[0] == c[0];
    LexStep(c, rest, t);
  }

  lemma FirstQuoted(s: string)
    requires forall i | 0 <= i < |s| :: s[i] != '"'
    ensures var t := "\"" + s; First(t + "\"") == (Some(Quoted(s)), |t|)
  {
    hide Digits, Letters, Atoi;
    var t := "\"" + s;
    UnquotedOf(s, "\"");
    assert (t + "\"")[1..] == s + "\"" && (t + "\"")[1..1 + |s|] == s;
  }

  lemma LexQuoted(s: string)
    requires forall i | 0 <= i < |s| :: s[i] != '"'
    ensures Lex("\"" + s + "\"") == [Quoted(s), Quoted("")]
  {
    hide Lex, First;
    var t := "\"" + s;
    FirstQuoted(s);
    LexStep(t, "\"", Quoted(s));
    LexQuote();
  }

  lemma LexEmpty()
    ensures Lex("") == []
  {
  }

  lemma LexQuote()
    ensures Lex("\"") == [Quoted("")]
  {
    var q := "\"";
    assert q[1..] == "" && Unquoted("") == 0 && q[1..1] == "";
    assert First(q) == (Some(Quoted("")), 1);
    assert Lex(q) == [Quoted("")] + Lex(q[1..]);
  }

  lemma Grouped(a: string, b: string, c: string, d: string)
    ensures a + b + c + d == a + (b + (c + d))
  {
  }

  lemma Bracketed(a: Address)
    ensures A.AddressText(a) == "[" + (if a.ByReg? then A.RegName(a.r) else IntText(a.n)) + "]"
  {
    hide A.RegName, IntText;
  }

  lemma LexAddress(a: Address, rest: string)
    requires Ends(rest)
    ensures Lex(A.AddressText(a) + rest) == [Open, if a.ByReg? then Register(A.RegName(a.r)) else Number(a.n), Close] + Lex(rest)
    ensures a.ByReg? ==> RegNumber(A.RegName(a.r)) == Some(a.r)
  {
    hide Lex, First, Letters, Digits, Unquoted, A.RegName, IntText, NatText, RegNumber, IndexOf, Atoi;
    var inner := if a.ByReg? then A.RegName(a.r) else IntText(a.n);
    Bracketed(a);
    Grouped("[", inner, "]", rest);
    assert A.AddressText(a) + rest == "[" + (inner + ("]" + rest));
    LexSkip(inner + ("]" + rest));
    LexSkip(rest);
    if a.ByReg? {
      LexReg(a.r, "]" + rest);
    } else {
      LexNumber(a.n, "]" + rest);
    }
  }

  // ---- printed instructions are read back

  /** What the compilers print: texts without quotes. */
  predicate Printable(i: Instr<int>) {
    i.Mov? && i.src.FromText? ==> forall k | 0 <= k < |i.src.s| :: i.src.s[k] != '"'
  }

  lemma LexOp(op: string, operands: string)
    requires |op| >= 2 && (forall i | 0 <= i < |op| :: IsLetter(op[i])) && op !in Special
    ensures Lex(op + " " + operands) == [Opcode(op)] + Lex(operands)
  {
    hide Lex, First, Letters, Digits, Unquoted, A.RegName, IntText, NatText, RegNumber, IndexOf, Atoi;
    assert op + " " + operands == op + (" " + operands);
    LexWord(op, " " + operands);
    LexSkip(operands);
  }

  lemma LexRegComma(r: Reg, rest: string)
    ensures Lex(A.RegName(r) + ", " + rest) == [Register(A.RegName(r)), Comma] + Lex(rest)
    ensures RegNumber(A.RegName(r)) == Some(r)
  {
    hide Lex, First, Letters, Digits, Unquoted, A.RegName, IntText, NatText, RegNumber, IndexOf, Atoi;
    assert A.RegName(r) + ", " + rest == A.RegName(r) + ("," + (" " + rest));
    LexReg(r, "," + (" " + rest));
    LexSkip(" " + rest);
    LexSkip(rest);
  }

  /** Opcodes are words, and no registers. */
  lemma OpcodeIsWord(i: Instr<int>)
    ensures var op := A.Opcode(i); |op| >= 2 && (forall k | 0 <= k < |op| :: IsLetter(op[k])) && op !in Special
  {
  }

  lemma ReadsMov(i: Instr<int>)
    requires i.Mov? && Printable(i)
    ensures Decode(Lex(A.CodeLine(i))) == Some(i)
  {
    hide Lex, First, Letters, Digits, Unquoted, A.RegName, IntText, NatText, RegNumber, IndexOf, Atoi;
    var op, src := A.Opcode(i), A.SourceText(i.src);
    OpcodeIsWord(i);
    LexOp(op, A.DestText(i.d) + ", " + src);
    ReadsSource(i.src);
    match i.d {
      case ToReg(r) => LexRegComma(r, src);
      case ToCell(a) =>
        assert A.DestText(i.d) + ", " + src == A.AddressText(a) + ("," + (" " + src));
        LexAddress(a, "," + (" " + src));
        LexSkip(" " + src);
        LexSkip(src);
    }
  }

  lemma ReadsSource(src: Source)
    requires src.FromText? ==> forall k | 0 <= k < |src.s| :: src.s[k] != '"'
    ensures SourceTokens(Lex(A.SourceText(src))) == Some(src)
  {
    hide Lex, First, Letters, Digits, Unquoted, A.RegName, IntText, NatText, RegNumber, IndexOf, Atoi;
    var s := A.SourceText(src);
    assert s + "" == s;
    match src {
      case FromReg(r) => LexReg(r, "");
      case FromNum(n) => LexNumber(n, "");
      case FromText(t) => LexQuoted(t);
      case FromCell(a) => LexAddress(a, "");
    }
  }

  lemma ReadsArith(i: Instr<int>)
    requires i.Arith?
    ensures Decode(Lex(A.CodeLine(i))) == Some(i)
  {
    hide Lex, First, Letters, Digits, Unquoted, A.RegName, IntText, NatText, RegNumber, IndexOf, Atoi;
    var o := match i.o case RegOp(r) => A.RegName(r) case NumOp(n) => IntText(n);
    OpcodeIsWord(i);
    LexOp(A.Opcode(i), A.RegName(i.l) + ", " + o);
    LexRegComma(i.l, o);
    assert o + "" == o;
    match i.o {
      case RegOp(r) => LexReg(r, "");
      case NumOp(n) => LexNumber(n, "");
    }
  }

  lemma ReadsLogic(i: Instr<int>)
    requires i.Logic?
    ensures Decode(Lex(A.CodeLine(i))) == Some(i)
  {
    hide Lex, First, Letters, Digits, Unquoted, A.RegName, IntText, NatText, RegNumber, IndexOf, Atoi;
    OpcodeIsWord(i);
    LexOp(A.Opcode(i), A.RegName(i.l) + ", " + A.RegName(i.r));
    LexRegComma(i.l, A.RegName(i.r));
    LexReg(i.r, "");
    assert A.RegName(i.r) + "" == A.RegName(i.r);
  }

  lemma ReadsJump(i: Instr<int>)
    requires A.IsJump(i)
    ensures Decode(Lex(A.CodeLine(i))) == Some(i)
  {
    hide Lex, First, Letters, Digits, Unquoted, A.RegName, IntText, NatText, RegNumber, IndexOf, Atoi;
    OpcodeIsWord(i);
    var t := IntText(i.target);
    LexNumber(i.target, "");
    assert t + "" == t;
    if i.Jz? || i.Jnz? {
      assert A.CodeLine(i) == A.Opcode(i) + " " + (A.RegName(i.r) + ", " + t);
      LexOp(A.Opcode(i), A.RegName(i.r) + ", " + t);
      LexRegComma(i.r, t);
    } else {
      LexOp(A.Opcode(i), t);
    }
  }

  lemma ReadsStack(i: Instr<int>)
    requires i.Push? || i.Pop?
    ensures Decode(Lex(A.CodeLine(i))) == Some(i)
  {
    hide Lex, First, Letters, Digits, Unquoted, A.RegName, IntText, NatText, RegNumber, IndexOf, Atoi;
    OpcodeIsWord(i);
    LexOp(A.Opcode(i), A.RegName(i.r));
    LexReg(i.r, "");
    assert A.RegName(i.r) + "" == A.RegName(i.r);
  }

  /** The machine reads every printed instruction as the instruction it was printed from. */
  lemma ReadsBack(i: Instr<int>)
    requires Printable(i)
    ensures Decode(Lex(A.CodeLine(i))) == Some(i)
  {
    hide Decode, Lex, A.CodeLine;
    if i.Mov? {
      ReadsMov(i);
    } else if i.Arith? {
      ReadsArith(i);
    } else if i.Logic? {
      ReadsLogic(i);
    } else if A.IsJump(i) {
      ReadsJump(i);
    } else if i.Push? || i.Pop? {
      ReadsStack(i);
    } else {
      ReadsPlain(i);
    }
  }

  lemma ReadsPlain(i: Instr<int>)
    requires i.Ret? || i.Halt?
    ensures Decode(Lex(A.CodeLine(i))) == Some(i)
  {
    hide Lex, First, Letters, Digits, Unquoted;
    OpcodeIsWord(i);
    LexWord(A.Opcode(i), "");
    assert A.Opcode(i) + "" == A.Opcode(i);
    LexEmpty();
  }
}
