/** Words of the XSM machine and the C operations that the machine and both
    compilers rely on (xsm/word.c, xsm/machine.c). A word is text; one that was
    stored as an integer is kept as that integer. */
module Words {

  datatype Word = Int(n: int) | Str(s: string)

  datatype ArithOp = Add | Sub | Mul | Div | Mod

  datatype RelOp = Lt | Gt | Eq | Ne | Ge | Le

  predicate IsDigit(c: char) {
    '0' <= c <= '9'
  }

  predicate AllDigits(s: string) {
    forall i | 0 <= i < |s| :: IsDigit(s[i])
  }

  predicate HasSign(s: string) {
    s != [] && (s[0] == '+' || s[0] == '-')
  }

  /** The text has integer type: an optional sign and then only digits. */
  predicate NumericText(s: string) {
    AllDigits(if HasSign(s) then s[1..] else s)
  }

  function DigitsValue(s: string, acc: nat): nat {
    if s == [] || !IsDigit(s[0]) then acc
    else DigitsValue(s[1..], 10 * acc + (s[0] - '0') as nat)
  }

  /** C's atoi: blanks, an optional sign, then the longest run of digits. */
  function Atoi(s: string): int {
    if s != [] && (s[0] == ' ' || '\t' <= s[0] <= '\r') then Atoi(s[1..])
    else if HasSign(s) then
      (var v: int := DigitsValue(s[1..], 0);
      if s[0] == '-' then -v else v)
    else DigitsValue(s, 0)
  }

  function NatText(n: nat): string {
    (if n < 10 then "" else NatText(n / 10)) + [('0' as int + n % 10) as char]
  }

  function IntText(n: int): string {
    if n < 0 then "-" + NatText(-n) else NatText(n)
  }

  predicate IsString(w: Word) {
    w.Str? && !NumericText(w.s)
  }

  function ToInt(w: Word): int {
    match w
    case Int(n) => n
    case Str(s) => Atoi(s)
  }

  function Text(w: Word): string {
    match w
    case Int(n) => IntText(n)
    case Str(s) => s
  }

  /** The test of JZ and JNZ: a string counts as true. */
  predicate Truth(w: Word) {
    IsString(w) || ToInt(w) != 0
  }

  /** C's strcmp, reduced to its sign. */
  function Strcmp(a: string, b: string): int {
    if a == [] && b == [] then 0
    else if a == [] then -1
    else if b == [] then 1
    else if a[0] != b[0] then (if a[0] < b[0] then -1 else 1)
    else Strcmp(a[1..], b[1..])
  }

  /** Division truncates towards zero (section 6.5.5 of ISO C11). */
  function TruncDiv(a: int, b: int): int
    requires b != 0
  {
    if a >= 0 then (if b > 0 then a / b else -(a / -b))
    else (if b > 0 then -(-a / b) else -a / -b)
  }

  function TruncMod(a: int, b: int): int
    requires b != 0
  {
    a - b * TruncDiv(a, b)
  }

  predicate Compare(op: RelOp, d: int) {
    match op
    case Lt => d < 0
    case Gt => d > 0
    case Eq => d == 0
    case Ne => d != 0
    case Ge => d >= 0
    case Le => d <= 0
  }

  /** The value of a comparison instruction: by text when either word is a
      string, by number otherwise. */
  function RelValue(op: RelOp, l: Word, r: Word): Word {
    var d := if IsString(l) || IsString(r) then Strcmp(Text(l), Text(r)) else ToInt(l) - ToInt(r);
    if Compare(op, d) then Int(1) else Int(0)
  }

  predicate ArithDefined(op: ArithOp, r: int) {
    (op == Div || op == Mod) ==> r != 0
  }

  function ArithValue(op: ArithOp, l: int, r: int): int
    requires ArithDefined(op, r)
  {
    match op
    case Add => r + l
    case Sub => l - r
    case Mul => l * r
    case Div => TruncDiv(l, r)
    case Mod => TruncMod(l, r)
  }

  /** The operator that gives the same answer with its operands exchanged. */
  function Flip(op: RelOp): RelOp {
    match op
    case Lt => Gt
    case Gt => Lt
    case Eq => Eq
    case Ne => Ne
    case Ge => Le
    case Le => Ge
  }

  lemma {:induction false} StrcmpAntisymmetric(a: string, b: string)
    ensures Strcmp(a, b) == -Strcmp(b, a)
    decreases |a|
  {
    if a != [] && b != [] && a[0] == b[0] {
      StrcmpAntisymmetric(a[1..], b[1..]);
    }
  }

  /** Comparing the exchanged operands with the flipped operator gives the same
      word, for numbers and for strings. */
  lemma FlipExchanges(op: RelOp, l: Word, r: Word)
    ensures RelValue(op, l, r) == RelValue(Flip(op), r, l)
  {
    StrcmpAntisymmetric(Text(l), Text(r));
  }

  /** TruncMod takes the sign of the dividend and is smaller than the divisor. */
  lemma TruncModRange(a: int, b: int)
    requires b != 0
    ensures a == b * TruncDiv(a, b) + TruncMod(a, b)
    ensures TruncMod(a, b) != 0 ==> (TruncMod(a, b) > 0 <==> a > 0)
    ensures -(if b > 0 then b else -b) < TruncMod(a, b) < (if b > 0 then b else -b)
  {
    var p, q := if a >= 0 then a else -a, if b > 0 then b else -b;
    assert p == q * (p / q) + p % q;
    assert TruncDiv(a, b) == (if (a >= 0) == (b > 0) then p / q else -(p / q));
    assert b * TruncDiv(a, b) == (if a >= 0 then q * (p / q) else -(q * (p / q)));
  }

  // ---- numbers ----

  lemma {:induction false} NatTextDigits(n: nat)
    ensures NatText(n) != "" && AllDigits(NatText(n))
  {
    if n >= 10 {
      NatTextDigits(n / 10);
    }
  }

  lemma {:induction false} DigitsValueAppend(s: string, c: char, acc: nat)
    requires AllDigits(s) && IsDigit(c)
    ensures DigitsValue(s + [c], acc) == 10 * DigitsValue(s, acc) + (c - '0') as nat
    decreases |s|
  {
    if s == "" {
      assert (s + [c])[1..] == "";
    } else {
      assert (s + [c])[1..] == s[1..] + [c];
      DigitsValueAppend(s[1..], c, 10 * acc + (s[0] - '0') as nat);
    }
  }

  lemma {:induction false} NatTextValue(n: nat)
    ensures DigitsValue(NatText(n), 0) == n
  {
    NatTextDigits(n);
    if n < 10 {
      assert NatText(n) == "" + [('0' as int + n % 10) as char];
      DigitsValueAppend("", ('0' as int + n % 10) as char, 0);
    } else {
      NatTextDigits(n / 10);
      NatTextValue(n / 10);
      DigitsValueAppend(NatText(n / 10), ('0' as int + n % 10) as char, 0);
    }
  }

  /** Storing an integer as text and reading it back gives the integer. */
  lemma IntTextRoundTrip(n: int)
    ensures Atoi(IntText(n)) == n && NumericText(IntText(n))
  {
    var m: nat := if n < 0 then -n else n;
    NatTextDigits(m);
    NatTextValue(m);
    assert IsDigit(NatText(m)[0]);
    if n < 0 {
      assert IntText(n)[1..] == NatText(m);
    }
  }
}
