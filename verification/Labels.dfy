/** The two-pass label resolver on text (xfs-interface/labels.c). A file is the
    list of its lines without their newlines. */
module Labels {
  import opened Words

  /** XSM_INSTRUCTION_SIZE * XSM_WORD_SIZE: the characters that one fgets of phase one
      reads, one less than its buffer. */
  const PHASE_ONE_WIDTH := 32
  /** The same for phase two. */
  const PHASE_TWO_WIDTH := 99

  datatype Entry = Entry(name: string, address: int)

  datatype Resolved = Resolved(ok: bool, out: seq<string>)

  /** What successive calls of fgets return for one line, newline removed. */
  function Pieces(line: string, width: nat): seq<string>
    requires width > 0
    decreases |line|
  {
    if |line| < width then [line] else [line[..width]] + Pieces(line[width..], width)
  }

  function AllPieces(lines: seq<string>, width: nat): seq<string>
    requires width > 0
  {
    if lines == [] then [] else Pieces(lines[0], width) + AllPieces(lines[1..], width)
  }

  /** labels_is_label; for an empty line the original looks before its buffer,
      which is taken to be no colon. */
  predicate IsLabel(s: string) {
    s != "" && s[|s| - 1] == ':'
  }

  predicate IsInstruction(s: string) {
    s != "" && !IsLabel(s)
  }

  function Skip(s: string, seps: string): string {
    if s != "" && s[0] in seps then Skip(s[1..], seps) else s
  }

  function Front(s: string, seps: string): (w: string)
    ensures |w| <= |s|
    ensures s != "" && s[0] !in seps ==> w != ""
  {
    if s == "" || s[0] in seps then "" else [s[0]] + Front(s[1..], seps)
  }

  lemma {:induction false} SkipShorter(s: string, seps: string)
    ensures |Skip(s, seps)| <= |s| && (Skip(s, seps) != "" ==> Skip(s, seps)[0] !in seps)
  {
    if s != "" && s[0] in seps {
      SkipShorter(s[1..], seps);
    }
  }

  /** The tokens that repeated calls of strtok return. */
  function Tokens(s: string, seps: string): seq<string>
    decreases |s|
  {
    SkipShorter(s, seps);
    var t := Skip(s, seps);
    if t == "" then [] else
      var w := Front(t, seps);
      [w] + Tokens(t[|w|..], seps)
  }

  /** labels_get_name. */
  function LabelName(s: string): string {
    var t := Tokens(s, ":");
    if t == [] then "" else t[0]
  }

  function UpperChar(c: char): char {
    if 'a' <= c <= 'z' then (c as int - 32) as char else c
  }

  function Upper(s: string): (u: string)
    ensures |u| == |s|
  {
    if s == "" then "" else [UpperChar(s[0])] + Upper(s[1..])
  }

  predicate IsAlpha(c: char) {
    'a' <= c <= 'z' || 'A' <= c <= 'Z'
  }

  /** labels_is_charstring: the operand is a name and not a number. */
  predicate IsName(s: string) {
    exists i | 0 <= i < |s| :: IsAlpha(s[i])
  }

  datatype Jump = NoJump | ToName(prefix: string, name: string)

  /** Whether a line is a jump or call to a name, and what is printed before the target. */
  function JumpOf(line: string): Jump {
    var t := Tokens(line, " ,");
    if t == [] then NoJump
    else
      var op := Upper(t[0]);
      if (op == "JMP" || op == "CALL") && |t| > 1 && IsName(t[1]) then ToName(t[0] + " ", t[1])
      else if (op == "JNZ" || op == "JZ") && |t| > 2 && IsName(t[2]) then ToName(t[0] + " " + t[1] + ", ", t[2])
      else NoJump
  }

  function InstructionCount(lines: seq<string>, k: nat): nat
    requires k <= |lines|
  {
    if k == 0 then 0 else InstructionCount(lines, k - 1) + (if IsInstruction(lines[k - 1]) then 1 else 0)
  }

  /** The list after phase one has read k pieces, latest label first. */
  function Entries(pieces: seq<string>, k: nat): seq<Entry>
    requires k <= |pieces|
  {
    if k == 0 then []
    else if IsLabel(pieces[k - 1]) then
      [Entry(LabelName(pieces[k - 1]), 2 * InstructionCount(pieces, k - 1))] + Entries(pieces, k - 1)
    else Entries(pieces, k - 1)
  }

  function Find(root: seq<Entry>, name: string): int {
    if root == [] then -1 else if root[0].name == name then root[0].address else Find(root[1..], name)
  }

  /** What phase two makes of one more piece; it stops at a name it cannot find. */
  function PieceResolved(before: Resolved, line: string, root: seq<Entry>, base: int): Resolved {
    if !before.ok || !IsInstruction(line) then before
    else
      match JumpOf(line)
      case NoJump => before.(out := before.out + [line])
      case ToName(prefix, name) =>
        var address := Find(root, name);
        if address < 0 then before.(ok := false)
        else before.(out := before.out + [prefix + IntText(address + base)])
  }

  /** Phase two over the first k pieces. */
  function PhaseTwoTo(pieces: seq<string>, root: seq<Entry>, base: int, k: nat): Resolved
    requires k <= |pieces|
  {
    if k == 0 then Resolved(true, []) else PieceResolved(PhaseTwoTo(pieces, root, base, k - 1), pieces[k - 1], root, base)
  }

  function ResolveText(lines: seq<string>, base: int): Resolved {
    var one, two := AllPieces(lines, PHASE_ONE_WIDTH), AllPieces(lines, PHASE_TWO_WIDTH);
    PhaseTwoTo(two, Entries(one, |one|), base, |two|)
  }

  /** The resolver with its global list of labels. */
  class Resolver {
    var root: seq<Entry>

    constructor ()
      ensures root == []
    {
      root := [];
    }

    /** labels_insert puts the new label in front. */
    method Insert(name: string, address: int)
      modifies this
      ensures root == [Entry(name, address)] + old(root)
    {
      root := [Entry(name, address)] + root;
    }

    method GetTarget(name: string) returns (address: int)
      ensures address == Find(root, name)
    {
      var i := 0;
      while i < |root|
        invariant 0 <= i <= |root|
        invariant Find(root, name) == Find(root[i..], name)
      {
        if root[i].name == name {
          return root[i].address;
        }
        i := i + 1;
      }
      return -1;
    }

    method PhaseOne(pieces: seq<string>)
      requires root == []
      modifies this
      ensures root == Entries(pieces, |pieces|)
    {
      var address, i := 0, 0;
      while i < |pieces|
        invariant 0 <= i <= |pieces|
        invariant root == Entries(pieces, i) && address == 2 * InstructionCount(pieces, i)
      {
        if IsLabel(pieces[i]) {
          Insert(LabelName(pieces[i]), address);
        } else if |pieces[i]| > 0 {
          address := address + 2;
        }
        i := i + 1;
      }
    }

    method PhaseTwo(pieces: seq<string>, base: int) returns (r: Resolved)
      ensures r == PhaseTwoTo(pieces, root, base, |pieces|)
    {
      hide JumpOf, Find, IsLabel, IntText;
      var out, i := [], 0;
      while i < |pieces|
        invariant 0 <= i <= |pieces|
        invariant PhaseTwoTo(pieces, root, base, i) == Resolved(true, out)
      {
        var line := pieces[i];
        i := i + 1;
        if IsLabel(line) || |line| == 0 {
          continue;
        }
        var jump := JumpOf(line);
        if jump.ToName? {
          var address := GetTarget(jump.name);
          if address < 0 {
            PhaseTwoStops(pieces, root, base, i, |pieces|);
            return Resolved(false, out);
          }
          out := out + [jump.prefix + IntText(address + base)];
        } else {
          out := out + [line];
        }
      }
      return Resolved(true, out);
    }

    method ResolveFile(lines: seq<string>, base: int) returns (r: Resolved)
      requires root == []
      modifies this
      ensures r == ResolveText(lines, base)
    {
      PhaseOne(AllPieces(lines, PHASE_ONE_WIDTH));
      r := PhaseTwo(AllPieces(lines, PHASE_TWO_WIDTH), base);
    }
  }

  lemma {:induction false} PhaseTwoStops(pieces: seq<string>, root: seq<Entry>, base: int, i: nat, n: nat)
    requires i <= n <= |pieces| && !PhaseTwoTo(pieces, root, base, i).ok
    ensures PhaseTwoTo(pieces, root, base, n) == PhaseTwoTo(pieces, root, base, i)
  {
    hide JumpOf, Find, IsLabel, IntText;
    if i < n {
      PhaseTwoStops(pieces, root, base, i, n - 1);
    }
  }

  // ---- lines and the pieces they are read in

  predicate HasColon(s: string) {
    exists i | 0 <= i < |s| :: s[i] == ':'
  }

  /** A line that a pass of this width does not take for a label in the middle: it is
      read in one piece, or it is an instruction without a colon. */
  predicate LineOk(line: string, width: nat) {
    |line| <= width || !HasColon(line)
  }

  ghost predicate LinesOk(lines: seq<string>, width: nat) {
    forall k | 0 <= k < |lines| :: LineOk(lines[k], width)
  }

  /** How many pieces that are not empty a line of n characters gives. */
  function Parts(n: nat, width: nat): (r: nat)
    requires width > 0
    ensures (r == 0 <==> n == 0) && (r <= 1 <==> n <= width)
  {
    if n == 0 then 0 else if n <= width then 1 else 1 + Parts(n - width, width)
  }

  /** What a pass of this width counts for the first k lines. */
  function Counted(lines: seq<string>, k: nat, width: nat): nat
    requires k <= |lines| && width > 0
  {
    if k == 0 then 0
    else Counted(lines, k - 1, width) + (if IsInstruction(lines[k - 1]) then Parts(|lines[k - 1]|, width) else 0)
  }

  /** The labels of the first k lines, with the addresses that phase one gives them. */
  function Listed(lines: seq<string>, k: nat): seq<Entry>
    requires k <= |lines|
  {
    if k == 0 then []
    else if IsLabel(lines[k - 1]) then
      [Entry(LabelName(lines[k - 1]), 2 * Counted(lines, k - 1, PHASE_ONE_WIDTH))] + Listed(lines, k - 1)
    else Listed(lines, k - 1)
  }

  /** Counting and listing look at the pieces so far only. */
  lemma {:induction false} PrefixOnly(a: seq<string>, b: seq<string>, k: nat)
    requires k <= |a|
    ensures InstructionCount(a + b, k) == InstructionCount(a, k) && Entries(a + b, k) == Entries(a, k)
  {
    hide IsLabel, LabelName, IsInstruction;
    if k > 0 {
      PrefixOnly(a, b, k - 1);
    }
  }

  /** One more piece. */
  lemma PieceAdded(a: seq<string>, piece: string)
    ensures var c := a + [piece];
            && InstructionCount(c, |c|) == InstructionCount(a, |a|) + (if IsInstruction(piece) then 1 else 0)
            && Entries(c, |c|) == (if IsLabel(piece) then [Entry(LabelName(piece), 2 * InstructionCount(a, |a|))] else []) + Entries(a, |a|)
  {
    hide IsLabel, LabelName, IsInstruction;
    PrefixOnly(a, [piece], |a|);
  }

  lemma NoColonNoLabel(s: string)
    requires !HasColon(s)
    ensures !IsLabel(s) && (IsInstruction(s) <==> s != "")
  {
  }

  /** One more line, read in its pieces: an instruction of n characters counts Parts(n). */
  lemma {:induction false} LineAdded(a: seq<string>, line: string, width: nat)
    requires width > 0 && LineOk(line, width)
    ensures var c := a + Pieces(line, width);
            && InstructionCount(c, |c|) == InstructionCount(a, |a|) + (if IsInstruction(line) then Parts(|line|, width) else 0)
            && Entries(c, |c|) == (if IsLabel(line) then [Entry(LabelName(line), 2 * InstructionCount(a, |a|))] else []) + Entries(a, |a|)
    decreases |line|
  {
    hide IsLabel, LabelName, IsInstruction, HasColon, InstructionCount, Entries;
    if |line| < width {
      PieceAdded(a, line);
      ShortIsInstruction(line);
    } else {
      var first, rest := line[..width], line[width..];
      PieceAdded(a, first);
      SplitLine(line, width);
      LineAdded(a + [first], rest, width);
      assert a + Pieces(line, width) == (a + [first]) + Pieces(rest, width);
    }
  }

  lemma ShortIsInstruction(line: string)
    ensures IsInstruction(line) ==> line != ""
  {
  }

  /** The first piece of a line that does not fit below the width, and the rest. */
  lemma SplitLine(line: string, width: nat)
    requires width > 0 && LineOk(line, width) && |line| >= width
    ensures var first, rest := line[..width], line[width..];
            && LineOk(rest, width) && !IsLabel(rest) && (IsInstruction(rest) <==> rest != "")
            && (IsInstruction(first) <==> IsInstruction(line)) && (IsLabel(first) <==> IsLabel(line)) && (IsLabel(line) ==> first == line)
            && (IsInstruction(line) ==> Parts(|line|, width) == 1 + Parts(|rest|, width)) && (!IsInstruction(line) ==> rest == "")
  {
    var first, rest := line[..width], line[width..];
    if |line| == width {
      assert first == line && rest == "";
    } else {
      assert !HasColon(first) && !HasColon(rest);
      NoColonNoLabel(line);
      NoColonNoLabel(first);
      NoColonNoLabel(rest);
    }
  }

  lemma {:induction false} PiecesAppend(a: seq<string>, b: seq<string>, width: nat)
    requires width > 0
    ensures AllPieces(a + b, width) == AllPieces(a, width) + AllPieces(b, width)
  {
    hide Pieces;
    if a == [] {
      assert a + b == b;
    } else {
      assert (a + b)[1..] == a[1..] + b;
      PiecesAppend(a[1..], b, width);
    }
  }

  lemma OneLineMore(lines: seq<string>, n: nat, width: nat)
    requires width > 0 && n < |lines|
    ensures AllPieces(lines[..n + 1], width) == AllPieces(lines[..n], width) + Pieces(lines[n], width)
  {
    hide Pieces;
    assert lines[..n + 1] == lines[..n] + [lines[n]];
    PiecesAppend(lines[..n], [lines[n]], width);
    assert [lines[n]][1..] == [];
  }

  lemma {:induction false} PiecesCounted(lines: seq<string>, n: nat, width: nat)
    requires width > 0 && n <= |lines| && LinesOk(lines, width)
    ensures var c := AllPieces(lines[..n], width); InstructionCount(c, |c|) == Counted(lines, n, width)
  {
    hide IsLabel, LabelName, IsInstruction, LineOk, Pieces, InstructionCount, Entries, Parts;
    if n == 0 {
      assert lines[..0] == [];
      NothingCounted();
    } else {
      PiecesCounted(lines, n - 1, width);
      OneLineMore(lines, n - 1, width);
      LineAdded(AllPieces(lines[..n - 1], width), lines[n - 1], width);
    }
  }

  lemma NothingCounted()
    ensures InstructionCount([], 0) == 0 && Entries([], 0) == []
  {
  }

  lemma {:induction false} PiecesListed(lines: seq<string>, n: nat)
    requires n <= |lines| && LinesOk(lines, PHASE_ONE_WIDTH)
    ensures var c := AllPieces(lines[..n], PHASE_ONE_WIDTH); Entries(c, |c|) == Listed(lines, n)
  {
    hide IsLabel, LabelName, IsInstruction, LineOk, Pieces, InstructionCount, Entries, Counted;
    if n == 0 {
      assert lines[..0] == [];
      NothingCounted();
    } else {
      PiecesListed(lines, n - 1);
      PiecesCounted(lines, n - 1, PHASE_ONE_WIDTH);
      OneLineMore(lines, n - 1, PHASE_ONE_WIDTH);
      LineAdded(AllPieces(lines[..n - 1], PHASE_ONE_WIDTH), lines[n - 1], PHASE_ONE_WIDTH);
    }
  }

  /** The list that phase one leaves. */
  lemma PhaseOneLists(lines: seq<string>)
    requires LinesOk(lines, PHASE_ONE_WIDTH)
    ensures var c := AllPieces(lines, PHASE_ONE_WIDTH); Entries(c, |c|) == Listed(lines, |lines|)
  {
    hide LinesOk, Listed;
    PiecesListed(lines, |lines|);
    assert lines[..|lines|] == lines;
  }

  /** Every instruction among the first n lines is read in one piece. */
  ghost predicate OnePiece(lines: seq<string>, n: nat, width: nat)
    requires n <= |lines|
  {
    forall k | 0 <= k < n && IsInstruction(lines[k]) :: |lines[k]| <= width
  }

  lemma {:induction false} CountedIsExact(lines: seq<string>, n: nat, width: nat)
    requires n <= |lines| && width > 0
    ensures Counted(lines, n, width) >= InstructionCount(lines, n)
    ensures Counted(lines, n, width) == InstructionCount(lines, n) <==> OnePiece(lines, n, width)
  {
    hide IsInstruction;
    if n > 0 {
      CountedIsExact(lines, n - 1, width);
      ShortIsInstruction(lines[n - 1]);
    }
  }

  // ---- what the two passes achieve ----

  predicate DistinctNames(lines: seq<string>) {
    forall j, k | 0 <= j < k < |lines| && IsLabel(lines[j]) && IsLabel(lines[k]) :: LabelName(lines[j]) != LabelName(lines[k])
  }

  /** One of the first n lines is a label of this name. */
  ghost predicate Defined(lines: seq<string>, n: nat, name: string)
    requires n <= |lines|
  {
    exists j | 0 <= j < n :: IsLabel(lines[j]) && LabelName(lines[j]) == name
  }

  lemma {:induction false} FindDefined(lines: seq<string>, n: nat, name: string)
    requires n <= |lines|
    ensures Find(Listed(lines, n), name) >= 0 <==> Defined(lines, n, name)
  {
    hide LabelName, IsLabel, Counted;
    if n > 0 {
      FindDefined(lines, n - 1, name);
    }
  }

  lemma {:induction false} FindExact(lines: seq<string>, n: nat, j: nat)
    requires j < n <= |lines| && IsLabel(lines[j]) && DistinctNames(lines)
    ensures Find(Listed(lines, n), LabelName(lines[j])) == 2 * Counted(lines, j, PHASE_ONE_WIDTH)
  {
    hide LabelName, IsLabel, Counted;
    if j < n - 1 {
      FindExact(lines, n - 1, j);
    }
  }

  /** Phase one is right about a label exactly when every instruction before it has at
      most 32 characters: otherwise the label is placed too far. */
  lemma LabelPlacedIff(lines: seq<string>, j: nat)
    requires LinesOk(lines, PHASE_ONE_WIDTH) && DistinctNames(lines) && j < |lines| && IsLabel(lines[j])
    ensures var c := AllPieces(lines, PHASE_ONE_WIDTH); var found := Find(Entries(c, |c|), LabelName(lines[j]));
            && found >= 2 * InstructionCount(lines, j)
            && (found == 2 * InstructionCount(lines, j) <==> OnePiece(lines, j, PHASE_ONE_WIDTH))
  {
    hide LabelName, IsLabel, Counted, OnePiece, Listed, Find, InstructionCount;
    PhaseOneLists(lines);
    FindExact(lines, |lines|, j);
    CountedIsExact(lines, j, PHASE_ONE_WIDTH);
  }

  /** So every longer instruction misplaces a label right behind it. */
  lemma LongLineMisplaces(line: string, mark: string)
    requires |line| > PHASE_ONE_WIDTH && !HasColon(line) && IsLabel(mark) && |mark| <= PHASE_ONE_WIDTH
    ensures var c := AllPieces([line, mark], PHASE_ONE_WIDTH);
            InstructionCount([line, mark], 1) == 1 && Find(Entries(c, |c|), LabelName(mark)) > 2
  {
    hide LabelName, Find, Entries, AllPieces;
    var lines := [line, mark];
    NoColonNoLabel(line);
    assert InstructionCount(lines, 0) == 0 && lines[0] == line;
    LabelPlacedIff(lines, 1);
  }

  ghost predicate AllKnown(lines: seq<string>, n: nat)
    requires n <= |lines|
  {
    forall k | 0 <= k < n && IsInstruction(lines[k]) && JumpOf(lines[k]).ToName? :: Defined(lines, |lines|, JumpOf(lines[k]).name)
  }

  /** Phase two finds every name that the first n pieces jump to. */
  ghost predicate AllFound(pieces: seq<string>, root: seq<Entry>, n: nat)
    requires n <= |pieces|
  {
    forall k | 0 <= k < n && IsInstruction(pieces[k]) && JumpOf(pieces[k]).ToName? :: Find(root, JumpOf(pieces[k]).name) >= 0
  }

  /** Phase two succeeds exactly when every name jumped to is in the list, and then it
      writes one line for each instruction it reads. */
  lemma {:induction false} SucceedsIffFound(pieces: seq<string>, root: seq<Entry>, base: int, n: nat)
    requires n <= |pieces|
    ensures PhaseTwoTo(pieces, root, base, n).ok <==> AllFound(pieces, root, n)
    ensures PhaseTwoTo(pieces, root, base, n).ok ==> |PhaseTwoTo(pieces, root, base, n).out| == InstructionCount(pieces, n)
  {
    hide JumpOf, Find, IsInstruction, IntText;
    if n > 0 {
      SucceedsIffFound(pieces, root, base, n - 1);
    }
  }

  lemma FoundIffKnown(lines: seq<string>)
    ensures AllFound(lines, Listed(lines, |lines|), |lines|) <==> AllKnown(lines, |lines|)
  {
    hide JumpOf, Find, IsInstruction, Listed, Defined;
    forall k | 0 <= k < |lines| && IsInstruction(lines[k]) && JumpOf(lines[k]).ToName?
      ensures Find(Listed(lines, |lines|), JumpOf(lines[k]).name) >= 0 <==> Defined(lines, |lines|, JumpOf(lines[k]).name)
    {
      FindDefined(lines, |lines|, JumpOf(lines[k]).name);
    }
  }

  lemma {:induction false} OutputAt(lines: seq<string>, root: seq<Entry>, base: int, k: nat, n: nat)
    requires k < n <= |lines| && AllFound(lines, root, n) && IsInstruction(lines[k])
    ensures var r := PhaseTwoTo(lines, root, base, n); var i := InstructionCount(lines, k);
            i < |r.out| && r.out[i] == (match JumpOf(lines[k])
                                        case NoJump => lines[k]
                                        case ToName(prefix, name) => prefix + IntText(Find(root, name) + base))
  {
    hide JumpOf, Find, IsInstruction, IntText;
    SucceedsIffFound(lines, root, base, n - 1);
    SucceedsIffFound(lines, root, base, n);
    if k < n - 1 {
      OutputAt(lines, root, base, k, n - 1);
    }
  }

  // ---- phase two on its own pieces

  /** A line of at most 99 characters goes through phase two as it stands. */
  lemma {:induction false} PhaseTwoReads(lines: seq<string>, root: seq<Entry>, base: int, n: nat)
    requires n <= |lines| && forall k | 0 <= k < n :: |lines[k]| <= PHASE_TWO_WIDTH
    ensures var c := AllPieces(lines[..n], PHASE_TWO_WIDTH); PhaseTwoTo(c, root, base, |c|) == PhaseTwoTo(lines, root, base, n)
  {
    hide PieceResolved, Pieces;
    if n == 0 {
      assert lines[..0] == [];
    } else {
      PhaseTwoReads(lines, root, base, n - 1);
      OneLineMore(lines, n - 1, PHASE_TWO_WIDTH);
      var a, line := AllPieces(lines[..n - 1], PHASE_TWO_WIDTH), lines[n - 1];
      PiecesOfShort(line, PHASE_TWO_WIDTH);
      PhaseTwoAdded(a, line, root, base);
      PhaseTwoAdded(a + [line], "", root, base);
      EmptyAddsNothing(PhaseTwoTo(lines, root, base, n), root, base);
      assert a + [line, ""] == (a + [line]) + [""];
    }
  }

  lemma EmptyAddsNothing(before: Resolved, root: seq<Entry>, base: int)
    ensures PieceResolved(before, "", root, base) == before
  {
  }

  lemma PiecesOfShort(line: string, width: nat)
    requires width > 0 && |line| <= width
    ensures Pieces(line, width) == if |line| < width then [line] else [line, ""]
  {
    if |line| == width {
      assert line[..width] == line && line[width..] == "";
    }
  }

  lemma PhaseTwoAdded(a: seq<string>, piece: string, root: seq<Entry>, base: int)
    ensures var c := a + [piece]; PhaseTwoTo(c, root, base, |c|) == PieceResolved(PhaseTwoTo(a, root, base, |a|), piece, root, base)
  {
    hide PieceResolved;
    PhaseTwoPrefix(a, [piece], root, base, |a|);
  }

  lemma {:induction false} PhaseTwoPrefix(a: seq<string>, b: seq<string>, root: seq<Entry>, base: int, k: nat)
    requires k <= |a|
    ensures PhaseTwoTo(a + b, root, base, k) == PhaseTwoTo(a, root, base, k)
  {
    hide PieceResolved;
    if k > 0 {
      PhaseTwoPrefix(a, b, root, base, k - 1);
    }
  }

  /** Phase two writes one line for each instruction of the file exactly when every
      instruction has at most 99 characters: a longer one comes out in several lines. */
  lemma OneLineEachIff(lines: seq<string>, base: int)
    requires LinesOk(lines, PHASE_TWO_WIDTH) && ResolveText(lines, base).ok
    ensures |ResolveText(lines, base).out| >= InstructionCount(lines, |lines|)
    ensures |ResolveText(lines, base).out| == InstructionCount(lines, |lines|) <==> OnePiece(lines, |lines|, PHASE_TWO_WIDTH)
  {
    hide PhaseTwoTo, Entries, InstructionCount, OnePiece, LinesOk, Counted;
    var one, two := AllPieces(lines, PHASE_ONE_WIDTH), AllPieces(lines, PHASE_TWO_WIDTH);
    SucceedsIffFound(two, Entries(one, |one|), base, |two|);
    assert lines[..|lines|] == lines;
    PiecesCounted(lines, |lines|, PHASE_TWO_WIDTH);
    CountedIsExact(lines, |lines|, PHASE_TWO_WIDTH);
  }

  // ---- both passes

  /** Line k of the file stands in the output as it should: copied, or with the
      address base + 2 * i for a jump to the label on line j, where i counts the
      instructions before line j. */
  ghost predicate Placed(lines: seq<string>, base: int, out: seq<string>, k: nat)
    requires k < |lines|
  {
    var i := InstructionCount(lines, k);
    && i < |out|
    && match JumpOf(lines[k])
       case NoJump => out[i] == lines[k]
       case ToName(prefix, name) =>
         forall j | 0 <= j < |lines| && IsLabel(lines[j]) && LabelName(lines[j]) == name ::
           out[i] == prefix + IntText(base + 2 * InstructionCount(lines, j))
  }

  /** What resolution is for: every name jumped to is defined, each instruction is placed
      right and nothing else is written. */
  ghost predicate ResolvedRight(lines: seq<string>, base: int, r: Resolved) {
    && r.ok && |r.out| == InstructionCount(lines, |lines|)
    && forall k | 0 <= k < |lines| && IsInstruction(lines[k]) :: Placed(lines, base, r.out, k)
  }

  /** Every instruction before a label that is jumped to has at most 32 characters. */
  ghost predicate TargetsAligned(lines: seq<string>) {
    forall k, j | 0 <= k < |lines| && 0 <= j < |lines| && JumpsToLine(lines, k, j) :: OnePiece(lines, j, PHASE_ONE_WIDTH)
  }

  predicate JumpsToLine(lines: seq<string>, k: nat, j: nat)
    requires k < |lines| && j < |lines|
  {
    && IsInstruction(lines[k]) && JumpOf(lines[k]).ToName?
    && IsLabel(lines[j]) && LabelName(lines[j]) == JumpOf(lines[k]).name
  }

  /** With every line read whole by phase two, both passes are phase two on the lines. */
  lemma PassesMeet(lines: seq<string>, base: int)
    requires LinesOk(lines, PHASE_ONE_WIDTH) && forall k | 0 <= k < |lines| :: |lines[k]| <= PHASE_TWO_WIDTH
    ensures ResolveText(lines, base) == PhaseTwoTo(lines, Listed(lines, |lines|), base, |lines|)
  {
    hide PhaseTwoTo, Entries, Listed, LinesOk;
    PhaseOneLists(lines);
    PhaseTwoReads(lines, Listed(lines, |lines|), base, |lines|);
    assert lines[..|lines|] == lines;
  }

  lemma PlacedIff(lines: seq<string>, base: int, k: nat)
    requires DistinctNames(lines) && AllKnown(lines, |lines|) && k < |lines| && IsInstruction(lines[k])
    ensures Placed(lines, base, PhaseTwoTo(lines, Listed(lines, |lines|), base, |lines|).out, k)
            <==> forall j | 0 <= j < |lines| && JumpsToLine(lines, k, j) :: OnePiece(lines, j, PHASE_ONE_WIDTH)
  {
    hide JumpOf, Find, Listed, InstructionCount, IntText, Defined, PhaseTwoTo, LabelName, IsLabel, IsInstruction, AllKnown, DistinctNames, OnePiece, Counted, AllFound;
    var root := Listed(lines, |lines|);
    FoundIffKnown(lines);
    OutputAt(lines, root, base, k, |lines|);
    if JumpOf(lines[k]).ToName? {
      forall j | 0 <= j < |lines| && IsLabel(lines[j]) && LabelName(lines[j]) == JumpOf(lines[k]).name
        ensures (JumpOf(lines[k]).prefix + IntText(Find(root, JumpOf(lines[k]).name) + base)
                 == JumpOf(lines[k]).prefix + IntText(base + 2 * InstructionCount(lines, j))) == OnePiece(lines, j, PHASE_ONE_WIDTH)
      {
        FindExact(lines, |lines|, j);
        CountedIsExact(lines, j, PHASE_ONE_WIDTH);
        SameSuffix(JumpOf(lines[k]).prefix, Find(root, JumpOf(lines[k]).name) + base, base + 2 * InstructionCount(lines, j));
      }
    }
  }

  lemma SameSuffix(prefix: string, a: int, b: int)
    ensures prefix + IntText(a) == prefix + IntText(b) <==> a == b
  {
    IntTextRoundTrip(a);
    IntTextRoundTrip(b);
    assert (prefix + IntText(a))[|prefix|..] == IntText(a) && (prefix + IntText(b))[|prefix|..] == IntText(b);
  }

  /** Two-pass resolution, exactly. In a file with distinct labels of at most 32 characters
      and no colon in longer instructions it is right if and only if every name jumped to
      is defined, every instruction has at most 99 characters, and every instruction
      before a label that is jumped to has at most 32. */
  lemma ResolutionExact(lines: seq<string>, base: int)
    requires LinesOk(lines, PHASE_ONE_WIDTH) && DistinctNames(lines)
    ensures ResolvedRight(lines, base, ResolveText(lines, base)) <==>
              AllKnown(lines, |lines|) && OnePiece(lines, |lines|, PHASE_TWO_WIDTH) && TargetsAligned(lines)
  {
    hide Placed, PhaseTwoTo, Listed, InstructionCount, JumpOf, AllFound, AllKnown, Pieces, OnePiece, LinesOk, DistinctNames, JumpsToLine, ResolveText;
    var r := ResolveText(lines, base);
    WiderOk(lines);
    if r.ok {
      OneLineEachIff(lines, base);
    }
    if OnePiece(lines, |lines|, PHASE_TWO_WIDTH) {
      WholeLines(lines);
      PassesMeet(lines, base);
      SucceedsIffFound(lines, Listed(lines, |lines|), base, |lines|);
      FoundIffKnown(lines);
      if AllKnown(lines, |lines|) {
        forall k | 0 <= k < |lines| && IsInstruction(lines[k])
          ensures Placed(lines, base, r.out, k) <==> forall j | 0 <= j < |lines| && JumpsToLine(lines, k, j) :: OnePiece(lines, j, PHASE_ONE_WIDTH)
        {
          PlacedIff(lines, base, k);
        }
        OnlyInstructionsJump(lines);
      }
    }
  }

  lemma OnlyInstructionsJump(lines: seq<string>)
    ensures forall k, j | 0 <= k < |lines| && 0 <= j < |lines| && JumpsToLine(lines, k, j) :: IsInstruction(lines[k])
  {
  }

  lemma WiderOk(lines: seq<string>)
    requires LinesOk(lines, PHASE_ONE_WIDTH)
    ensures LinesOk(lines, PHASE_TWO_WIDTH)
  {
  }

  lemma WholeLines(lines: seq<string>)
    requires LinesOk(lines, PHASE_ONE_WIDTH) && OnePiece(lines, |lines|, PHASE_TWO_WIDTH)
    ensures forall k | 0 <= k < |lines| :: |lines[k]| <= PHASE_TWO_WIDTH
  {
    forall k | 0 <= k < |lines| ensures |lines[k]| <= PHASE_TWO_WIDTH {
      if |lines[k]| > PHASE_ONE_WIDTH {
        assert LineOk(lines[k], PHASE_ONE_WIDTH);
        NoColonNoLabel(lines[k]);
      }
    }
  }

  /** Lines that both passes read as they should, whatever is jumped to. */
  ghost predicate Readable(lines: seq<string>) {
    && LinesOk(lines, PHASE_ONE_WIDTH) && OnePiece(lines, |lines|, PHASE_TWO_WIDTH)
    && forall j | 0 <= j < |lines| && IsLabel(lines[j]) :: OnePiece(lines, j, PHASE_ONE_WIDTH)
  }

  /** On readable lines with distinct labels resolution succeeds if and only if every name
      jumped to is defined, and is then right. */
  lemma ResolutionCorrect(lines: seq<string>, base: int)
    requires Readable(lines) && DistinctNames(lines)
    ensures ResolveText(lines, base).ok <==> AllKnown(lines, |lines|)
    ensures ResolveText(lines, base).ok ==> ResolvedRight(lines, base, ResolveText(lines, base))
  {
    hide PhaseTwoTo, Listed, AllFound, AllKnown, OnePiece, LinesOk, DistinctNames, ResolveText, ResolvedRight;
    ResolutionExact(lines, base);
    WholeLines(lines);
    PassesMeet(lines, base);
    SucceedsIffFound(lines, Listed(lines, |lines|), base, |lines|);
    FoundIffKnown(lines);
  }
}
