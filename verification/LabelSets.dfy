/** Which labels a stretch of assembly defines and jumps to. */
module LabelSets {
  import opened Xsm
  import opened Assembly

  function LabelSet(c: seq<Line>): set<nat> {
    set k | 0 <= k < |c| && c[k].LabelDef? :: c[k].id
  }

  function Numbers(lo: nat, hi: nat): (r: set<nat>)
    ensures forall i: nat :: i in r <==> lo <= i < hi
    decreases hi - lo
  {
    if lo >= hi then {} else {lo} + Numbers(lo + 1, hi)
  }

  lemma LabelsAppend(a: seq<Line>, b: seq<Line>)
    ensures LabelSet(a + b) == LabelSet(a) + LabelSet(b)
    ensures DistinctLabels(a) && DistinctLabels(b) && LabelSet(a) !! LabelSet(b) ==> DistinctLabels(a + b)
  {
    var c := a + b;
    forall k | 0 <= k < |c| && c[k].LabelDef? ensures c[k].id in LabelSet(a) + LabelSet(b) {
      assert c[k] == if k < |a| then a[k] else b[k - |a|];
    }
    forall k | 0 <= k < |a| && a[k].LabelDef? ensures a[k].id in LabelSet(c) {
      assert c[k] == a[k];
    }
    forall k | 0 <= k < |b| && b[k].LabelDef? ensures b[k].id in LabelSet(c) {
      assert c[|a| + k] == b[k];
    }
  }

  predicate NoLabels(c: seq<Line>) {
    forall k | 0 <= k < |c| :: c[k].Ins?
  }

  predicate JumpsTo(l: Line, t: nat) {
    l == Ins(Jmp(t)) || (l.Ins? && l.i.Jz? && l.i.target == t) || (l.Ins? && l.i.Jnz? && l.i.target == t) || l == Ins(Call(t))
  }

  /** Every jump in c goes to a label of the given set. */
  ghost predicate JumpsWithin(c: seq<Line>, ids: set<nat>) {
    forall k, t | 0 <= k < |c| && JumpsTo(c[k], t) :: t in ids
  }

  lemma JumpsAppend(a: seq<Line>, b: seq<Line>, ids: set<nat>)
    requires JumpsWithin(a, ids) && JumpsWithin(b, ids)
    ensures JumpsWithin(a + b, ids)
  {
    var c := a + b;
    forall k, t | 0 <= k < |c| && JumpsTo(c[k], t) ensures t in ids {
      assert c[k] == if k < |a| then a[k] else b[k - |a|];
    }
  }

  lemma JumpsWiden(c: seq<Line>, small: set<nat>, ids: set<nat>)
    requires JumpsWithin(c, small) && small <= ids
    ensures JumpsWithin(c, ids)
  {
    forall k, t | 0 <= k < |c| && JumpsTo(c[k], t) ensures t in ids {
      assert t in small;
    }
  }

  /** A stretch of code with the labels it defines, all jumping into one set. */
  ghost predicate Piece(c: seq<Line>, defines: set<nat>, ids: set<nat>) {
    LabelSet(c) == defines && DistinctLabels(c) && JumpsWithin(c, ids)
  }

  lemma Pieces(a: seq<Line>, da: set<nat>, b: seq<Line>, db: set<nat>, ids: set<nat>)
    requires Piece(a, da, ids) && Piece(b, db, ids) && da !! db
    ensures Piece(a + b, da + db, ids)
  {
    LabelsAppend(a, b);
    JumpsAppend(a, b, ids);
  }

  lemma {:induction false} DefinedIsFound(lines: seq<Line>, id: nat)
    requires id in LabelSet(lines)
    ensures LabelOffset(lines, id).At?
    decreases |lines|
  {
    var k :| 0 <= k < |lines| && lines[k] == LabelDef(id);
    if lines[|lines| - 1] != LabelDef(id) {
      var rest := lines[..|lines| - 1];
      assert rest[k] == lines[k];
      DefinedIsFound(rest, id);
    }
  }

  /** A file that defines every label it jumps to is closed. */
  lemma JumpsAreKnown(lines: seq<Line>, ids: set<nat>)
    requires JumpsWithin(lines, ids) && ids <= LabelSet(lines)
    ensures Closed(lines)
  {
    forall k | 0 <= k < |lines| && lines[k].Ins? ensures TargetKnown(lines, lines[k].i) {
      var i := lines[k].i;
      if i.Jmp? || i.Jz? || i.Jnz? || i.Call? {
        assert JumpsTo(lines[k], i.target);
        DefinedIsFound(lines, i.target);
      }
    }
  }
}
