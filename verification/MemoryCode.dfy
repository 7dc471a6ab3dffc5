/** Which disk block is in which code page: exec runs the program that it names, whether it
    loads the page or shares one (get code page, code/Modules/memory_manager.spl:66-101). */
module MemoryCode {
  import opened MemoryKernel
  import opened MemorySafety
  import opened MemoryTables

  /** Where the files' blocks start on the disk. */
  const FILE_AREA := 69

  /** The disk block that each frame was last loaded with since it was taken, -1 for none. */
  type Holds = h: seq<int> | |h| == NFRAME witness seq(NFRAME, _ => -1)

  /** A load ends when its process puts the page into its page table. */
  predicate Loads(m: M, e: Event)
    requires Sized(m)
  {
    e.Turn? && m.loc[m.cur].ExecLoad?
  }

  function HoldsAfter(m: M, e: Event, h: Holds): Holds
    requires Sized(m) && Enabled(m, e)
  {
    seq(NFRAME, f requires 0 <= f < NFRAME =>
      if Loads(m, e) && f == m.mem[m.cur].held then m.loc[m.cur].b
      else if m.count[f] == 0 && After(m, e).count[f] != 0 then -1
      else h[f])
  }

  /** Code entry j of process p is in memory and its disk map names a file's block. */
  predicate Maps(m: M, p: nat, j: nat)
    requires Sized(m)
  {
    p < NPROC && j < 4 && m.mem[p].pt[4 + j].valid && m.diskMap[p][j] >= FILE_AREA
  }

  predicate HoldsMapped(m: M, h: Holds, p: nat, j: nat)
    requires Sized(m) && p < NPROC && j < 4
  {
    0 <= m.mem[p].pt[4 + j].frame < NFRAME && h[m.mem[p].pt[4 + j].frame] == m.diskMap[p][j]
  }

  /** Every code page in memory holds the block that the disk map names. */
  ghost predicate CodeOk(m: M, h: Holds)
    requires Sized(m)
  {
    forall p: nat, j: nat | Maps(m, p, j) :: HoldsMapped(m, h, p, j)
  }

  /** Some page table entry or user area names frame f. */
  ghost predicate Names(m: M, f: int)
    requires Sized(m)
  {
    exists p: nat :: NamedBy(m, p, f)
  }

  ghost predicate NamedBy(m: M, p: nat, f: int)
    requires Sized(m)
  {
    p < NPROC && (m.mem[p].area == f || exists i :: 2 <= i < ENTRIES && m.mem[p].pt[i].valid && m.mem[p].pt[i].frame == f)
  }

  /** A page in hand is nobody else's. */
  ghost predicate HeldAlone(m: M)
    requires Sized(m)
  {
    && (forall p: nat | p < NPROC && m.mem[p].held >= 0 :: !Names(m, m.mem[p].held))
    && forall p: nat, q: nat | p < NPROC && q < NPROC && p != q && m.mem[p].held >= 0 :: m.mem[p].held != m.mem[q].held
  }

  // ---- what a step does to page tables

  /** Every code entry in memory was there before, with the same block in the disk map. */
  ghost predicate SameCode(m: M, m2: M)
    requires Sized(m) && Sized(m2)
  {
    forall p: nat, j: nat | p < NPROC && j < 4 ::
      !m2.mem[p].pt[4 + j].valid || (m2.mem[p].pt[4 + j] == m.mem[p].pt[4 + j] && m2.diskMap[p][j] == m.diskMap[p][j])
  }

  /** A frame named afterwards was named before, or was free and is in nobody's hand. */
  ghost predicate NamesFollow(m: M, m2: M)
    requires Sized(m) && Sized(m2)
  {
    forall p: nat, f: int | NamedBy(m2, p, f) && 0 <= f < NFRAME :: Names(m, f) || m.count[f] == 0
  }

  lemma NamedIsCounted(m: M, p: nat, i: nat)
    requires Inv(m) && p < NPROC && i < ENTRIES && m.mem[p].pt[i].valid
    ensures 0 <= m.mem[p].pt[i].frame < NFRAME && m.count[m.mem[p].pt[i].frame] >= 1
  {
    InvIsBase(m);
    EntryCounted(m, p, i);
  }

  lemma HeldIsCounted(m: M, p: nat)
    requires Inv(m) && p < NPROC && m.mem[p].held >= 0
    ensures m.mem[p].held < NFRAME && m.count[m.mem[p].held] >= 1
  {
    hide Uses, Zeros, Named, StateOk, PagesOk, ChildOk, EntryOk;
    assert ProcOk(m, p);
    InvIsBase(m);
    CountAtLeast(m, p, m.mem[p].held);
  }

  /** The code entries that stay hold what they held. */
  lemma CodeStays(m: M, e: Event, h: Holds)
    requires Inv(m) && Enabled(m, e) && SameCode(m, After(m, e)) && CodeOk(m, h) && HeldAlone(m) && !Loads(m, e)
    ensures CodeOk(After(m, e), HoldsAfter(m, e, h))
  {
    hide Inv, After, Enabled, HeldAlone;
    var m2 := After(m, e);
    forall p: nat, j: nat | Maps(m2, p, j) ensures HoldsMapped(m2, HoldsAfter(m, e, h), p, j) {
      assert m2.mem[p].pt[4 + j] == m.mem[p].pt[4 + j] && m2.diskMap[p][j] == m.diskMap[p][j];
      assert Maps(m, p, j);
      NamedIsCounted(m, p, 4 + j);
    }
  }

  lemma HeldStaysAlone(m: M, e: Event)
    requires Inv(m) && Enabled(m, e) && HeldAlone(m) && NamesFollow(m, After(m, e))
    requires forall p: nat | p < NPROC :: After(m, e).mem[p].held in {-1, m.mem[p].held}
    ensures HeldAlone(After(m, e))
  {
    hide Inv, After, Enabled, NamedBy;
    var m2 := After(m, e);
    forall p: nat | p < NPROC && m2.mem[p].held >= 0 ensures !Names(m2, m2.mem[p].held) {
      HeldIsCounted(m, p);
      assert !Names(m, m.mem[p].held);
    }
  }

  // ---- steps that leave page tables alone, or only free

  lemma OnlyStates(m: M, m2: M)
    requires Sized(m) && Sized(m2) && m2.mem == m.mem && m2.diskMap == m.diskMap
    ensures SameCode(m, m2) && NamesFollow(m, m2)
  {
    forall p: nat, f: int | NamedBy(m2, p, f) ensures Names(m, f) { assert NamedBy(m, p, f); }
  }

  lemma Empties(m: M, exec: bool)
    requires Inv(m) && InUserMode(m) && m.cur >= 1
    ensures var m2 := ExitProcess(m, m.cur, exec);
            && Empty(m2.mem[m.cur]) && m2.cur == m.cur
            && forall r | 0 <= r < NPROC && r != m.cur :: m2.mem[r] == m.mem[r] && m2.diskMap[r] == m.diskMap[r]
  {
    hide CountsOk, ProcOk, Base, UsesOf, FreeArea, FreePageTable;
    var p := m.cur;
    InvIsBase(m);
    NobodysChild(m);
    AtUserHasPages(m);
    MemorySafety.Empties(m, p);
    ExitMaps(m, p);
    var m1 := FreeArea(FreePageTable(m, p), p);
    forall r | 0 <= r < NPROC && r != p ensures m1.mem[r] == m.mem[r] {
      assert Calm(m, m1, r);
    }
  }

  lemma ExitMaps(m: M, p: nat)
    requires Base(m) && p < NPROC && m.st[0] != WaitMem && m.st[p] == Running
    ensures FreeArea(FreePageTable(m, p), p).diskMap == m.diskMap[p := [-1, -1, -1, -1]]
  {
    hide Base, Calm;
    var m0 := SetEntry(SetEntry(m, p, 0, None), p, 1, None);
    DropsLibrary(m, p);
    FreesEntries(m0, p, 2);
  }

  lemma ExitIsSafe(m: M)
    requires Inv(m) && Enabled(m, Exit)
    ensures SameCode(m, After(m, Exit)) && NamesFollow(m, After(m, Exit))
    ensures forall p: nat | p < NPROC :: After(m, Exit).mem[p].held in {-1, m.mem[p].held}
  {
    hide ExitProcess, Inv;
    Empties(m, false);
    var m2 := After(m, Exit);
    forall p: nat, f: int | NamedBy(m2, p, f) && 0 <= f < NFRAME ensures Names(m, f) {
      assert p != m.cur;
      assert NamedBy(m, p, f);
    }
  }

  lemma ExecIsSafe(m: M, b: int)
    requires Inv(m) && Enabled(m, Exec(b))
    ensures SameCode(m, After(m, Exec(b))) && NamesFollow(m, After(m, Exec(b)))
    ensures forall p: nat | p < NPROC :: After(m, Exec(b)).mem[p].held in {-1, m.mem[p].held}
  {
    hide ExitProcess, Inv;
    Empties(m, true);
    var m2 := After(m, Exec(b));
    forall p: nat, f: int | NamedBy(m2, p, f) && 0 <= f < NFRAME ensures Names(m, f) {
      if p == m.cur {
        assert f == m.mem[p].area;
      }
      assert NamedBy(m, p, f);
    }
  }

  // ---- turns

  /** Whoever gets a page gets a free one, in an entry outside the code, or in hand. */
  lemma GrantIsSafe(m: M, c: nat, i: nat, f: nat, v: bool)
    requires Sized(m) && c < NPROC && i in {2, 3, 8, 9} && f == Grant(m) < NFRAME && m.free != 0
    ensures var m2 := SetEntry(Taken(m, f), c, i, Entry(f, v)); SameCode(m, m2) && NamesFollow(m, m2)
  {
    var m2 := SetEntry(Taken(m, f), c, i, Entry(f, v));
    forall p: nat, g: int | NamedBy(m2, p, g) && 0 <= g < NFRAME ensures Names(m, g) || m.count[g] == 0 {
      if g != f {
        assert NamedBy(m, p, g);
      }
    }
  }

  lemma ForkIsSafe(m: M, c: nat, f: nat, h: Holds)
    requires Inv(m) && c < NPROC && c != m.cur && f == Grant(m) < NFRAME && m.free != 0 && CodeOk(m, h)
    ensures var m2 := ForkCopied(Taken(m, f), c, f);
            && NamesFollow(m, m2)
            && (forall p: nat, j: nat | Maps(m2, p, j) && p != c :: m2.mem[p] == m.mem[p] && m2.diskMap[p] == m.diskMap[p])
            && forall j: nat | Maps(m2, c, j) :: m2.mem[c].pt[4 + j] == m.mem[m.cur].pt[4 + j] && m2.diskMap[c] == m.diskMap[m.cur]
  {
    hide Inv, ProcOk, CountsOk;
    var m2 := ForkCopied(Taken(m, f), c, f);
    forall p: nat, g: int | NamedBy(m2, p, g) && 0 <= g < NFRAME ensures Names(m, g) || m.count[g] == 0 {
      if p != c {
        assert NamedBy(m, p, g);
      } else if g != f {
        var i :| 2 <= i < ENTRIES && m2.mem[p].pt[i].valid && m2.mem[p].pt[i].frame == g;
        if i < 8 {
          assert NamedBy(m, m.cur, g);
        } else {
          assert NamedBy(m, c, g);
        }
      }
    }
  }

  /** Exec ends with a page g that holds block b in its first code entry. */
  lemma EndIsSafe(m: M, m1: M, b: int, g: nat, rest: seq<int>)
    requires Sized(m) && Sized(m1) && m1.mem == m.mem && m1.diskMap == m.diskMap && m1.cur == m.cur && |rest| == 3
    requires forall i | 5 <= i < 8 :: !m.mem[m.cur].pt[i].valid
    ensures var m2 := EndExec(m1, b, g, rest);
            && (forall p: nat, f: int | NamedBy(m2, p, f) :: Names(m, f) || f == g)
            && (forall p: nat, j: nat | Maps(m2, p, j) && p != m.cur :: m2.mem[p] == m.mem[p] && m2.diskMap[p] == m.diskMap[p])
            && (forall j: nat | Maps(m2, m.cur, j) :: j == 0)
            && m2.mem[m.cur].pt[4] == Entry(g, true) && m2.diskMap[m.cur] == [b] + rest && m2.mem[m.cur].held == -1
            && forall p | 0 <= p < NPROC && p != m.cur :: m2.mem[p].held == m.mem[p].held
  {
    var m2 := EndExec(m1, b, g, rest);
    forall p: nat, f: int | NamedBy(m2, p, f) ensures Names(m, f) || f == g {
      if f != g {
        assert NamedBy(m, p, f);
      }
    }
  }

  ghost predicate Good(m: M, h: Holds)
    requires Sized(m)
  {
    CodeOk(m, h) && HeldAlone(m)
  }

  lemma StepShares(m: M, b: int, rest: seq<int>, h: Holds)
    requires Inv(m) && Good(m, h) && Enabled(m, Turn(rest)) && m.loc[m.cur] == ExecCode(b) && FindCode(m, b, 0, 0).0 < NPROC
    ensures Good(After(m, Turn(rest)), HoldsAfter(m, Turn(rest), h))
    ensures b >= FILE_AREA ==> RunsBlock(After(m, Turn(rest)), HoldsAfter(m, Turn(rest), h), m.cur, b, rest)
  {
    hide Inv, CountsOk, StateOk, EndExec;
    var (r, j) := FindCode(m, b, 0, 0);
    var g := m.mem[r].pt[4 + j].frame;
    var m2 := After(m, Turn(rest));
    NamedIsCounted(m, r, 4 + j);
    CodeEntriesEmpty(m);
    var m1 := m.(count := m.count[g := m.count[g] + 1]);
    EndIsSafe(m, m1, b, g, rest);
    assert m2 == EndExec(m1, b, g, rest);
    assert Names(m, g) by { assert NamedBy(m, r, g); }
    var h2 := HoldsAfter(m, Turn(rest), h);
    SharesCounts(m, m1, b, g, rest);
    forall p: nat, i: nat | Maps(m2, p, i) ensures HoldsMapped(m2, h2, p, i) {
      if p == m.cur {
        assert Maps(m, r, j);
      } else {
        assert Maps(m, p, i);
        NamedIsCounted(m, p, 4 + i);
      }
    }
    assert Maps(m2, m.cur, 0) <== b >= FILE_AREA;
    HeldStaysAlone(m, Turn(rest));
  }

  lemma SharesCounts(m: M, m1: M, b: int, g: nat, rest: seq<int>)
    requires Sized(m1) && |rest| == 3
    ensures EndExec(m1, b, g, rest).count == m1.count
  {
  }

  /** While exec looks for the code page the code entries are empty. */
  lemma CodeEntriesEmpty(m: M)
    requires Inv(m) && (m.loc[m.cur].ExecCode? || m.loc[m.cur].ExecLoad?)
    ensures forall i | 2 <= i < 8 :: !m.mem[m.cur].pt[i].valid
    ensures m.loc[m.cur].ExecLoad? ==> m.mem[m.cur].held >= 0
  {
    assert ProcOk(m, m.cur);
  }

  /** The first code page of process p holds block b, which its disk map names first. */
  predicate RunsBlock(m: M, h: Holds, p: nat, b: int, rest: seq<int>)
    requires Sized(m)
  {
    && p < NPROC && m.mem[p].pt[4].valid && 0 <= m.mem[p].pt[4].frame < NFRAME && h[m.mem[p].pt[4].frame] == b
    && m.diskMap[p] == [b] + rest
  }

  lemma StepLoads(m: M, b: int, rest: seq<int>, h: Holds)
    requires Inv(m) && Good(m, h) && Enabled(m, Turn(rest)) && m.loc[m.cur] == ExecLoad(b)
    ensures Good(After(m, Turn(rest)), HoldsAfter(m, Turn(rest), h))
    ensures RunsBlock(After(m, Turn(rest)), HoldsAfter(m, Turn(rest), h), m.cur, b, rest)
  {
    hide Inv, CountsOk, StateOk, EndExec;
    CodeEntriesEmpty(m);
    HeldIsCounted(m, m.cur);
    var g := m.mem[m.cur].held;
    EndIsSafe(m, m, b, g, rest);
    SharesCounts(m, m, b, g, rest);
    var m2 := After(m, Turn(rest));
    assert m2 == EndExec(m, b, g, rest);
    var h2 := HoldsAfter(m, Turn(rest), h);
    forall p: nat, i: nat | Maps(m2, p, i) ensures HoldsMapped(m2, h2, p, i) {
      if p != m.cur {
        assert Maps(m, p, i);
        NamedIsCounted(m, p, 4 + i);
        assert NamedBy(m, p, m.mem[p].pt[4 + i].frame);
      }
    }
    forall p: nat | p < NPROC && m2.mem[p].held >= 0 ensures !Names(m2, m2.mem[p].held) {
      assert !Names(m, m.mem[p].held);
    }
  }

  /** A step that leaves code entries alone. */
  lemma StepAside(m: M, e: Event, h: Holds)
    requires Inv(m) && Good(m, h) && Enabled(m, e) && !Loads(m, e) && SameCode(m, After(m, e)) && NamesFollow(m, After(m, e))
    requires forall p: nat | p < NPROC :: After(m, e).mem[p].held in {-1, m.mem[p].held}
    ensures Good(After(m, e), HoldsAfter(m, e, h))
  {
    hide Inv, After, Enabled, CodeOk, HeldAlone, NamesFollow, SameCode;
    CodeStays(m, e, h);
    HeldStaysAlone(m, e);
  }

  lemma GrantsFree(m: M)
    requires Inv(m) && Grant(m) < NFRAME
    ensures m.free != 0 && m.count[Grant(m)] == 0
  {
  }

  /** A page for an entry of process c outside the code. */
  lemma StepGrants(m: M, rest: seq<int>, h: Holds, c: nat, i: nat, v: bool)
    requires Inv(m) && Good(m, h) && Enabled(m, Turn(rest)) && !m.loc[m.cur].ExecLoad? && Grant(m) < NFRAME && c < NPROC && i in {2, 3, 8, 9}
    requires After(m, Turn(rest)).mem == SetEntry(Taken(m, Grant(m)), c, i, Entry(Grant(m), v)).mem && After(m, Turn(rest)).diskMap == m.diskMap
    ensures Good(After(m, Turn(rest)), HoldsAfter(m, Turn(rest), h))
  {
    hide Inv, After, Enabled, CodeOk, HeldAlone;
    GrantsFree(m);
    var m1 := SetEntry(Taken(m, Grant(m)), c, i, Entry(Grant(m), v));
    GrantIsSafe(m, c, i, Grant(m), v);
    MemDecides(m, m1, After(m, Turn(rest)));
    StepAside(m, Turn(rest), h);
  }

  lemma MemDecides(m: M, m1: M, m2: M)
    requires Sized(m) && Sized(m1) && Sized(m2) && SameCode(m, m1) && NamesFollow(m, m1) && m2.mem == m1.mem && m2.diskMap == m1.diskMap
    ensures SameCode(m, m2) && NamesFollow(m, m2)
  {
    forall p: nat, f: int | NamedBy(m2, p, f) && 0 <= f < NFRAME ensures Names(m, f) || m.count[f] == 0 {
      assert NamedBy(m1, p, f);
    }
  }

  lemma StepForks(m: M, rest: seq<int>, h: Holds)
    requires Inv(m) && Good(m, h) && Enabled(m, Turn(rest)) && m.loc[m.cur].ForkArea? && Grant(m) < NFRAME
    ensures Good(After(m, Turn(rest)), HoldsAfter(m, Turn(rest), h))
  {
    hide Inv, CodeOk, HeldAlone, ForkCopied, NamesFollow;
    var f, c := Grant(m), m.loc[m.cur].c;
    GrantsFree(m);
    ForksChild(m);
    ForkIsSafe(m, c, f, h);
    var m1 := ForkCopied(Taken(m, f), c, f);
    var m2 := After(m, Turn(rest));
    assert m2 == At(m1, ForkStack1(c));
    ForkHolds(m, m1, m2, rest, h, c);
    ForkNames(m, m1, m2, c, f);
    HeldStaysAlone(m, Turn(rest));
  }

  lemma ForksChild(m: M)
    requires Inv(m) && m.loc[m.cur].ForkArea? && m.st[m.cur] == Running
    ensures m.loc[m.cur].c < NPROC && m.loc[m.cur].c != m.cur
  {
    assert ProcOk(m, m.cur);
  }

  lemma ForkNames(m: M, m1: M, m2: M, c: nat, f: nat)
    requires Sized(m) && Sized(m2) && c < NPROC && f < NFRAME && c != m.cur && m1 == ForkCopied(Taken(m, f), c, f) && m2 == At(m1, ForkStack1(c)) && NamesFollow(m, m1)
    ensures NamesFollow(m, m2) && forall p: nat | p < NPROC :: m2.mem[p].held in {-1, m.mem[p].held}
  {
    forall p: nat, g: int | NamedBy(m2, p, g) && 0 <= g < NFRAME ensures Names(m, g) || m.count[g] == 0 {
      assert NamedBy(m1, p, g);
    }
  }

  lemma ForkHolds(m: M, m1: M, m2: M, rest: seq<int>, h: Holds, c: nat)
    requires Inv(m) && CodeOk(m, h) && Enabled(m, Turn(rest)) && m.loc[m.cur].ForkArea? && m2 == After(m, Turn(rest)) && c < NPROC
    requires Sized(m1) && m2.mem == m1.mem && m2.diskMap == m1.diskMap
    requires forall p: nat, j: nat | Maps(m1, p, j) && p != c :: m1.mem[p] == m.mem[p] && m1.diskMap[p] == m.diskMap[p]
    requires forall j: nat | Maps(m1, c, j) :: m1.mem[c].pt[4 + j] == m.mem[m.cur].pt[4 + j] && m1.diskMap[c] == m.diskMap[m.cur]
    ensures CodeOk(m2, HoldsAfter(m, Turn(rest), h))
  {
    hide Inv, After, Enabled;
    forall p: nat, j: nat | Maps(m2, p, j) ensures HoldsMapped(m2, HoldsAfter(m, Turn(rest), h), p, j) {
      assert Maps(m1, p, j);
      var q := if p == c then m.cur else p;
      assert Maps(m, q, j);
      NamedIsCounted(m, q, 4 + j);
    }
  }

  lemma StepHoldsPage(m: M, rest: seq<int>, h: Holds)
    requires Inv(m) && Good(m, h) && Enabled(m, Turn(rest)) && m.loc[m.cur].ExecPage? && Grant(m) < NFRAME
    ensures Good(After(m, Turn(rest)), HoldsAfter(m, Turn(rest), h))
  {
    hide Inv, CodeOk, Names;
    var f := Grant(m);
    GrantsFree(m);
    var m2 := After(m, Turn(rest));
    SameNames(m, m2);
    CodeStays(m, Turn(rest), h);
    forall p: nat | p < NPROC && m.mem[p].held >= 0 ensures m.mem[p].held != f { HeldIsCounted(m, p); }
    FreeIsUnnamed(m, f);
    assert forall p: nat | p < NPROC :: m2.mem[p].held == if p == m.cur then f else m.mem[p].held;
  }

  lemma SameNames(m: M, m2: M)
    requires Sized(m) && Sized(m2) && m2.diskMap == m.diskMap && forall p | 0 <= p < NPROC :: m2.mem[p].pt == m.mem[p].pt && m2.mem[p].area == m.mem[p].area
    ensures SameCode(m, m2) && forall f :: Names(m2, f) <==> Names(m, f)
  {
    forall f ensures Names(m2, f) <==> Names(m, f) {
      if p: nat :| NamedBy(m, p, f) { assert NamedBy(m2, p, f); }
      if p: nat :| NamedBy(m2, p, f) { assert NamedBy(m, p, f); }
    }
  }

  lemma FreeIsUnnamed(m: M, f: nat)
    requires Inv(m) && f < NFRAME && m.count[f] == 0
    ensures !Names(m, f)
  {
    hide Inv, ProcOk;
    if p: nat :| NamedBy(m, p, f) {
      if m.mem[p].area == f {
        AreaIsCounted(m, p);
      } else {
        var i :| 2 <= i < ENTRIES && m.mem[p].pt[i].valid && m.mem[p].pt[i].frame == f;
        NamedIsCounted(m, p, i);
      }
    }
  }

  lemma AreaIsCounted(m: M, p: nat)
    requires Inv(m) && p < NPROC && 0 <= m.mem[p].area < NFRAME
    ensures m.count[m.mem[p].area] == 1
  {
    hide CountsOk;
    assert ProcOk(m, p);
  }

  lemma TurnGood(m: M, rest: seq<int>, h: Holds)
    requires Inv(m) && Good(m, h) && Enabled(m, Turn(rest))
    ensures Good(After(m, Turn(rest)), HoldsAfter(m, Turn(rest), h))
  {
    hide Inv, Good, FindCode, EndExec, ForkCopied, Grant, SameCode, NamesFollow;
    var f, l := Grant(m), m.loc[m.cur];
    var m2 := After(m, Turn(rest));
    if l.ExecLoad? {
      StepLoads(m, l.b, rest, h);
    } else if l.ExecCode? && FindCode(m, l.b, 0, 0).0 < NPROC {
      StepShares(m, l.b, rest, h);
    } else if l.ExecCode? || l.Waits? || f == NFRAME {
      OnlyStates(m, m2);
      StepAside(m, Turn(rest), h);
    } else if l.ExecPage? {
      StepHoldsPage(m, rest, h);
    } else if l.ForkArea? {
      StepForks(m, rest, h);
    } else if l.ForkStack1? || l.ForkStack2? {
      StackIsValid(m);
      StepGrants(m, rest, h, l.c, if l.ForkStack1? then 8 else 9, true);
    } else {
      StepGrants(m, rest, h, m.cur, if l.ForkHeap1? then 2 else if l.ForkHeap2? then 3 else if l.ExecStack1? then 8 else 9, true);
    }
  }

  lemma StepGood(m: M, e: Event, h: Holds)
    requires Inv(m) && Good(m, h) && Enabled(m, e)
    ensures Good(After(m, e), HoldsAfter(m, e, h))
  {
    hide Inv, Good, Turned, ExitProcess, StartExec, SameCode, NamesFollow;
    match e {
      case Turn(rest) => TurnGood(m, rest, h);
      case Exec(b) => ExecIsSafe(m, b); StepAside(m, e, h);
      case Exit => ExitIsSafe(m); StepAside(m, e, h);
      case _ => OnlyStates(m, After(m, e)); StepAside(m, e, h);
    }
  }

  // ---- whole runs

  /** What the frames hold after the boot code has loaded init and idle (boot.spl:89-90,
      os_startup.spl:6-7). */
  function Loaded(): (h: Holds)
    ensures h[69] == 11 && h[70] == 12
  {
    seq(NFRAME, f => if f == 65 then 7 else if f == 66 then 8 else if f == 69 then 11 else if f == 70 then 12 else -1)
  }

  ghost function HoldsThen(m: M, es: seq<Event>, h: Holds): Holds
    requires Sized(m) && Possible(m, es)
    decreases |es|
  {
    if es == [] then h else HoldsThen(After(m, es[0]), es[1..], HoldsAfter(m, es[0], h))
  }

  lemma {:induction false} RunGood(m: M, es: seq<Event>, h: Holds)
    requires Inv(m) && Good(m, h) && Possible(m, es)
    ensures Good(Outcome(m, es), HoldsThen(m, es, h))
    decreases |es|
  {
    hide Inv, Good, After, Enabled, HoldsAfter;
    if es != [] {
      StepKeeps(m, es[0]);
      StepGood(m, es[0], h);
      RunGood(After(m, es[0]), es[1..], HoldsAfter(m, es[0], h));
    }
  }

  /** Boot sets no disk map for idle: the two words beside its code entries are what memory
      held before. This asks that they be no blocks of files. */
  predicate IdleMapClear(m: M)
    requires Sized(m)
  {
    m.diskMap[0][0] < FILE_AREA && m.diskMap[0][1] < FILE_AREA
  }

  /** Init's disk map names its memory pages (boot.spl:224-225), below the files' blocks. */
  lemma BootGood(m: M)
    requires Booted(m) && IdleMapClear(m)
    ensures Good(m, Loaded())
  {
    hide Names;
    forall p: nat | p < NPROC ensures m.mem[p].held == -1 && forall j: nat :: !Maps(m, p, j) {
    }
  }

  /** The turn ends an exec of the program whose first block is b. */
  predicate EndsExec(m: M, rest: seq<int>, b: int)
    requires Sized(m)
  {
    Enabled(m, Turn(rest)) && m.loc[m.cur] in {ExecCode(b), ExecLoad(b)} && After(m, Turn(rest)).loc[m.cur] == User
  }

  lemma EndRunsBlock(m: M, rest: seq<int>, b: int, h: Holds)
    requires Inv(m) && Good(m, h) && EndsExec(m, rest, b) && b >= FILE_AREA
    ensures RunsBlock(After(m, Turn(rest)), HoldsAfter(m, Turn(rest), h), m.cur, b, rest)
  {
    hide Inv, Good, FindCode, EndExec;
    if m.loc[m.cur].ExecLoad? {
      StepLoads(m, b, rest, h);
    } else {
      StepShares(m, b, rest, h);
    }
  }

  /** In every run from boot, every exec of a file ends with the file's first block in the
      first code page. */
  ghost predicate ExecsRight(boot: M)
    requires Booted(boot)
  {
    forall es: seq<Event>, rest: seq<int>, b: int | ExecAfter(boot, es, rest, b) :: ExecRight(boot, es, rest, b)
  }

  ghost predicate ExecRight(boot: M, es: seq<Event>, rest: seq<int>, b: int)
    requires Sized(boot) && Possible(boot, es) && Enabled(Outcome(boot, es), Turn(rest))
  {
    var m, h := Outcome(boot, es), HoldsThen(boot, es, Loaded());
    RunsBlock(After(m, Turn(rest)), HoldsAfter(m, Turn(rest), h), m.cur, b, rest)
  }

  ghost function ExecAfter(boot: M, es: seq<Event>, rest: seq<int>, b: int): (r: bool)
    requires Sized(boot)
    ensures r ==> Possible(boot, es) && Enabled(Outcome(boot, es), Turn(rest))
  {
    b >= FILE_AREA && Possible(boot, es) && EndsExec(Outcome(boot, es), rest, b)
  }

  /** Exec runs the program it names in every run from boot, if and only if the memory that
      becomes idle's disk map names no block of a file. */
  lemma ExecRunsIffMapClear(boot: M)
    requires Booted(boot)
    ensures ExecsRight(boot) <==> IdleMapClear(boot)
  {
    hide Booted, Inv, Good, EndsExec, Enabled, RunsBlock, After, HoldsAfter;
    BootHolds(boot);
    if IdleMapClear(boot) {
      BootGood(boot);
      forall es: seq<Event>, rest: seq<int>, b: int | ExecAfter(boot, es, rest, b)
        ensures ExecRight(boot, es, rest, b)
      {
        RunKeeps(boot, es);
        RunGood(boot, es, Loaded());
        EndRunsBlock(Outcome(boot, es), rest, b, HoldsThen(boot, es, Loaded()));
      }
    } else {
      var es, b := IdleIsShared(boot);
      assert ExecAfter(boot, es, [-1, -1, -1], b);
    }
  }

  // ---- the run that fails when idle's disk map names a file's block

  lemma {:induction false} FreesOnly(m: M, p: nat, i: nat)
    requires Sized(m) && p < NPROC && 2 <= i <= ENTRIES
    ensures FreeEntries(m, p, i).free >= m.free
    decreases ENTRIES - i
  {
    if i < ENTRIES {
      var e := m.mem[p].pt[i];
      if e.valid && 0 <= e.frame < NFRAME {
        FreesOnly(SetEntry(Release(m, e.frame), p, i, None), p, i + 1);
      } else {
        FreesOnly(m, p, i + 1);
      }
    }
  }

  /** Init in its exec of block b, with idle as it was. */
  ghost predicate Scene(m: M, boot: M, l: Loc, n: int)
    requires Sized(boot)
  {
    Inv(m) && m.cur == 1 && m.st[1] == Running && m.loc[1] == l && m.mem[0] == IdleProc() && m.diskMap[0] == boot.diskMap[0] && m.free >= n
  }

  lemma ExecStarts(m: M, boot: M, b: int)
    requires Sized(boot) && Scene(m, boot, User, 10)
    ensures Enabled(m, Exec(b)) && Scene(After(m, Exec(b)), boot, ExecStack1(b), 9)
  {
    hide FreeEntries;
    Empties(m, true);
    FreesOnly(SetEntry(SetEntry(m, 1, 0, None), 1, 1, None), 1, 2);
    AtUserHasPages(m);
    InvIsBase(m);
    SoundArea(m, 1);
    StepKeeps(m, Exec(b));
  }

  lemma StackGiven(m: M, boot: M, b: int, rest: seq<int>, first: bool)
    requires Sized(boot) && |rest| == 3 && Scene(m, boot, if first then ExecStack1(b) else ExecStack2(b), if first then 9 else 8)
    ensures Enabled(m, Turn(rest)) && Scene(After(m, Turn(rest)), boot, if first then ExecStack2(b) else ExecCode(b), if first then 8 else 7)
  {
    hide Inv, FirstZero;
    CountsHold(m);
    SearchFinds(m);
    StepKeeps(m, Turn(rest));
  }

  /** Idle's code pages are in use all the time, so nobody loads anything into them. */
  lemma IdleStays(m: M, e: Event, h: Holds)
    requires Inv(m) && Enabled(m, e) && !Loads(m, e) && m.mem[0] == IdleProc()
    ensures HoldsAfter(m, e, h)[69] == h[69] && HoldsAfter(m, e, h)[70] == h[70]
  {
    hide Inv, After;
    NamedIsCounted(m, 0, 4);
    NamedIsCounted(m, 0, 5);
  }

  lemma NothingTaken(m: M, e: Event, h: Holds)
    requires Sized(m) && Enabled(m, e) && !Loads(m, e) && After(m, e).count == m.count
    ensures HoldsAfter(m, e, h) == h
  {
    hide After, Enabled;
    forall f | 0 <= f < NFRAME ensures HoldsAfter(m, e, h)[f] == h[f] {
    }
  }

  lemma ExecBegins(boot: M) returns (m: M)
    requires Booted(boot)
    ensures Enabled(boot, Preempt) && Enabled(After(boot, Preempt), Dispatch(1)) && m == After(After(boot, Preempt), Dispatch(1))
    ensures Scene(m, boot, User, 10)
    ensures HoldsAfter(After(boot, Preempt), Dispatch(1), HoldsAfter(boot, Preempt, Loaded())) == Loaded()
  {
    hide Inv, IdleProc;
    BootHolds(boot);
    StepKeeps(boot, Preempt);
    NothingTaken(boot, Preempt, Loaded());
    NothingTaken(After(boot, Preempt), Dispatch(1), Loaded());
    m := After(After(boot, Preempt), Dispatch(1));
    StepKeeps(After(boot, Preempt), Dispatch(1));
  }

  /** Exec of a file whose first block idle's disk map happens to name runs idle. */
  lemma IdleIsShared(boot: M) returns (es: seq<Event>, b: int)
    requires Booted(boot) && !IdleMapClear(boot)
    ensures b >= FILE_AREA && ExecAfter(boot, es, [-1, -1, -1], b)
    ensures !ExecRight(boot, es, [-1, -1, -1], b)
  {
    hide Booted, Inv, After, Enabled, HoldsAfter, EndsExec;
    var rest := [-1, -1, -1];
    BootHolds(boot);
    b := if boot.diskMap[0][0] >= FILE_AREA then boot.diskMap[0][0] else boot.diskMap[0][1];
    var m2 := ExecBegins(boot);
    ExecStarts(m2, boot, b);
    var m3 := After(m2, Exec(b));
    StackGiven(m3, boot, b, rest, true);
    var m4 := After(m3, Turn(rest));
    StackGiven(m4, boot, b, rest, false);
    var m5 := After(m4, Turn(rest));
    es := [Preempt, Dispatch(1), Exec(b), Turn(rest), Turn(rest)];
    FiveEvents(boot, Preempt, Dispatch(1), Exec(b), Turn(rest), Turn(rest), Loaded());
    var h3 := HoldsAfter(m2, Exec(b), Loaded());
    IdleStays(m2, Exec(b), Loaded());
    IdleStays(m3, Turn(rest), h3);
    IdleStays(m4, Turn(rest), HoldsAfter(m3, Turn(rest), h3));
    SharesIdle(m5, boot, b, rest, HoldsThen(boot, es, Loaded()));
  }

  lemma OneEvent(m: M, e: Event, es: seq<Event>, h: Holds)
    requires Sized(m) && Enabled(m, e) && Possible(After(m, e), es)
    ensures Possible(m, [e] + es) && Outcome(m, [e] + es) == Outcome(After(m, e), es)
    ensures HoldsThen(m, [e] + es, h) == HoldsThen(After(m, e), es, HoldsAfter(m, e, h))
  {
    hide After, Enabled, HoldsAfter;
    assert ([e] + es)[1..] == es;
  }

  lemma FiveEvents(m: M, e1: Event, e2: Event, e3: Event, e4: Event, e5: Event, h: Holds)
    requires Sized(m) && Enabled(m, e1)
    requires var m1 := After(m, e1); Enabled(m1, e2)
    requires var m2 := After(After(m, e1), e2); Enabled(m2, e3)
    requires var m3 := After(After(After(m, e1), e2), e3); Enabled(m3, e4)
    requires var m4 := After(After(After(After(m, e1), e2), e3), e4); Enabled(m4, e5)
    ensures var m1 := After(m, e1); var m2 := After(m1, e2); var m3 := After(m2, e3); var m4 := After(m3, e4);
            var h1 := HoldsAfter(m, e1, h); var h2 := HoldsAfter(m1, e2, h1); var h3 := HoldsAfter(m2, e3, h2); var h4 := HoldsAfter(m3, e4, h3);
            var es := [e1, e2, e3, e4, e5];
            Possible(m, es) && Outcome(m, es) == After(m4, e5) && HoldsThen(m, es, h) == HoldsAfter(m4, e5, h4)
  {
    hide After, Enabled, HoldsAfter;
    var m1 := After(m, e1);
    var m2 := After(m1, e2);
    var m3 := After(m2, e3);
    var m4 := After(m3, e4);
    assert [e1, e2, e3, e4, e5] == [e1] + [e2, e3, e4, e5] && [e2, e3, e4, e5] == [e2] + [e3, e4, e5] && [e3, e4, e5] == [e3] + [e4, e5];
    assert [e4, e5] == [e4] + [e5] && [e5] == [e5] + [];
    var h1 := HoldsAfter(m, e1, h);
    var h2 := HoldsAfter(m1, e2, h1);
    var h3 := HoldsAfter(m2, e3, h2);
    var h4 := HoldsAfter(m3, e4, h3);
    OneEvent(m4, e5, [], h4);
    OneEvent(m3, e4, [e5], h3);
    OneEvent(m2, e3, [e4, e5], h2);
    OneEvent(m1, e2, [e3, e4, e5], h1);
    OneEvent(m, e1, [e2, e3, e4, e5], h);
  }

  lemma SharesIdle(m: M, boot: M, b: int, rest: seq<int>, h: Holds)
    requires Sized(boot) && Scene(m, boot, ExecCode(b), 7) && b >= FILE_AREA && b in boot.diskMap[0][..2] && |rest| == 3 && h[69] == 11 && h[70] == 12
    ensures EndsExec(m, rest, b) && !RunsBlock(After(m, Turn(rest)), HoldsAfter(m, Turn(rest), h), 1, b, rest)
  {
    hide Inv;
    IdleStays(m, Turn(rest), h);
    var j := if boot.diskMap[0][0] == b then 0 else 1;
    assert boot.diskMap[0][j] == b && HasCode(m, 0, j, b);
    assert FindCode(m, b, 0, 1) == (0, 1) || boot.diskMap[0][0] == b;
    assert FindCode(m, b, 0, 0) == (0, j);
  }
}
