/** The XFS disk tables of xfs-interface: the disk free list, the inode table and the root
    file, and loading and deleting files (diskUtility.c, inode.c, virtualDisk.c). */
module Xfs {
  import opened Words

  const NBLOCK := 512
  const DATA_START := 69
  const NFILE := 60
  const SLOTS := 4
  const TYPE_ROOT := 1
  const TYPE_DATA := 2
  const TYPE_EXEC := 3

  /** An inode entry. A name that reads as the number -1 marks an entry that is free. */
  datatype Entry = Entry(ftype: int, name: string, size: int, user: int, perm: int, blocks: seq<int>)

  datatype RootEntry = RootEntry(name: string, size: int, ftype: int)

  datatype Fs = Fs(used: seq<int>, inode: seq<Entry>, root: seq<RootEntry>)

  const NoName := "-1"

  predicate IsFree(name: string) {
    Atoi(name) == -1
  }

  predicate Sized(x: Fs) {
    |x.used| == NBLOCK && |x.inode| == NFILE && |x.root| == NFILE && forall i | 0 <= i < NFILE :: |x.inode[i].blocks| == SLOTS
  }

  const FreeEntry := Entry(-1, NoName, 0, -1, -1, [-1, -1, -1, -1])

  const FreeRoot := RootEntry(NoName, 0, -1)

  // ---- the free list

  /** The first block with free-list word 0, or -1. */
  function FirstFree(used: seq<int>, b: nat): (r: int)
    requires b <= |used| == NBLOCK
    ensures -1 <= r < NBLOCK && (r >= 0 ==> r >= b && used[r] == 0)
    ensures forall c | b <= c < NBLOCK && (r == -1 || c < r) :: used[c] != 0
    decreases NBLOCK - b
  {
    if b == NBLOCK then -1 else if used[b] == 0 then b else FirstFree(used, b + 1)
  }

  /** Up to n blocks, each marked used as it is found. */
  function Take(used: seq<int>, n: nat): (r: (seq<int>, seq<int>))
    requires |used| == NBLOCK
    ensures |r.0| == NBLOCK && |r.1| <= n
    decreases n
  {
    var b := FirstFree(used, 0);
    if n == 0 || b == -1 then (used, [])
    else
      var (u, bs) := Take(used[b := 1], n - 1);
      (u, [b] + bs)
  }

  lemma TakeStep(used: seq<int>, n: nat)
    requires |used| == NBLOCK
    ensures var b := FirstFree(used, 0);
            Take(used, n) == if n == 0 || b == -1 then (used, []) else (Take(used[b := 1], n - 1).0, [b] + Take(used[b := 1], n - 1).1)
  {
    hide FirstFree;
  }

  /** The allocation loop's next block, or its end. */
  lemma GotStep(used: seq<int>, m: nat, got: seq<int>, b: int)
    requires |used| == NBLOCK && m > 0 && b == FirstFree(used, 0) && |got| < SLOTS
    ensures b == -1 ==> Take(used, m).0 == used && got + Take(used, m).1 == got && Padded(got)[|got| := b] == Padded(got)
    ensures b != -1 ==>
              && Take(used, m).0 == Take(used[b := 1], m - 1).0 && got + Take(used, m).1 == (got + [b]) + Take(used[b := 1], m - 1).1
              && Padded(got)[|got| := b] == Padded(got + [b])
  {
    hide Take, FirstFree;
    TakeStep(used, m);
  }

  /** freeUnusedBlock: up to the first -1 or 0. */
  function Released(used: seq<int>, bs: seq<int>): (r: seq<int>)
    requires |used| == NBLOCK
    ensures |r| == NBLOCK
    decreases |bs|
  {
    if bs == [] || bs[0] == -1 || bs[0] == 0 || !(0 <= bs[0] < NBLOCK) then used else Released(used[bs[0] := 0], bs[1..])
  }

  function Padded(bs: seq<int>): (r: seq<int>)
    requires |bs| <= SLOTS
    ensures |r| == SLOTS && forall j | 0 <= j < SLOTS :: r[j] == if j < |bs| then bs[j] else -1
  {
    bs + seq(SLOTS - |bs|, _ => -1)
  }

  // ---- the tables

  function FindName(inode: seq<Entry>, name: string, i: nat): (r: int)
    requires i <= |inode|
    ensures r == -1 || (i <= r < |inode| && inode[r].name == name && !IsFree(name))
    ensures r == -1 ==> IsFree(name) || forall k | i <= k < |inode| :: inode[k].name != name
    decreases |inode| - i
  {
    if i == |inode| then -1 else if inode[i].name == name && !IsFree(name) then i else FindName(inode, name, i + 1)
  }

  function FindFree(inode: seq<Entry>, i: nat): (r: int)
    requires i <= |inode|
    ensures r == -1 || (i <= r < |inode| && IsFree(inode[r].name))
    ensures r == -1 ==> forall k | i <= k < |inode| :: !IsFree(inode[k].name)
    decreases |inode| - i
  {
    if i == |inode| then -1 else if IsFree(inode[i].name) then i else FindFree(inode, i + 1)
  }

  function Added(x: Fs, k: nat, ftype: int, name: string, size: int, bs: seq<int>): (r: Fs)
    requires Sized(x) && k < NFILE && |bs| == SLOTS
    ensures Sized(r)
  {
    var e := x.inode[k];
    var user := if ftype == TYPE_ROOT || ftype == TYPE_EXEC then 0 else if ftype == TYPE_DATA then 1 else e.user;
    var perm := if ftype == TYPE_ROOT then 0 else if ftype == TYPE_DATA then 1 else if ftype == TYPE_EXEC then -1 else e.perm;
    x.(inode := x.inode[k := Entry(ftype, name, size, user, perm, bs)], root := x.root[k := RootEntry(name, size, ftype)])
  }

  datatype Result = Loaded(k: nat) | TooBig | DiskFull | Exists | TableFull | NotFound | IsRoot | Deleted

  /** A file of n blocks: allocate, look the name up, find an entry, add it; whatever goes
      wrong after allocating, the blocks are given back. */
  function Load(x: Fs, name: string, ftype: int, size: int, n: nat): (r: (Fs, Result))
    requires Sized(x)
    ensures Sized(r.0)
  {
    if n > SLOTS then (x, TooBig)
    else
      var (u, bs) := Take(x.used, n);
      var back := x.(used := Released(u, Padded(bs)));
      if |bs| < n then (back, DiskFull)
      else if FindName(x.inode, name, 0) >= 0 then (back, Exists)
      else
        var k := FindFree(x.inode, 0);
        if k == -1 then (back, TableFull) else (Added(x.(used := u), k, ftype, name, size, Padded(bs)), Loaded(k))
  }

  function LoadData(x: Fs, name: string, words: nat): (r: (Fs, Result))
    requires Sized(x)
    ensures Sized(r.0)
  {
    Load(x, name, TYPE_DATA, words, words / 512 + (if words % 512 == 0 then 0 else 1))
  }

  function LoadExec(x: Fs, name: string, lines: nat): (r: (Fs, Result))
    requires Sized(x)
    ensures Sized(r.0)
  {
    Load(x, name, TYPE_EXEC, lines * 2, lines / 256 + 1)
  }

  function Delete(x: Fs, name: string): (r: (Fs, Result))
    requires Sized(x)
    ensures Sized(r.0)
  {
    if name == "root" then (x, IsRoot)
    else
      var k := FindName(x.inode, name, 0);
      if k < 0 then (x, NotFound)
      else (Fs(Released(x.used, x.inode[k].blocks), x.inode[k := FreeEntry], x.root[k := FreeRoot]), Deleted)
  }

  // ---- the invariant

  /** Slot j of entry i names block b. */
  predicate Names(x: Fs, i: nat, j: nat, b: int)
    requires Sized(x)
  {
    i < NFILE && j < SLOTS && x.inode[i].blocks[j] == b
  }

  predicate IsUsed(x: Fs, b: int)
    requires Sized(x)
  {
    0 <= b < NBLOCK && x.used[b] != 0
  }

  /** A block of the data area is marked used exactly when some slot names it, and no two
      slots name the same block. */
  ghost predicate BlocksOk(x: Fs)
    requires Sized(x)
  {
    && (forall b | DATA_START <= b < NBLOCK :: IsUsed(x, b) <==> exists i: nat, j: nat :: Names(x, i, j, b))
    && (forall b | DATA_START <= b < NBLOCK :: x.used[b] == 0 || x.used[b] == 1)
    && (forall b | 0 <= b < DATA_START :: x.used[b] == 1)
    && forall i: nat, j: nat, i2: nat, j2: nat, b | b != -1 && Names(x, i, j, b) && Names(x, i2, j2, b) :: i == i2 && j == j2
  }

  /** The blocks of an entry come first and lie in the data area, but for the root file's. */
  predicate SlotsOk(e: Entry) {
    && |e.blocks| == SLOTS
    && forall j | 0 <= j < SLOTS ::
      && (e.blocks[j] == -1 || (if e.name == "root" then 0 < e.blocks[j] < DATA_START else DATA_START <= e.blocks[j] < NBLOCK))
      && (j > 0 && e.blocks[j - 1] == -1 ==> e.blocks[j] == -1)
  }

  /** Inode and root file agree on name, size and type, and free entries are clear. */
  predicate EntryOk(x: Fs, i: nat)
    requires Sized(x) && i < NFILE
  {
    && SlotsOk(x.inode[i])
    && x.root[i] == RootEntry(x.inode[i].name, x.inode[i].size, x.inode[i].ftype)
    && (IsFree(x.inode[i].name) ==> x.inode[i] == FreeEntry)
  }

  predicate NamesDistinct(x: Fs)
    requires Sized(x)
  {
    forall i, j | 0 <= i < j < NFILE && !IsFree(x.inode[i].name) :: x.inode[i].name != x.inode[j].name
  }

  ghost function Inv(x: Fs): (r: bool)
    ensures r ==> Sized(x)
  {
    Sized(x) && BlocksOk(x) && (forall i | 0 <= i < NFILE :: EntryOk(x, i)) && NamesDistinct(x)
  }

  // ---- allocating and giving back

  predicate DistinctBlocks(bs: seq<int>) {
    forall i, j | 0 <= i < j < |bs| :: bs[i] != bs[j]
  }

  /** The list after marking the blocks bs with v. */
  predicate Marked(used: seq<int>, u: seq<int>, bs: seq<int>, v: int) {
    |used| == |u| == NBLOCK && forall b | 0 <= b < NBLOCK :: u[b] == if b in bs then v else used[b]
  }

  lemma {:induction false} TakeIs(used: seq<int>, n: nat)
    requires |used| == NBLOCK
    ensures var (u, bs) := Take(used, n);
            && Marked(used, u, bs, 1) && DistinctBlocks(bs) && (forall b | b in bs :: 0 <= b < NBLOCK && used[b] == 0)
            && (|bs| < n ==> forall b | 0 <= b < NBLOCK :: u[b] != 0)
    decreases n
  {
    hide Take, FirstFree;
    TakeStep(used, n);
    var b := FirstFree(used, 0);
    if n > 0 && b != -1 {
      TakeIs(used[b := 1], n - 1);
      var (u, bs) := Take(used[b := 1], n - 1);
      assert Take(used, n) == (u, [b] + bs);
    }
  }

  lemma {:induction false} ReleasedIs(used: seq<int>, bs: seq<int>)
    requires |used| == NBLOCK && forall j | 0 <= j < |bs| :: 0 < bs[j] < NBLOCK || (bs[j] == -1 && forall l | j <= l < |bs| :: bs[l] == -1)
    ensures Marked(used, Released(used, bs), bs, 0) || (exists b :: b in bs && b == -1)
    ensures forall b | 0 <= b < NBLOCK :: Released(used, bs)[b] == if b in bs then 0 else used[b]
    decreases |bs|
  {
    if bs != [] && bs[0] != -1 {
      ReleasedIs(used[bs[0] := 0], bs[1..]);
      assert bs == [bs[0]] + bs[1..];
    }
  }

  /** Giving back what was allocated restores the free list exactly. */
  lemma ReleaseUndoesTake(used: seq<int>, n: nat)
    requires |used| == NBLOCK && used[0] != 0 && n <= SLOTS
    ensures var (u, bs) := Take(used, n); Released(u, Padded(bs)) == used
  {
    hide Take, Released, FirstFree;
    TakeIs(used, n);
    var (u, bs) := Take(used, n);
    forall j | 0 <= j < SLOTS ensures if j < |bs| then 0 < Padded(bs)[j] < NBLOCK else Padded(bs)[j] == -1 {
      if j < |bs| { assert bs[j] in bs; }
    }
    ReleasedIs(u, Padded(bs));
    forall b | 0 <= b < NBLOCK ensures b in Padded(bs) <==> b in bs {
      if b in Padded(bs) {
        var j :| 0 <= j < SLOTS && Padded(bs)[j] == b;
        assert bs[j] == b;
      }
      if b in bs {
        var j :| 0 <= j < |bs| && bs[j] == b;
        assert Padded(bs)[j] == b;
      }
    }
  }

  /** A load that does not succeed leaves the disk tables exactly as they were. */
  lemma FailedLoadRestores(x: Fs, name: string, ftype: int, size: int, n: nat)
    requires Inv(x) && !Load(x, name, ftype, size, n).1.Loaded?
    ensures Load(x, name, ftype, size, n).0 == x
  {
    hide FindName, FindFree, Take, Released, EntryOk, NamesDistinct;
    if n <= SLOTS {
      ReleaseUndoesTake(x.used, n);
    }
  }

  // ---- loading

  /** The entry that a load fills. */
  predicate Fills(x: Fs, x2: Fs, k: nat, bs: seq<int>)
    requires Sized(x) && Sized(x2)
  {
    && k < NFILE && IsFree(x.inode[k].name) && |bs| <= SLOTS
    && x2.inode == x.inode[k := x2.inode[k]] && x2.inode[k].blocks == Padded(bs)
    && Marked(x.used, x2.used, bs, 1) && DistinctBlocks(bs) && forall b | b in bs :: DATA_START <= b < NBLOCK && x.used[b] == 0
  }

  lemma FilledNames(x: Fs, x2: Fs, k: nat, bs: seq<int>, i: nat, j: nat, b: int)
    requires Inv(x) && Sized(x2) && Fills(x, x2, k, bs) && b != -1
    ensures Names(x2, i, j, b) <==> if i == k then j < |bs| && bs[j] == b else Names(x, i, j, b)
    ensures !Names(x, k, j, b)
  {
    hide BlocksOk, NamesDistinct;
    assert EntryOk(x, k);
  }

  lemma FillKeepsBlocks(x: Fs, x2: Fs, k: nat, bs: seq<int>)
    requires Inv(x) && Sized(x2) && Fills(x, x2, k, bs)
    ensures BlocksOk(x2)
  {
    hide EntryOk, NamesDistinct;
    forall b | DATA_START <= b < NBLOCK ensures IsUsed(x2, b) <==> exists i: nat, j: nat :: Names(x2, i, j, b) {
      if b in bs {
        var j: nat :| j < |bs| && bs[j] == b;
        FilledNames(x, x2, k, bs, k, j, b);
      } else {
        assert IsUsed(x2, b) == IsUsed(x, b);
        if i: nat, j: nat :| Names(x, i, j, b) {
          FilledNames(x, x2, k, bs, i, j, b);
          assert Names(x2, i, j, b);
        }
        if i: nat, j: nat :| Names(x2, i, j, b) {
          FilledNames(x, x2, k, bs, i, j, b);
          assert Names(x, i, j, b);
        }
      }
    }
    forall i: nat, j: nat, i2: nat, j2: nat, b | b != -1 && Names(x2, i, j, b) && Names(x2, i2, j2, b) ensures i == i2 && j == j2 {
      FilledNames(x, x2, k, bs, i, j, b);
      FilledNames(x, x2, k, bs, i2, j2, b);
      if i == k && i2 != k {
        assert b in bs;
        NamedIsUsed(x, i2, j2, b);
      } else if i2 == k && i != k {
        assert b in bs;
        NamedIsUsed(x, i, j, b);
      }
    }
  }

  lemma NamedIsUsed(x: Fs, i: nat, j: nat, b: int)
    requires Inv(x) && Names(x, i, j, b) && DATA_START <= b < NBLOCK
    ensures IsUsed(x, b)
  {
    hide EntryOk, NamesDistinct;
  }

  lemma LoadFills(x: Fs, name: string, ftype: int, size: int, n: nat)
    requires Inv(x) && Load(x, name, ftype, size, n).1.Loaded?
    ensures var (x2, r) := Load(x, name, ftype, size, n); var bs := Take(x.used, n).1;
            Fills(x, x2, r.k, bs) && |bs| == n
            && x2.inode[r.k].name == name && x2.inode[r.k].size == size && x2.inode[r.k].ftype == ftype
            && x2.root == x.root[r.k := RootEntry(name, size, ftype)]
  {
    hide FindName, FindFree, Take, EntryOk, NamesDistinct;
    TakeIs(x.used, n);
    var bs := Take(x.used, n).1;
    forall b | b in bs ensures DATA_START <= b < NBLOCK {
      assert x.used[b] == 0;
    }
  }

  /** A load that succeeds keeps the tables consistent exactly when its name does not read
      as -1: such a name would mark its own entry as free. */
  lemma LoadKeepsIffNamed(x: Fs, name: string, ftype: int, size: int, n: nat)
    requires Inv(x) && Load(x, name, ftype, size, n).1.Loaded? && name != "root" && ftype in {TYPE_DATA, TYPE_EXEC}
    ensures Inv(Load(x, name, ftype, size, n).0) <==> !IsFree(name)
  {
    hide BlocksOk, FindName, FindFree, Take, Marked, Released, IsFree;
    var (x2, r) := Load(x, name, ftype, size, n);
    var bs := Take(x.used, n).1;
    LoadFills(x, name, ftype, size, n);
    FillKeepsBlocks(x, x2, r.k, bs);
    if IsFree(name) {
      assert !EntryOk(x2, r.k);
    } else {
      forall i | 0 <= i < NFILE ensures EntryOk(x2, i) {
        assert EntryOk(x, i);
        if i == r.k { FilledSlots(x2.inode[i], bs); }
      }
      NameIsNew(x, name, ftype, size, n);
    }
  }

  lemma FilledSlots(e: Entry, bs: seq<int>)
    requires |bs| <= SLOTS && e.blocks == Padded(bs) && e.name != "root" && forall b | b in bs :: DATA_START <= b < NBLOCK
    ensures SlotsOk(e)
  {
    forall j | 0 <= j < SLOTS ensures if j < |bs| then DATA_START <= e.blocks[j] < NBLOCK else e.blocks[j] == -1 {
      if j < |bs| { assert bs[j] in bs; }
    }
  }

  lemma NameIsNew(x: Fs, name: string, ftype: int, size: int, n: nat)
    requires Inv(x) && Load(x, name, ftype, size, n).1.Loaded? && !IsFree(name)
    ensures NamesDistinct(Load(x, name, ftype, size, n).0)
  {
    hide BlocksOk, EntryOk, Take, FindFree;
  }

  // ---- deleting

  /** Delete of a file that is there keeps the tables consistent. */
  lemma DeleteKeeps(x: Fs, name: string)
    requires Inv(x)
    ensures Inv(Delete(x, name).0)
  {
    hide BlocksOk, FindName, Released, IsFree, NamesDistinct, SlotsOk;
    if Delete(x, name).1.Deleted? {
      var k := FindName(x.inode, name, 0);
      var x2 := Delete(x, name).0;
      DeleteKeepsBlocks(x, name);
      forall i | 0 <= i < NFILE ensures EntryOk(x2, i) {
        assert EntryOk(x, i);
        if i == k { FreeIsClear(); }
      }
      assert NamesDistinct(x2) by { FreedNames(x, x2, k); }
    }
  }

  lemma FreeIsClear()
    ensures SlotsOk(FreeEntry) && IsFree(NoName) && FreeRoot == RootEntry(FreeEntry.name, FreeEntry.size, FreeEntry.ftype)
  {
    assert "-1"[1..] == "1" && "1"[1..] == "";
    assert DigitsValue("1", 0) == DigitsValue("", 1) == 1;
  }

  lemma FreedNames(x: Fs, x2: Fs, k: nat)
    requires Sized(x) && Sized(x2) && NamesDistinct(x) && k < NFILE && x2.inode == x.inode[k := FreeEntry]
    ensures NamesDistinct(x2)
  {
    FreeIsClear();
  }

  lemma DeleteKeepsBlocks(x: Fs, name: string)
    requires Inv(x) && Delete(x, name).1.Deleted?
    ensures BlocksOk(Delete(x, name).0)
    ensures var k := FindName(x.inode, name, 0); var u := Delete(x, name).0.used;
            forall b | 0 <= b < NBLOCK :: u[b] == if b in x.inode[k].blocks then 0 else x.used[b]
  {
    hide FindName, NamesDistinct;
    var k := FindName(x.inode, name, 0);
    var x2 := Delete(x, name).0;
    assert EntryOk(x, k);
    var bs := x.inode[k].blocks;
    TailIsEmpty(x.inode[k]);
    ReleasedIs(x.used, bs);
    forall b | DATA_START <= b < NBLOCK ensures IsUsed(x2, b) <==> exists i: nat, j: nat :: Names(x2, i, j, b) {
      ClearedNames(x, x2, k, b);
    }
    forall i: nat, j: nat, i2: nat, j2: nat, b | b != -1 && Names(x2, i, j, b) && Names(x2, i2, j2, b) ensures i == i2 && j == j2 {
      assert Names(x, i, j, b) && Names(x, i2, j2, b);
    }
  }

  lemma ClearedNames(x: Fs, x2: Fs, k: nat, b: int)
    requires Sized(x) && Sized(x2) && BlocksOk(x) && k < NFILE && DATA_START <= b < NBLOCK && x2.inode == x.inode[k := FreeEntry]
    requires forall c | 0 <= c < NBLOCK :: x2.used[c] == if c in x.inode[k].blocks then 0 else x.used[c]
    ensures IsUsed(x2, b) <==> exists i: nat, j: nat :: Names(x2, i, j, b)
  {
    if i: nat, j: nat :| Names(x2, i, j, b) {
      assert i != k && Names(x, i, j, b);
      forall l: nat | l < SLOTS ensures x.inode[k].blocks[l] != b {
        if x.inode[k].blocks[l] == b { assert Names(x, k, l, b); }
      }
      assert IsUsed(x, b);
      assert IsUsed(x2, b);
    }
    if IsUsed(x2, b) {
      assert IsUsed(x, b);
      var i: nat, j: nat :| Names(x, i, j, b);
      assert i != k;
      assert Names(x2, i, j, b);
    }
  }

  lemma TailIsEmpty(e: Entry)
    requires SlotsOk(e)
    ensures forall j | 0 <= j < SLOTS && e.blocks[j] == -1 :: forall l | j <= l < SLOTS :: e.blocks[l] == -1
  {
    assert e.blocks[0] == -1 ==> e.blocks[1] == -1;
    assert e.blocks[1] == -1 ==> e.blocks[2] == -1;
    assert e.blocks[2] == -1 ==> e.blocks[3] == -1;
  }

  // ---- round trip and runs

  /** Deleting a file that was just loaded gives back the very tables from before. */
  lemma DeleteUndoesLoad(x: Fs, name: string, ftype: int, size: int, n: nat)
    requires Inv(x) && Load(x, name, ftype, size, n).1.Loaded? && name != "root" && !IsFree(name)
    ensures Delete(Load(x, name, ftype, size, n).0, name) == (x, Deleted)
  {
    hide BlocksOk, FindFree, Take, Released, IsFree;
    var (x2, r) := Load(x, name, ftype, size, n);
    LoadFills(x, name, ftype, size, n);
    assert EntryOk(x, r.k);
    assert FindName(x.inode, name, 0) == -1;
    assert FindName(x2.inode, name, 0) == r.k by { FoundAgain(x.inode, x2.inode, name, r.k, 0); }
    assert x.used[0] == 1 by { SystemIsUsed(x); }
    ReleaseUndoesTake(x.used, n);
    FreeIsClear();
    var x3 := Delete(x2, name).0;
    assert x3.inode == x.inode && x3.root == x.root;
  }

  lemma SystemIsUsed(x: Fs)
    requires Inv(x)
    ensures forall b | 0 <= b < DATA_START :: x.used[b] == 1
  {
  }

  lemma {:induction false} FoundAgain(inode: seq<Entry>, inode2: seq<Entry>, name: string, k: nat, i: nat)
    requires i <= k < |inode| == |inode2| && inode2 == inode[k := inode2[k]] && inode2[k].name == name && !IsFree(name)
    requires FindName(inode, name, i) == -1
    ensures FindName(inode2, name, i) == k
    decreases k - i
  {
    if i < k {
      FoundAgain(inode, inode2, name, k, i + 1);
    }
  }

  // ---- what a load does, by the size of the file

  function FreeBlocks(used: seq<int>): nat {
    if used == [] then 0 else FreeBlocks(used[..|used| - 1]) + (if used[|used| - 1] == 0 then 1 else 0)
  }

  lemma {:induction false} FreeBlocksUpdate(used: seq<int>, b: nat, v: int)
    requires b < |used|
    ensures FreeBlocks(used[b := v]) == FreeBlocks(used) - (if used[b] == 0 then 1 else 0) + (if v == 0 then 1 else 0)
    decreases |used|
  {
    var k := |used| - 1;
    if b == k {
      assert used[b := v][..k] == used[..k];
    } else {
      assert used[b := v][..k] == used[..k][b := v];
      FreeBlocksUpdate(used[..k], b, v);
    }
  }

  lemma {:induction false} NoFreeBlocks(used: seq<int>)
    requires forall b | 0 <= b < |used| :: used[b] != 0
    ensures FreeBlocks(used) == 0
    decreases |used|
  {
    if used != [] {
      NoFreeBlocks(used[..|used| - 1]);
    }
  }

  /** Allocation gets as many blocks as it asks for, or all that are free. */
  lemma {:induction false} TakeLength(used: seq<int>, n: nat)
    requires |used| == NBLOCK
    ensures |Take(used, n).1| == if n <= FreeBlocks(used) then n else FreeBlocks(used)
    decreases n
  {
    hide Take, FirstFree, FreeBlocks;
    TakeStep(used, n);
    var b := FirstFree(used, 0);
    if b == -1 {
      NoFreeBlocks(used);
    } else if n > 0 {
      FreeBlocksUpdate(used, b, 1);
      TakeLength(used[b := 1], n - 1);
    }
  }

  /** A file of this name is there. */
  predicate Present(x: Fs, name: string) {
    !IsFree(name) && exists i | 0 <= i < |x.inode| :: x.inode[i].name == name
  }

  predicate HasFreeEntry(x: Fs) {
    exists i | 0 <= i < |x.inode| :: IsFree(x.inode[i].name)
  }

  /** How a load ends, in the order of the loader's tests. */
  lemma LoadEnds(x: Fs, name: string, ftype: int, size: int, n: nat)
    requires Sized(x)
    ensures var r := Load(x, name, ftype, size, n).1;
            && (r == TooBig <==> n > SLOTS)
            && (r == DiskFull <==> FreeBlocks(x.used) < n <= SLOTS)
            && (r == Exists <==> n <= SLOTS && n <= FreeBlocks(x.used) && Present(x, name))
            && (r == TableFull <==> n <= SLOTS && n <= FreeBlocks(x.used) && !Present(x, name) && !HasFreeEntry(x))
            && (r.Loaded? <==> n <= SLOTS && n <= FreeBlocks(x.used) && !Present(x, name) && HasFreeEntry(x))
  {
    hide Take, FreeBlocks, IsFree, Released, Added, Padded;
    TakeLength(x.used, n);
    FindsIfPresent(x, name, 0);
  }

  lemma {:induction false} FindsIfPresent(x: Fs, name: string, i: nat)
    requires i <= |x.inode|
    ensures FindName(x.inode, name, i) >= 0 <==> !IsFree(name) && exists k | i <= k < |x.inode| :: x.inode[k].name == name
    ensures FindFree(x.inode, i) >= 0 <==> exists k | i <= k < |x.inode| :: IsFree(x.inode[k].name)
    decreases |x.inode| - i
  {
    hide IsFree;
    if i < |x.inode| {
      FindsIfPresent(x, name, i + 1);
    }
  }

  /** The entry has c blocks of the data area, free before and used now, and no more. */
  predicate HasBlocks(x: Fs, x2: Fs, e: Entry, c: nat)
    requires Sized(x) && Sized(x2)
  {
    && |e.blocks| == SLOTS && c <= SLOTS
    && (forall j | 0 <= j < SLOTS ::
          if j < c then DATA_START <= e.blocks[j] < NBLOCK && x.used[e.blocks[j]] == 0 && x2.used[e.blocks[j]] != 0 else e.blocks[j] == -1)
    && forall j, k | 0 <= j < k < c :: e.blocks[j] != e.blocks[k]
  }

  predicate IsLoaded(x: Fs, x2: Fs, k: nat, name: string, ftype: int, size: int, c: nat)
    requires Sized(x) && Sized(x2)
  {
    && k < NFILE && IsFree(x.inode[k].name) && x2.inode == x.inode[k := x2.inode[k]] && x2.root == x.root[k := RootEntry(name, size, ftype)]
    && x2.inode[k].name == name && x2.inode[k].ftype == ftype && x2.inode[k].size == size && HasBlocks(x, x2, x2.inode[k], c)
  }

  lemma LoadedHas(x: Fs, name: string, ftype: int, size: int, n: nat)
    requires Inv(x) && Load(x, name, ftype, size, n).1.Loaded?
    ensures var (x2, r) := Load(x, name, ftype, size, n); IsLoaded(x, x2, r.k, name, ftype, size, n)
  {
    hide Inv, Load, Take, IsFree;
    LoadFills(x, name, ftype, size, n);
    var (x2, r) := Load(x, name, ftype, size, n);
    var bs := Take(x.used, n).1;
    forall j | 0 <= j < n ensures DATA_START <= bs[j] < NBLOCK && x.used[bs[j]] == 0 && x2.used[bs[j]] != 0 {
      assert bs[j] in bs;
    }
  }

  /** A data file of w words gets the least number of blocks that holds them; it is too big
      exactly when that is more than four. */
  lemma DataLoads(x: Fs, name: string, w: nat)
    requires Inv(x)
    ensures var (x2, r) := LoadData(x, name, w);
            && (r == TooBig <==> w > 4 * 512)
            && (r.Loaded? ==> exists c: nat | 512 * c - 512 < w <= 512 * c :: IsLoaded(x, x2, r.k, name, TYPE_DATA, w, c))
  {
    hide Inv, Load, IsLoaded;
    var c := w / 512 + (if w % 512 == 0 then 0 else 1);
    assert 512 * c - 512 < w <= 512 * c;
    LoadEnds(x, name, TYPE_DATA, w, c);
    if LoadData(x, name, w).1.Loaded? {
      LoadedHas(x, name, TYPE_DATA, w, c);
    }
  }

  /** A program of n lines has two words to a line and the least number of blocks that
      holds more than n lines. */
  lemma ExecLoads(x: Fs, name: string, n: nat)
    requires Inv(x)
    ensures var (x2, r) := LoadExec(x, name, n);
            && (r == TooBig <==> n >= 4 * 256)
            && (r.Loaded? ==> exists c: nat | 256 * c - 256 <= n < 256 * c :: IsLoaded(x, x2, r.k, name, TYPE_EXEC, 2 * n, c))
  {
    hide Inv, Load, IsLoaded;
    var c := n / 256 + 1;
    assert 256 * c - 256 <= n < 256 * c;
    LoadEnds(x, name, TYPE_EXEC, n * 2, c);
    assert n * 2 == 2 * n;
    if LoadExec(x, name, n).1.Loaded? {
      LoadedHas(x, name, TYPE_EXEC, n * 2, c);
    }
  }

  /** Delete takes the first entry of the name away, and frees its blocks and no others. */
  lemma DeleteTakes(x: Fs, name: string)
    requires Inv(x)
    ensures var (x2, r) := Delete(x, name);
            && (r == Deleted <==> name != "root" && Present(x, name)) && (r != Deleted ==> x2 == x)
            && (r == Deleted ==>
                  !Present(x2, name)
                  && exists k | 0 <= k < NFILE ::
                       x.inode[k].name == name && x2.inode == x.inode[k := FreeEntry] && x2.root == x.root[k := FreeRoot]
                       && forall b | 0 <= b < NBLOCK :: (x2.used[b] == if b in x.inode[k].blocks then 0 else x.used[b]))
  {
    hide Load, IsFree, BlocksOk, Released;
    FindsIfPresent(x, name, 0);
    var k := FindName(x.inode, name, 0);
    if name != "root" && k >= 0 {
      assert EntryOk(x, k);
      SlotsEnd(x.inode[k]);
      ReleasedOnly(x.used, x.inode[k].blocks);
      FreeIsClear();
      var x2 := Delete(x, name).0;
      forall i | 0 <= i < NFILE ensures x2.inode[i].name != name {
        assert i != k ==> x2.inode[i] == x.inode[i];
      }
    }
  }

  lemma SlotsEnd(e: Entry)
    requires SlotsOk(e)
    ensures forall j, k | 0 <= j < k < SLOTS && e.blocks[j] == -1 :: e.blocks[k] == -1
  {
    forall j, k | 0 <= j < k < SLOTS && e.blocks[j] == -1 ensures e.blocks[k] == -1 {
      assert e.blocks[j + 1] == -1;
      assert j + 2 < SLOTS ==> e.blocks[j + 2] == -1;
    }
  }

  /** Giving back a file's slots frees the blocks they name. */
  lemma {:induction false} ReleasedOnly(used: seq<int>, bs: seq<int>)
    requires |used| == NBLOCK && forall j | 0 <= j < |bs| :: bs[j] == -1 || 0 < bs[j] < NBLOCK
    requires forall j, k | 0 <= j < k < |bs| && bs[j] == -1 :: bs[k] == -1
    ensures forall b | 0 <= b < NBLOCK :: Released(used, bs)[b] == if b in bs then 0 else used[b]
    decreases |bs|
  {
    if bs != [] && bs[0] != -1 {
      ReleasedOnly(used[bs[0] := 0], bs[1..]);
      assert bs == [bs[0]] + bs[1..];
    } else {
      forall j | 0 <= j < |bs| ensures bs[j] == -1 {
        if j > 0 { assert bs[0] == -1; }
      }
    }
  }

  datatype Cmd = LoadDataFile(name: string, words: nat) | LoadExecFile(name: string, lines: nat) | DeleteFile(name: string)

  function After(x: Fs, c: Cmd): (r: (Fs, Result))
    requires Sized(x)
    ensures Sized(r.0)
  {
    match c
    case LoadDataFile(name, words) => LoadData(x, name, words)
    case LoadExecFile(name, lines) => LoadExec(x, name, lines)
    case DeleteFile(name) => Delete(x, name)
  }

  /** Loaded names carry an extension, so none is root; the search for an entry is modelled
      while there is one. */
  predicate Allowed(x: Fs, c: Cmd)
    requires Sized(x)
  {
    !c.DeleteFile? ==> c.name != "root" && !IsFree(c.name) && FindFree(x.inode, 0) != -1
  }

  lemma CommandKeeps(x: Fs, c: Cmd)
    requires Inv(x) && Allowed(x, c)
    ensures Inv(After(x, c).0)
    ensures After(x, c).1 !in {Deleted} && !After(x, c).1.Loaded? ==> After(x, c).0 == x
  {
    hide Inv, Load, FindName, FindFree, Released, IsFree;
    match c {
      case LoadDataFile(name, words) => LoadKeeps(x, name, TYPE_DATA, words, words / 512 + (if words % 512 == 0 then 0 else 1));
      case LoadExecFile(name, lines) => LoadKeeps(x, name, TYPE_EXEC, lines * 2, lines / 256 + 1);
      case DeleteFile(name) => DeleteKeeps(x, name);
    }
  }

  lemma LoadKeeps(x: Fs, name: string, ftype: int, size: int, n: nat)
    requires Inv(x) && name != "root" && !IsFree(name) && ftype in {TYPE_DATA, TYPE_EXEC}
    ensures Inv(Load(x, name, ftype, size, n).0)
    ensures !Load(x, name, ftype, size, n).1.Loaded? ==> Load(x, name, ftype, size, n).0 == x
  {
    hide Inv, Load, IsFree;
    if Load(x, name, ftype, size, n).1.Loaded? {
      LoadKeepsIffNamed(x, name, ftype, size, n);
    } else {
      FailedLoadRestores(x, name, ftype, size, n);
    }
  }

  ghost predicate Possible(x: Fs, cs: seq<Cmd>)
    requires Sized(x)
    decreases |cs|
  {
    cs == [] || (Allowed(x, cs[0]) && Possible(After(x, cs[0]).0, cs[1..]))
  }

  ghost function Outcome(x: Fs, cs: seq<Cmd>): Fs
    requires Sized(x) && Possible(x, cs)
    decreases |cs|
  {
    if cs == [] then x else Outcome(After(x, cs[0]).0, cs[1..])
  }

  /** Over any run of loads and deletes the disk tables stay consistent. */
  lemma {:induction false} RunKeeps(x: Fs, cs: seq<Cmd>)
    requires Inv(x) && Possible(x, cs)
    ensures Inv(Outcome(x, cs))
    decreases |cs|
  {
    hide Inv, After, Allowed;
    if cs != [] {
      CommandKeeps(x, cs[0]);
      RunKeeps(After(x, cs[0]).0, cs[1..]);
    }
  }

  // ---- a fresh disk

  function RootInode(): Entry {
    Entry(TYPE_ROOT, "root", 512, 0, 0, [5, -1, -1, -1])
  }

  /** formatDisk: everything free but the system's blocks, and the root file's entry. */
  predicate Formatted(x: Fs) {
    && Sized(x)
    && (forall b | 0 <= b < NBLOCK :: x.used[b] == if b < DATA_START then 1 else 0)
    && forall i | 0 <= i < NFILE ::
      x.inode[i] == (if i == 0 then RootInode() else FreeEntry) && x.root[i] == (if i == 0 then RootEntry("root", 512, TYPE_ROOT) else FreeRoot)
  }

  lemma FormatHolds(x: Fs)
    requires Formatted(x)
    ensures Inv(x)
  {
    hide IsFree;
    FreeIsClear();
    assert !IsFree("root") by { RootIsAName(); }
    forall b, i: nat, j: nat | DATA_START <= b < NBLOCK ensures !Names(x, i, j, b) {
      if i < NFILE && j < SLOTS { assert x.inode[i].blocks[j] in {5, -1}; }
    }
    forall i: nat, j: nat, b | b != -1 && Names(x, i, j, b) ensures i == 0 && j == 0 {
      assert x.inode[i] in {RootInode(), FreeEntry};
    }
  }

  /** A file of one word named "-1.dat": the load succeeds, and leaves an entry that counts
      as free with the file's block marked used. */
  lemma MinusOneIsLost(x: Fs)
    requires Formatted(x)
    ensures var (x2, r) := LoadData(x, "-1.dat", 1);
            r.Loaded? && IsFree(x2.inode[r.k].name) && x2.inode[r.k].blocks[0] == DATA_START && x2.used[DATA_START] == 1 && !Inv(x2)
  {
    hide IsFree, Inv, FindName, FindFree;
    FormatHolds(x);
    ReadsAsMinusOne();
    var u := x.used;
    assert u[DATA_START] == 0;
    assert FirstFree(u, 0) == DATA_START;
    TakeStep(u, 1);
    assert Take(u[DATA_START := 1], 0) == (u[DATA_START := 1], []);
    assert [DATA_START] + [] == [DATA_START];
    assert IsFree(x.inode[1].name) by { FreeIsClear(); }
    LoadKeepsIffNamed(x, "-1.dat", TYPE_DATA, 1, 1);
  }

  lemma ReadsAsMinusOne()
    ensures IsFree("-1.dat")
  {
    assert "-1.dat"[1..] == "1.dat" && "1.dat"[1..] == ".dat";
    assert DigitsValue(".dat", 1) == 1 && DigitsValue("1.dat", 0) == 1;
  }

  lemma RootIsAName()
    ensures !IsFree("root")
  {
  }

  // ---- the code

  class Disk {
    const free: array<int>
    const inode: array<Entry>
    const root: array<RootEntry>

    constructor Format()
      ensures Valid() && fresh(free) && fresh(inode) && fresh(root) && Formatted(Contents())
    {
      free := new int[NBLOCK];
      inode := new Entry[NFILE](_ => FreeEntry);
      root := new RootEntry[NFILE](_ => FreeRoot);
      new;
      var j := 0;
      while j < NBLOCK
        invariant 0 <= j <= NBLOCK && forall b | 0 <= b < j :: free[b] == if b < DATA_START then 1 else 0
        invariant forall i | 0 <= i < NFILE :: inode[i] == FreeEntry && root[i] == FreeRoot
      {
        free[j] := if j >= DATA_START then 0 else 1;
        j := j + 1;
      }
      inode[0], root[0] := RootInode(), RootEntry("root", 512, TYPE_ROOT);
    }

    ghost predicate Valid() {
      free.Length == NBLOCK && inode.Length == NFILE && root.Length == NFILE
    }

    ghost function Contents(): (x: Fs)
      requires Valid()
      reads free, inode, root
      ensures |x.used| == NBLOCK && |x.inode| == NFILE && |x.root| == NFILE
    {
      Fs(free[..], inode[..], root[..])
    }

    method FindFreeBlock() returns (b: int)
      requires Valid()
      modifies free
      ensures b == FirstFree(old(free[..]), 0)
      ensures free[..] == if b == -1 then old(free[..]) else old(free[..])[b := 1]
    {
      var j := 0;
      while j < NBLOCK
        invariant 0 <= j <= NBLOCK && free[..] == old(free[..]) && FirstFree(free[..], j) == FirstFree(free[..], 0)
      {
        if free[j] == 0 {
          free[j] := 1;
          return j;
        }
        j := j + 1;
      }
      return -1;
    }

    method FreeUnusedBlock(bs: seq<int>)
      requires Valid() && forall j | 0 <= j < |bs| :: -1 <= bs[j] < NBLOCK
      modifies free
      ensures free[..] == Released(old(free[..]), bs)
    {
      var i := 0;
      assert bs[0..] == bs;
      while i < |bs| && bs[i] != -1 && bs[i] != 0
        invariant 0 <= i <= |bs| && Released(free[..], bs[i..]) == Released(old(free[..]), bs)
      {
        assert bs[i..][0] == bs[i] && bs[i..][1..] == bs[i + 1..];
        free[bs[i]] := 0;
        i := i + 1;
      }
    }

    method GetInodeEntry(name: string) returns (k: int)
      requires Valid()
      ensures k == FindName(inode[..], name, 0)
    {
      var i := 0;
      while i < NFILE
        invariant 0 <= i <= NFILE && FindName(inode[..], name, i) == FindName(inode[..], name, 0)
      {
        if inode[i].name == name && Atoi(inode[i].name) != -1 {
          return i;
        }
        i := i + 1;
      }
      return -1;
    }

    method FindEmptyInodeEntry() returns (k: int)
      requires Valid()
      ensures k == FindFree(inode[..], 0)
    {
      var i := 0;
      while i < NFILE
        invariant 0 <= i <= NFILE && FindFree(inode[..], i) == FindFree(inode[..], 0)
      {
        if Atoi(inode[i].name) == -1 {
          return i;
        }
        i := i + 1;
      }
      return -1;
    }

    method AddEntry(k: nat, ftype: int, name: string, size: int, bs: seq<int>)
      requires Valid() && k < NFILE && |bs| == SLOTS && Sized(Contents())
      modifies inode, root
      ensures Contents() == Added(old(Contents()), k, ftype, name, size, bs)
    {
      var e := inode[k].(ftype := ftype, name := name, size := size, blocks := bs);
      if ftype == TYPE_ROOT {
        e := e.(user := 0, perm := 0);
      } else if ftype == TYPE_DATA {
        e := e.(user := 1, perm := 1);
      } else if ftype == TYPE_EXEC {
        e := e.(user := 0, perm := -1);
      }
      inode[k] := e;
      root[k] := RootEntry(name, size, ftype);
    }

    /** The allocation loop of both loaders. The array freeBlock starts as all -1 and the
        failing search leaves its -1 in it. */
    method Allocate(n: nat) returns (ok: bool, freeBlock: seq<int>)
      requires Valid() && n <= SLOTS
      modifies free
      ensures free[..] == Take(old(free[..]), n).0 && freeBlock == Padded(Take(old(free[..]), n).1)
      ensures ok <==> |Take(old(free[..]), n).1| == n
    {
      hide Take, FirstFree, Padded;
      assert Padded([]) == [-1, -1, -1, -1];
      freeBlock := [-1, -1, -1, -1];
      var i := 0;
      ghost var got: seq<int> := [];
      ghost var all := Take(free[..], n);
      assert [] + Take(free[..], n).1 == Take(free[..], n).1;
      while i < n
        invariant 0 <= i <= n && |got| == i && freeBlock == Padded(got)
        invariant all == (Take(free[..], n - i).0, got + Take(free[..], n - i).1)
      {
        ghost var was := free[..];
        var b := FindFreeBlock();
        GotStep(was, n - i, got, b);
        freeBlock := freeBlock[i := b];
        if b == -1 {
          return false, freeBlock;
        }
        got := got + [b];
        i := i + 1;
      }
      ok := true;
      TakeStep(free[..], 0);
      assert got + [] == got;
    }

    method LoadFile(name: string, ftype: int, size: int, n: nat) returns (r: Result)
      requires Valid() && Sized(Contents())
      modifies free, inode, root
      ensures (Contents(), r) == Load(old(Contents()), name, ftype, size, n)
    {
      if n > SLOTS {
        return TooBig;
      }
      var ok, freeBlock := Allocate(n);
      TakeIs(old(free[..]), n);
      PaddedRange(Take(old(free[..]), n).1);
      if !ok {
        FreeUnusedBlock(freeBlock);
        return DiskFull;
      }
      var i := GetInodeEntry(name);
      if i >= 0 {
        FreeUnusedBlock(freeBlock);
        return Exists;
      }
      var k := FindEmptyInodeEntry();
      if k == -1 {
        FreeUnusedBlock(freeBlock);
        return TableFull;
      }
      AddEntry(k, ftype, name, size, freeBlock);
      return Loaded(k);
    }

    /** loadDataToDisk, from the number of words on. */
    method LoadDataToDisk(name: string, words: nat) returns (r: Result)
      requires Valid() && Sized(Contents())
      modifies free, inode, root
      ensures (Contents(), r) == LoadData(old(Contents()), name, words)
    {
      var blocks := words / 512;
      if words % 512 != 0 {
        blocks := blocks + 1;
      }
      r := LoadFile(name, TYPE_DATA, words, blocks);
    }

    /** loadExecutableToDisk: the end of the file counts as the end of a line. */
    method LoadExecutableToDisk(name: string, text: string) returns (r: Result)
      requires Valid() && Sized(Contents())
      modifies free, inode, root
      ensures (Contents(), r) == LoadExec(old(Contents()), name, Newlines(text) + 1)
    {
      var lines := 0;
      var i := 0;
      while i < |text|
        invariant 0 <= i <= |text| && lines == Newlines(text[..i])
      {
        assert text[..i + 1] == text[..i] + [text[i]];
        if text[i] == '\n' {
          lines := lines + 1;
        }
        i := i + 1;
      }
      assert text[..i] == text;
      lines := lines + 1;
      r := LoadFile(name, TYPE_EXEC, lines * 2, lines / 256 + 1);
    }

    method DeleteFile(name: string) returns (r: Result)
      requires Valid() && Sized(Contents()) && forall i, j | 0 <= i < NFILE && 0 <= j < SLOTS :: -1 <= inode[i].blocks[j] < NBLOCK
      modifies free, inode, root
      ensures (Contents(), r) == Delete(old(Contents()), name)
    {
      if name == "root" {
        return IsRoot;
      }
      var k := GetInodeEntry(name);
      if k < 0 {
        return NotFound;
      }
      FreeUnusedBlock(inode[k].blocks);
      inode[k] := FreeEntry;
      root[k] := FreeRoot;
      return Deleted;
    }
  }

  function Newlines(text: string): nat {
    if text == "" then 0 else Newlines(text[..|text| - 1]) + (if text[|text| - 1] == '\n' then 1 else 0)
  }

  lemma PaddedRange(bs: seq<int>)
    requires |bs| <= SLOTS && forall b | b in bs :: 0 <= b < NBLOCK
    ensures forall j | 0 <= j < SLOTS :: -1 <= Padded(bs)[j] < NBLOCK
  {
    forall j | 0 <= j < SLOTS ensures -1 <= Padded(bs)[j] < NBLOCK {
      if j < |bs| { assert bs[j] in bs; }
    }
  }
}
