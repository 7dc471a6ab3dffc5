/** Whole runs of the memory kernel from boot, and its code over the tables. */
module MemoryTables {
  import opened MemoryKernel
  import opened MemorySafety

  // ---- runs

  ghost predicate Possible(m: M, es: seq<Event>)
    requires Sized(m)
    decreases |es|
  {
    es == [] || (Enabled(m, es[0]) && Possible(After(m, es[0]), es[1..]))
  }

  ghost function Outcome(m: M, es: seq<Event>): (r: M)
    requires Sized(m) && Possible(m, es)
    ensures Sized(r)
    decreases |es|
  {
    if es == [] then m else Outcome(After(m, es[0]), es[1..])
  }

  lemma {:induction false} RunKeeps(m: M, es: seq<Event>)
    requires Inv(m) && Possible(m, es)
    ensures Inv(Outcome(m, es)) && CountsOk(Outcome(m, es))
    decreases |es|
  {
    hide Inv, After, Enabled;
    if es == [] {
      CountsHold(m);
    } else {
      StepKeeps(m, es[0]);
      RunKeeps(After(m, es[0]), es[1..]);
    }
  }

  lemma CountsHold(m: M)
    requires Inv(m)
    ensures CountsOk(m)
  {
  }

  function Full(frame: int): Entry {
    Entry(frame, true)
  }

  function IdleProc(): Proc {
    Proc([Full(63), Full(64), None, None, Full(69), Full(70), None, None, Full(81), None], 82, -1)
  }

  function InitProc(): Proc {
    Proc([Full(63), Full(64), Full(78), Full(79), Full(65), Full(66), None, None, Full(76), Full(77)], 80, -1)
  }

  function NoProc(): Proc {
    Proc([None, None, None, None, None, None, None, None, None, None], -1, -1)
  }

  /** The page tables that boot and the startup code leave (boot.spl:106-232,
      os_startup.spl:16-48): 83 pages in use, 45 free. */
  predicate Booted(m: M) {
    && Sized(m) && m.cur == 0 && m.free == 45 && m.diskMap[1] == [65, 66, -1, -1]
    && (forall f | 0 <= f < NFRAME :: m.count[f] == if f < 83 then 1 else 0)
    && (forall p | 0 <= p < NPROC ::
          && m.mem[p] == (if p == 0 then IdleProc() else if p == 1 then InitProc() else NoProc())
          && m.st[p] == (if p == 0 then Running else if p == 1 then Created else Terminated)
          && m.loc[p] == User)
  }

  lemma {:induction false} UsesOfNoProcs(mem: seq<Proc>, f: int)
    requires Tabled(mem) && |mem| >= 2 && mem[0] == IdleProc() && mem[1] == InitProc() && forall p | 2 <= p < |mem| :: mem[p] == NoProc()
    ensures Uses(mem, f) == UsesOf(IdleProc(), f) + UsesOf(InitProc(), f)
    decreases |mem|
  {
    hide UsesOf;
    var k := |mem| - 1;
    if k == 1 {
      assert mem[..1] == [IdleProc()] && mem[..1][..0] == [];
      assert Uses(mem[..1], f) == UsesOf(IdleProc(), f);
    } else {
      UsesOfNoProcs(mem[..k], f);
      NoProcUsesNothing(f);
    }
  }

  lemma NoProcUsesNothing(f: int)
    ensures UsesOf(NoProc(), f) == 0
  {
    NamedNothing(NoProc().pt, 2, f);
  }

  lemma IdleUses(f: int)
    ensures UsesOf(IdleProc(), f) == if f in {69, 70, 81, 82} then 1 else 0
  {
    var a := IdleProc().pt;
    assert Named(a, 10, f) == 0 == Named(a, 9, f);
    assert Named(a, 8, f) == if f == 81 then 1 else 0;
    assert Named(a, 6, f) == Named(a, 8, f);
    assert Named(a, 5, f) == Named(a, 6, f) + (if f == 70 then 1 else 0);
    assert Named(a, 4, f) == Named(a, 5, f) + (if f == 69 then 1 else 0);
    assert Named(a, 2, f) == Named(a, 4, f);
  }

  lemma InitUses(f: int)
    ensures UsesOf(InitProc(), f) == if f in {65, 66, 76, 77, 78, 79, 80} then 1 else 0
  {
    var b := InitProc().pt;
    assert Named(b, 10, f) == 0;
    assert Named(b, 8, f) == if f in {76, 77} then 1 else 0;
    assert Named(b, 6, f) == Named(b, 8, f);
    assert Named(b, 4, f) == Named(b, 6, f) + (if f in {65, 66} then 1 else 0);
    assert Named(b, 2, f) == Named(b, 4, f) + (if f in {78, 79} then 1 else 0);
  }

  lemma {:induction false} ZerosPast(count: seq<int>, used: nat)
    requires used <= |count| && forall f | 0 <= f < |count| :: count[f] == if f < used then 1 else 0
    ensures Zeros(count) == |count| - used
    decreases |count|
  {
    if used == |count| {
      NoZeros(count);
    } else {
      ZerosPast(count[..|count| - 1], used);
    }
  }

  lemma BootHolds(m: M)
    requires Booted(m)
    ensures Inv(m)
  {
    hide Uses, UsesOf, Zeros, ProcOk, Named, IdleProc, InitProc, NoProc;
    forall f | 0 <= f < NFRAME ensures FrameOk(m, f) {
      UsesOfNoProcs(m.mem, f);
      IdleUses(f);
      InitUses(f);
    }
    ZerosPast(m.count, 83);
    forall p | 0 <= p < NPROC ensures ProcOk(m, p) { BootProc(m, p); }
  }

  lemma BootProc(m: M, p: nat)
    requires Booted(m) && p < NPROC
    ensures ProcOk(m, p)
  {
    hide Uses, Zeros, Named;
  }

  // ---- what holds in every reachable state

  /** A page is in use exactly when its count is not zero: no page leaks and none is
      handed out twice. */
  lemma CountIsExact(m: M, f: nat)
    requires Inv(m) && f < NFRAME && !IsLib(f)
    ensures m.count[f] == Reserve(f) + Uses(m.mem, f)
    ensures m.count[f] == 0 <==> Reserve(f) == 0 && forall p | 0 <= p < NPROC :: UsesOf(m.mem[p], f) == 0
  {
    hide UsesOf, Uses, ProcOk, Zeros;
    assert FrameOk(m, f);
    forall p | 0 <= p < NPROC ensures UsesOf(m.mem[p], f) <= Uses(m.mem, f) { UsesUpdate(m.mem, p, m.mem[p], f); }
    if forall p | 0 <= p < NPROC :: UsesOf(m.mem[p], f) == 0 {
      UsesNone(m.mem, f);
    }
  }

  lemma {:induction false} UsesNone(mem: seq<Proc>, f: int)
    requires Tabled(mem) && forall p | 0 <= p < |mem| :: UsesOf(mem[p], f) == 0
    ensures Uses(mem, f) == 0
    decreases |mem|
  {
    hide UsesOf;
    if mem != [] {
      UsesNone(mem[..|mem| - 1], f);
    }
  }

  /** No process waits for memory while a page is free, or for a process that ended. */
  lemma NoLostWakeup(m: M, p: nat)
    requires Inv(m) && p < NPROC
    ensures m.st[p] == WaitMem ==> p >= 1 && m.free == 0 && forall f | 0 <= f < NFRAME :: m.count[f] != 0
    ensures m.st[p] == WaitProcess ==> 0 <= m.wait[p] < NPROC && m.wait[p] != p && m.st[m.wait[p]] != Terminated
  {
    hide CountsOk, ProcSound, PagesOk, ChildOk, AreaOk;
    assert ProcOk(m, p);
    SearchFinds(m);
  }

  /** When the wait loop of get free page is left, the search ends at a page of the
      list that nobody uses. */
  lemma GrantIsFresh(m: M)
    requires Inv(m) && m.free != 0
    ensures var f := Grant(m); f < NFRAME && m.count[f] == 0 && !IsLib(f) && Reserve(f) == 0
    ensures forall p | 0 <= p < NPROC :: UsesOf(m.mem[p], Grant(m)) == 0
  {
    hide ProcOk, Uses, UsesOf, Zeros;
    SearchFinds(m);
    assert FrameOk(m, Grant(m));
    CountIsExact(m, Grant(m));
  }

  /** Exit gives back every page the process had: no frame is used by it any more, and
      the frames that nobody else uses are free. */
  lemma ExitGivesBack(m: M, f: nat)
    requires Inv(m) && Enabled(m, Exit) && f < NFRAME && !IsLib(f)
    ensures var m2 := After(m, Exit);
            UsesOf(m2.mem[m.cur], f) == 0 && m2.count[f] == m.count[f] - UsesOf(m.mem[m.cur], f)
  {
    hide UsesOf, Uses, Zeros, FreeArea, FreePageTable, ProcOk;
    var p := m.cur;
    var m2 := After(m, Exit);
    StepExit(m);
    InvIsBase(m);
    NobodysChild(m);
    AtUserHasPages(m);
    Empties(m, p);
    assert FrameOk(m, f) && FrameOk(m2, f);
    assert m2.mem[p].pt == NoProc().pt && m2.mem[p] == NoProc();
    NoProcUsesNothing(f);
    assert m2.mem == m.mem[p := m2.mem[p]] by {
      forall r | 0 <= r < NPROC && r != p ensures m2.mem[r] == m.mem[r] { assert Calm(m, FreeArea(FreePageTable(m, p), p), r); }
    }
    UsesUpdate(m.mem, p, m2.mem[p], f);
  }

  // ---- the code

  /** How many of the first n entries name no frame. */
  function Blanks(pt: seq<Entry>, n: nat): nat
    requires n <= |pt|
  {
    if n == 0 then 0 else Blanks(pt, n - 1) + (if pt[n - 1].frame == -1 then 1 else 0)
  }

  class Kernel {
    const count: array<int>
    const frame: array2<int>
    const valid: array2<bool>
    const area: array<int>
    const held: array<int>
    const diskMap: array2<int>
    const st: array<PState>
    const wait: array<int>
    const loc: array<Loc>
    var cur: nat
    var free: int
    /** The word in front of the free list. */
    var before: int

    ghost predicate Valid()
      reads this
    {
      && count.Length == NFRAME && frame.Length0 == NPROC && frame.Length1 == ENTRIES
      && valid.Length0 == NPROC && valid.Length1 == ENTRIES && area.Length == NPROC
      && diskMap.Length0 == NPROC && diskMap.Length1 == 4 && st.Length == NPROC && wait.Length == NPROC
      && held.Length == NPROC && loc.Length == NPROC && cur < NPROC
      && frame != diskMap && count != wait && area != count && area != wait && held !in {count, wait, area}
    }

    constructor Boot()
      ensures Valid() && fresh(count) && fresh(st) && fresh(frame) && fresh(valid) && free == 45
      ensures forall f | 0 <= f < NFRAME :: count[f] == if f < 83 then 1 else 0
      ensures free == Zeros(count[..])
    {
      count := new int[NFRAME];
      frame := new int[NPROC, ENTRIES]((_, _) => -1);
      valid := new bool[NPROC, ENTRIES]((_, _) => false);
      area := new int[NPROC](_ => -1);
      diskMap := new int[NPROC, 4]((_, _) => -1);
      st := new PState[NPROC](_ => Terminated);
      wait := new int[NPROC](_ => 0);
      held := new int[NPROC](_ => -1);
      loc := new Loc[NPROC](_ => User);
      free, before, cur := 45, 0, 0;
      new;
      var r := 0;
      while r < 76
        invariant 0 <= r <= 76 && free == 45 && cur == 0 && forall f | 0 <= f < r :: count[f] == 1
      {
        count[r] := 1;
        r := r + 1;
      }
      while r < 128
        invariant 76 <= r <= 128 && free == 45 && cur == 0 && forall f | 0 <= f < r :: count[f] == if f < 76 then 1 else 0
      {
        count[r] := 0;
        r := r + 1;
      }
      r := 76;
      while r < 83
        invariant 76 <= r <= 83 && free == 45 && cur == 0 && forall f | 0 <= f < NFRAME :: count[f] == if f < r then 1 else 0
      {
        count[r] := 1;
        r := r + 1;
      }
      ZerosPast(count[..], 83);
    }

    /** The wake loop over processes from on. */
    method Wake(w: PState, any: bool, x: int, from: nat)
      requires Valid() && w != Ready && from < NPROC
      modifies st
      ensures forall p | 0 <= p < NPROC :: st[p] == old(if p >= from && st[p] == w && (any || wait[p] == x) then Ready else st[p])
    {
      var r := from;
      while r < 16
        invariant from <= r <= 16
        invariant forall p | 0 <= p < NPROC :: st[p] == old(if from <= p < r && st[p] == w && (any || wait[p] == x) then Ready else st[p])
      {
        if st[r] == w && (any || wait[r] == x) {
          st[r] := Ready;
        }
        r := r + 1;
      }
    }

    /** Get free page once a page is free: the search of the list. The source bounds it
        by 512, which the free count keeps it from reaching. */
    method SearchPage() returns (f: nat)
      requires Valid() && free == Zeros(count[..]) && free != 0
      modifies this`free, count
      ensures f == FirstZero(old(count[..]), 0) < NFRAME && count[..] == old(count[..])[f := 1] && free == old(free) - 1
      ensures free == Zeros(count[..])
    {
      free := free - 1;
      f := 0;
      ghost var c := count[..];
      assert FirstZero(c, 0) < NFRAME by { ZerosFound(c); }
      while f < 512
        invariant 0 <= f <= FirstZero(c, 0) && count[..] == c && FirstZero(c, f) == FirstZero(c, 0)
      {
        if count[f] == 0 {
          count[f] := 1;
          ZerosUpdate(c, f, 1);
          return;
        }
        f := f + 1;
      }
      assert false;
    }

    /** Release page. */
    method ReleasePage(f: nat)
      requires Valid() && f < NFRAME
      modifies this`free, count, st
      ensures count[..] == old(count[..])[f := old(count[f]) - 1]
      ensures free == old(free) + (if count[f] == 0 then 1 else 0)
      ensures forall p | 0 <= p < NPROC :: st[p] == old(if count[f] == 1 && p >= 1 && st[p] == WaitMem then Ready else st[p])
    {
      count[f] := count[f] - 1;
      if count[f] == 0 {
        free := free + 1;
        Wake(WaitMem, true, 0, 1);
      }
    }

    /** Fork's loop over the first eight entries (int_8.spl:95-103). For an entry that
        names no frame it counts up the word in front of the list. */
    method CopyTable(p: nat, c: nat)
      requires Valid() && p < NPROC && c < NPROC && p != c && forall i | 0 <= i < 8 :: -1 <= frame[p, i] < NFRAME
      modifies this`before, count, frame, valid
      ensures forall i | 0 <= i < 8 :: frame[c, i] == frame[p, i] && valid[c, i] == valid[p, i]
      ensures forall q, i | 0 <= q < NPROC && 0 <= i < ENTRIES && !(q == c && i < 8) :: frame[q, i] == old(frame[q, i]) && valid[q, i] == old(valid[q, i])
      ensures count[..] == CopyCounts(old(count[..]), Row(p), 8) && before == old(before) + Blanks(Row(p), 8)
    {
      var i := 0;
      while i < 8
        invariant 0 <= i <= 8
        invariant forall k | 0 <= k < i :: frame[c, k] == frame[p, k] && valid[c, k] == valid[p, k]
        invariant forall q, k | 0 <= q < NPROC && 0 <= k < ENTRIES && !(q == c && k < i) :: frame[q, k] == old(frame[q, k]) && valid[q, k] == old(valid[q, k])
        invariant Row(p) == old(Row(p)) && count[..] == CopyCounts(old(count[..]), Row(p), i) && before == old(before) + Blanks(Row(p), i)
      {
        frame[c, i] := frame[p, i];
        valid[c, i] := valid[p, i];
        var f := frame[c, i];
        if f == -1 {
          before := before + 1;
        } else {
          count[f] := count[f] + 1;
        }
        i := i + 1;
      }
    }

    /** The tables as the transition system has them. */
    ghost function Tables(): (m: M)
      requires Valid()
      reads this, count, frame, valid, area, held, diskMap, st, wait, loc
      ensures Sized(m)
    {
      M(count[..], free,
        seq(NPROC, p requires 0 <= p < NPROC && Valid() reads this, frame, valid, area, held => Proc(Row(p), area[p], held[p])),
        seq(NPROC, p requires 0 <= p < NPROC && Valid() reads this, diskMap => [diskMap[p, 0], diskMap[p, 1], diskMap[p, 2], diskMap[p, 3]]),
        st[..], wait[..], loc[..], cur)
    }

    /** One entry of free page table. */
    method FreeEntry(p: nat, i: nat)
      requires Valid() && p < NPROC && 2 <= i < ENTRIES && valid[p, i] && 0 <= frame[p, i] < NFRAME
      modifies this`free, count, st, frame, valid
      ensures Tables() == SetEntry(Release(old(Tables()), old(frame[p, i])), p, i, None)
      ensures forall k | 0 <= k < ENTRIES && k != i :: frame[p, k] == old(frame[p, k]) && valid[p, k] == old(valid[p, k])
    {
      ghost var m := Tables();
      ghost var f := frame[p, i];
      ReleasePage(frame[p, i]);
      assert Tables() == Release(m, f) by {
        assert st[..] == Release(m, f).st;
        assert forall q | 0 <= q < NPROC :: Row(q) == m.mem[q].pt;
        assert forall q | 0 <= q < NPROC :: Row(q) == m.mem[q].pt;
      assert Tables().mem == m.mem && Tables().diskMap == m.diskMap;
      }
      DropEntry(p, i);
    }

    method DropEntry(p: nat, i: nat)
      requires Valid() && p < NPROC && i < ENTRIES
      modifies frame, valid
      ensures Tables() == SetEntry(old(Tables()), p, i, None)
      ensures forall k | 0 <= k < ENTRIES && k != i :: frame[p, k] == old(frame[p, k]) && valid[p, k] == old(valid[p, k])
    {
      ghost var m2 := SetEntry(Tables(), p, i, None);
      frame[p, i] := -1;
      valid[p, i] := false;
      assert forall q | 0 <= q < NPROC :: Row(q) == m2.mem[q].pt;
      assert Tables().mem == m2.mem && Tables().diskMap == m2.diskMap;
    }

    method FreeLoop(p: nat)
      requires Valid() && p < NPROC && forall i | 2 <= i < ENTRIES && valid[p, i] :: 0 <= frame[p, i] < NFRAME
      modifies this`free, count, st, frame, valid
      ensures Tables() == FreeEntries(old(Tables()), p, 2)
    {
      ghost var m := Tables();
      var i := 2;
      while i < 10
        invariant 2 <= i <= 10 && FreeEntries(Tables(), p, i) == FreeEntries(m, p, 2)
        invariant forall k | i <= k < ENTRIES && valid[p, k] :: 0 <= frame[p, k] < NFRAME
      {
        assert Tables().mem[p].pt[i] == Entry(frame[p, i], valid[p, i]);
        if valid[p, i] {
          FreeEntry(p, i);
        }
        i := i + 1;
      }
    }

    method DropMap(p: nat)
      requires Valid() && p < NPROC
      modifies diskMap
      ensures Tables() == old(Tables()).(diskMap := old(Tables()).diskMap[p := [-1, -1, -1, -1]])
    {
      ghost var m1 := Tables();
      diskMap[p, 0], diskMap[p, 1], diskMap[p, 2], diskMap[p, 3] := -1, -1, -1, -1;
      assert Tables().diskMap == m1.diskMap[p := [-1, -1, -1, -1]];
      assert Tables().mem == m1.mem;
    }

    /** Free page table (process_manager.spl:105-151) for a process without swapped pages. */
    method FreeTable(p: nat)
      requires Valid() && p < NPROC && forall i | 2 <= i < ENTRIES && valid[p, i] :: 0 <= frame[p, i] < NFRAME
      modifies this`free, count, st, frame, valid, diskMap
      ensures Tables() == FreePageTable(old(Tables()), p)
    {
      DropEntry(p, 0);
      DropEntry(p, 1);
      FreeLoop(p);
      DropMap(p);
    }

    // ---- get free page and get code page

    /** One turn of get free page: the page, or 128 and the process sleeps. */
    method AskPage() returns (f: nat)
      requires Valid() && free == Zeros(count[..])
      modifies this`free, count, st
      ensures f == Grant(old(Tables())) && Tables() == if f == NFRAME then Asleep(old(Tables())) else Taken(old(Tables()), f)
    {
      hide Zeros, FirstZero, Row;
      ghost var m := Tables();
      if free == 0 {
        st[cur] := WaitMem;
        f := NFRAME;
      } else {
        f := SearchPage();
      }
      assert forall q | 0 <= q < NPROC :: Row(q) == m.mem[q].pt;
      assert Tables().mem == m.mem && Tables().diskMap == m.diskMap;
    }

    /** Get code page, the search: the first process and entry that have block b in
        memory; 16 when there is none. */
    method FindPage(b: int) returns (r: nat, j: nat)
      requires Valid()
      ensures (r, j) == FindCode(Tables(), b, 0, 0) && (r < NPROC ==> diskMap[r, j] == b && valid[r, 4 + j])
    {
      hide Row;
      r := 0;
      while r < 16
        invariant 0 <= r <= 16 && FindCode(Tables(), b, r, 0) == FindCode(Tables(), b, 0, 0)
      {
        j := 0;
        while j < 4
          invariant 0 <= j <= 4 && FindCode(Tables(), b, r, j) == FindCode(Tables(), b, 0, 0)
        {
          assert HasCode(Tables(), r, j, b) <==> diskMap[r, j] == b && valid[r, 4 + j];
          if diskMap[r, j] == b && valid[r, 4 + j] {
            return;
          }
          j := j + 1;
        }
        r := r + 1;
      }
      j := 0;
    }

    method CountUp(f: nat)
      requires Valid() && f < NFRAME
      modifies count
      ensures var m := old(Tables()); Tables() == m.(count := m.count[f := m.count[f] + 1])
    {
      hide Row;
      ghost var m := Tables();
      count[f] := count[f] + 1;
      assert forall q | 0 <= q < NPROC :: Row(q) == m.mem[q].pt;
      assert Tables().mem == m.mem && Tables().diskMap == m.diskMap;
    }

    /** Get code page for a block that some process has in memory: its frame is shared. */
    method ShareCode(b: int) returns (g: int, r: nat, j: nat)
      requires Valid() && forall p, i | 0 <= p < NPROC && 4 <= i < 8 && valid[p, i] :: 0 <= frame[p, i] < NFRAME
      modifies count
      ensures (r, j) == FindCode(old(Tables()), b, 0, 0)
      ensures r < NPROC ==> diskMap[r, j] == b && valid[r, 4 + j] && g == frame[r, 4 + j]
      ensures var m := old(Tables()); Tables() == if r < NPROC then m.(count := m.count[g := m.count[g] + 1]) else m
    {
      hide Tables, FindCode;
      g := -1;
      r, j := FindPage(b);
      if r < NPROC {
        g := frame[r, 4 + j];
        CountUp(g);
      }
    }

    // ---- one step of the tables

    method PutEntry(p: nat, i: nat, f: int, v: bool)
      requires Valid() && p < NPROC && i < ENTRIES
      modifies frame, valid
      ensures Tables() == SetEntry(old(Tables()), p, i, Entry(f, v))
    {
      ghost var m2 := SetEntry(Tables(), p, i, Entry(f, v));
      frame[p, i] := f;
      valid[p, i] := v;
      assert forall q | 0 <= q < NPROC :: Row(q) == m2.mem[q].pt;
      assert Tables().mem == m2.mem && Tables().diskMap == m2.diskMap;
    }

    method PutArea(p: nat, f: int)
      requires Valid() && p < NPROC
      modifies area
      ensures var m := old(Tables()); Tables() == SetProc(m, p, m.mem[p].(area := f))
    {
      ghost var m2 := SetProc(Tables(), p, Tables().mem[p].(area := f));
      area[p] := f;
      assert forall q | 0 <= q < NPROC :: Row(q) == m2.mem[q].pt;
      assert Tables().mem == m2.mem && Tables().diskMap == m2.diskMap;
    }

    method PutHeld(f: int)
      requires Valid()
      modifies held
      ensures var m := old(Tables()); Tables() == SetProc(m, m.cur, m.mem[m.cur].(held := f))
    {
      ghost var m2 := SetProc(Tables(), cur, Tables().mem[cur].(held := f));
      held[cur] := f;
      assert forall q | 0 <= q < NPROC :: Row(q) == m2.mem[q].pt;
      assert Tables().mem == m2.mem && Tables().diskMap == m2.diskMap;
    }

    method PutMap(p: nat, row: seq<int>)
      requires Valid() && p < NPROC && |row| == 4
      modifies diskMap
      ensures var m := old(Tables()); Tables() == m.(diskMap := m.diskMap[p := row])
    {
      ghost var m := Tables();
      var i := 0;
      while i < 4
        invariant 0 <= i <= 4 && forall q, k | 0 <= q < NPROC && 0 <= k < 4 :: diskMap[q, k] == if q == p && k < i then row[k] else old(diskMap[q, k])
      {
        diskMap[p, i] := row[i];
        i := i + 1;
      }
      assert forall q | 0 <= q < NPROC :: Row(q) == m.mem[q].pt;
      assert Tables().mem == m.mem;
      forall q | 0 <= q < NPROC ensures Tables().diskMap[q] == m.diskMap[p := row][q] {
        assert m.diskMap[q] == old([diskMap[q, 0], diskMap[q, 1], diskMap[q, 2], diskMap[q, 3]]) && row == [row[0], row[1], row[2], row[3]];
      }
    }

    method PutState(p: nat, s: PState)
      requires Valid() && p < NPROC
      modifies st
      ensures var m := old(Tables()); Tables() == m.(st := m.st[p := s])
    {
      hide Row;
      st[p] := s;
      assert Tables().mem == old(Tables()).mem && Tables().diskMap == old(Tables()).diskMap;
    }

    method GoTo(l: Loc)
      requires Valid()
      modifies loc
      ensures Tables() == At(old(Tables()), l)
    {
      hide Row;
      loc[cur] := l;
      assert Tables().mem == old(Tables()).mem && Tables().diskMap == old(Tables()).diskMap;
    }

    method Wakes(w: PState, any: bool, x: int, from: nat)
      requires Valid() && w != Ready && from < NPROC
      modifies st
      ensures var m := old(Tables()); Tables() == m.(st := WokenFor(m, w, any, x, from))
    {
      hide Row;
      ghost var m := Tables();
      Wake(w, any, x, from);
      assert st[..] == WokenFor(m, w, any, x, from);
      assert forall q | 0 <= q < NPROC :: Row(q) == m.mem[q].pt;
      assert Tables().mem == m.mem && Tables().diskMap == m.diskMap;
    }

    method Releases(f: nat)
      requires Valid() && f < NFRAME
      modifies this`free, count, st
      ensures Tables() == Release(old(Tables()), f)
    {
      hide Row;
      ghost var m := Tables();
      ReleasePage(f);
      assert st[..] == Release(m, f).st;
      assert forall q | 0 <= q < NPROC :: Row(q) == m.mem[q].pt;
      assert Tables().mem == m.mem && Tables().diskMap == m.diskMap;
    }

    // ---- the system calls

    /** Get free pcb entry, and where fork goes from there (int_8.spl:12-39). */
    method BeginFork()
      requires Valid()
      modifies st, loc
      ensures Tables() == StartFork(old(Tables()))
    {
      hide Row;
      var c := 1;
      while c < 16
        invariant 1 <= c <= 16 && st[..] == old(st[..]) && loc[..] == old(loc[..]) && FirstTerminated(st[..], c) == FirstTerminated(st[..], 1)
      {
        if st[c] == Terminated {
          PutState(c, Allocated);
          GoTo(if valid[cur, 2] then ForkArea(c) else ForkHeap1(c));
          return;
        }
        c := c + 1;
      }
      Unchanged();
    }

    twostate lemma Unchanged()
      requires old(Valid()) && Valid() && cur == old(cur) && free == old(free) && unchanged(frame, valid, area, held, diskMap, count, wait)
      requires st[..] == old(st[..]) && loc[..] == old(loc[..])
      ensures Tables() == old(Tables())
    {
      assert forall q | 0 <= q < NPROC :: Row(q) == old(Row(q));
      assert Tables().mem == old(Tables()).mem && Tables().diskMap == old(Tables()).diskMap;
    }

    /** The copy of the first eight page table entries, on the tables. */
    method CopyPages(c: nat)
      requires Valid() && c < NPROC && c != cur && forall i | 0 <= i < 8 :: -1 <= frame[cur, i] < NFRAME
      modifies this`before, count, frame, valid
      ensures Tables() == ChildCopied(old(Tables()), c)
    {
      ghost var m := Tables();
      CopyTable(cur, c);
      forall q | 0 <= q < NPROC ensures Row(q) == ChildCopied(m, c).mem[q].pt {
        assert m.mem[q].pt == old(Row(q)) && m.mem[cur].pt == old(Row(cur));
      }
      assert Tables().mem == ChildCopied(m, c).mem && Tables().diskMap == m.diskMap;
    }

    /** Fork with the child's user area page f (int_8.spl:46-103). */
    method FillChild(c: nat, f: nat)
      requires Valid() && c < NPROC && c != cur && f < NFRAME && forall i | 0 <= i < 8 :: -1 <= frame[cur, i] < NFRAME
      modifies this`before, count, frame, valid, area, diskMap
      ensures Tables() == ForkCopied(old(Tables()), c, f)
    {
      ghost var m := Tables();
      var row := [diskMap[cur, 0], diskMap[cur, 1], diskMap[cur, 2], diskMap[cur, 3]];
      assert row == m.diskMap[cur];
      PutArea(c, f);
      PutMap(c, row);
      CopyPages(c);
      ChildFilled(m, c, f);
    }

    method FreeUserArea()
      requires Valid() && area[cur] < NFRAME
      modifies this`free, count, st, area
      ensures Tables() == FreeArea(old(Tables()), cur)
    {
      var a := area[cur];
      assert a == Tables().mem[cur].area;
      if a >= 0 {
        Releases(a);
        PutArea(cur, -1);
      }
    }

    /** Exit process for the running process (process_manager.spl:65-103). */
    method ExitSelf(exec: bool)
      requires Valid() && area[cur] < NFRAME && forall i | 2 <= i < ENTRIES && valid[cur, i] :: 0 <= frame[cur, i] < NFRAME
      modifies this`free, count, st, frame, valid, diskMap, area
      ensures Tables() == ExitProcess(old(Tables()), cur, exec)
    {
      hide Tables, FreePageTable, FreeArea, Release, WokenFor;
      FreeTable(cur);
      CurIs();
      FreeUserArea();
      CurIs();
      PutState(cur, Terminated);
      if !exec {
        Wakes(WaitProcess, false, cur, 0);
      }
    }

    lemma CurIs()
      requires Valid()
      ensures cur == Tables().cur && free == Tables().free && count[..] == Tables().count && loc[cur] == Tables().loc[cur] && area[cur] == Tables().mem[cur].area
    {
    }

    /** Exec up to the page for the stack (int_9.spl:41-95). */
    method BeginExec(b: int)
      requires Valid() && 0 <= area[cur] < NFRAME && forall i | 2 <= i < ENTRIES && valid[cur, i] :: 0 <= frame[cur, i] < NFRAME
      modifies this`free, count, st, frame, valid, diskMap, area, loc
      ensures Tables() == StartExec(old(Tables()), b)
    {
      hide Tables, ExitProcess, StartExec, SetEntry, SetProc, At;
      ghost var m := Tables();
      CurIs();
      var a := area[cur];
      ExitSelf(true);
      ExecReclaims(m, a, b);
      TakeBack(a);
      CurIs();
      PutState(cur, Running);
      PutArea(cur, a);
      PutEntry(cur, 0, LIB0, true);
      PutEntry(cur, 1, LIB1, true);
      GoTo(ExecStack1(b));
    }

    method TakeBack(a: nat)
      requires Valid() && a < NFRAME
      modifies this`free, count
      ensures var m := old(Tables()); Tables() == m.(free := m.free - 1, count := m.count[a := m.count[a] + 1])
    {
      hide Row;
      ghost var m := Tables();
      free := free - 1;
      count[a] := count[a] + 1;
      assert forall q | 0 <= q < NPROC :: Row(q) == m.mem[q].pt;
      assert Tables().mem == m.mem && Tables().diskMap == m.diskMap;
    }

    /** Exec with the code page f (int_9.spl:111-137). */
    method FinishExec(b: int, f: int, rest: seq<int>)
      requires Valid() && |rest| == 3
      modifies frame, valid, diskMap, held, loc
      ensures Tables() == EndExec(old(Tables()), b, f, rest)
    {
      hide Tables;
      CurIs();
      PutEntry(cur, 4, f, true);
      CurIs();
      PutMap(cur, [b] + rest);
      CurIs();
      PutHeld(-1);
      GoTo(User);
    }

    // ---- any step

    /** A page for entry i of process p, or sleep. */
    method GetPage(p: nat, i: nat, v: bool, next: Loc)
      requires Valid() && free == Zeros(count[..]) && p < NPROC && i < ENTRIES
      modifies this`free, count, st, frame, valid, loc
      ensures var m := old(Tables()); var f := Grant(m);
              Tables() == if f == NFRAME then Asleep(m) else At(SetEntry(Taken(m, f), p, i, Entry(f, v)), next)
    {
      hide Tables, Grant, SetEntry, Taken, At, Asleep;
      var f := AskPage();
      if f < NFRAME {
        PutEntry(p, i, f, v);
        GoTo(next);
      }
    }

    method GetArea(c: nat)
      requires Valid() && free == Zeros(count[..]) && c < NPROC && c != cur && forall i | 0 <= i < 8 :: -1 <= frame[cur, i] < NFRAME
      modifies this`free, this`before, count, st, frame, valid, area, diskMap, loc
      ensures var m := old(Tables()); var f := Grant(m);
              Tables() == if f == NFRAME then Asleep(m) else At(ForkCopied(Taken(m, f), c, f), ForkStack1(c))
    {
      hide Tables, Grant, ForkCopied, Taken, At, Asleep;
      var f := AskPage();
      if f < NFRAME {
        FillChild(c, f);
        GoTo(ForkStack1(c));
      }
    }

    /** The child's second stack page; with it the child is created. */
    method GetLastPage(c: nat, v: bool)
      requires Valid() && free == Zeros(count[..]) && c < NPROC
      modifies this`free, count, st, frame, valid, loc
      ensures var m := old(Tables()); var f := Grant(m);
              Tables() == if f == NFRAME then Asleep(m)
                          else var m1 := SetEntry(Taken(m, f), c, 9, Entry(f, v)); At(m1.(st := m1.st[c := Created]), User)
    {
      hide Tables, Grant, SetEntry, Taken, At, Asleep;
      var f := AskPage();
      if f < NFRAME {
        PutEntry(c, 9, f, v);
        PutState(c, Created);
        GoTo(User);
      }
    }

    /** A page for code that no process has, and the load from the disk. */
    method GetCodePage(b: int)
      requires Valid() && free == Zeros(count[..])
      modifies this`free, count, st, held, loc
      ensures var m := old(Tables()); var f := Grant(m);
              Tables() == if f == NFRAME then Asleep(m)
                          else At(SetProc(Taken(m, f), m.cur, m.mem[m.cur].(held := f)).(st := m.st[m.cur := WaitDisk]), ExecLoad(b))
    {
      hide Tables, Grant, At, Asleep;
      CurIs();
      var f := AskPage();
      CurIs();
      if f < NFRAME {
        PutHeld(f);
        PutState(cur, WaitDisk);
        GoTo(ExecLoad(b));
      }
    }

    /** Get code page of exec: shared, or to be loaded. */
    method FindOrLoad(b: int, rest: seq<int>)
      requires Valid() && |rest| == 3 && forall p, i | 0 <= p < NPROC && 4 <= i < 8 && valid[p, i] :: 0 <= frame[p, i] < NFRAME
      modifies count, frame, valid, diskMap, held, loc
      ensures var m := old(Tables()); var (r, j) := FindCode(m, b, 0, 0);
              Tables() == if r == NPROC then At(m, ExecPage(b))
                          else var g := m.mem[r].pt[4 + j].frame;
                               if 0 <= g < NFRAME then EndExec(m.(count := m.count[g := m.count[g] + 1]), b, g, rest) else m
    {
      hide Tables, FindCode, EndExec, At;
      EntriesAre();
      var g, r, j := ShareCode(b);
      if r < NPROC {
        FinishExec(b, g, rest);
      } else {
        GoTo(ExecPage(b));
      }
    }

    lemma EntriesAre()
      requires Valid()
      ensures forall p, i | 0 <= p < NPROC && 0 <= i < ENTRIES :: Tables().mem[p].pt[i] == Entry(frame[p, i], valid[p, i])
      ensures forall p | 0 <= p < NPROC :: Tables().mem[p].held == held[p] && Tables().mem[p].area == area[p]
    {
    }

    /** One turn of the running process is one turn of the transition system. */
    method Turn(rest: seq<int>)
      requires Valid() && Inv(Tables()) && Enabled(Tables(), Event.Turn(rest))
      modifies this`free, this`before, count, st, frame, valid, area, diskMap, held, loc
      ensures Tables() == Turned(old(Tables()), rest)
    {
      hide Tables, Inv, FindCode, EndExec, Grant, SetEntry, SetProc, Taken, At, Asleep, ForkCopied, FirstZero;
      CurIs();
      EntriesAre();
      EntriesInRange(Tables());
      match loc[cur] {
        case ForkHeap1(c) => GetPage(cur, 2, true, ForkHeap2(c));
        case ForkHeap2(c) => GetPage(cur, 3, true, ForkArea(c));
        case ForkArea(c) => GetArea(c);
        case ForkStack1(c) => GetPage(c, 8, valid[cur, 8], ForkStack2(c));
        case ForkStack2(c) => GetLastPage(c, valid[cur, 9]);
        case ExecStack1(b) => GetPage(cur, 8, true, ExecStack2(b));
        case ExecStack2(b) => GetPage(cur, 9, true, ExecCode(b));
        case ExecCode(b) => FindOrLoad(b, rest);
        case ExecPage(b) => GetCodePage(b);
        case ExecLoad(b) => FinishExec(b, held[cur], rest);
        case Waits => GoTo(User);
      }
    }

    method WaitProcessCall(q: nat)
      requires Valid()
      modifies st, wait, loc
      ensures var m := old(Tables()); Tables() == At(m.(st := m.st[m.cur := WaitProcess], wait := m.wait[m.cur := q]), Waits)
    {
      hide Row;
      ghost var m := Tables();
      st[cur] := WaitProcess;
      wait[cur] := q;
      loc[cur] := Waits;
      assert forall p | 0 <= p < NPROC :: Row(p) == m.mem[p].pt;
      assert Tables().mem == m.mem && Tables().diskMap == m.diskMap;
    }

    method TakeUp(q: nat)
      requires Valid() && q < NPROC
      modifies this`cur, st
      ensures Valid() && var m := old(Tables()); Tables() == m.(st := m.st[q := Running], cur := q)
    {
      hide Row;
      ghost var m := Tables();
      st[q] := Running;
      cur := q;
      assert forall p | 0 <= p < NPROC :: Row(p) == m.mem[p].pt;
      assert Tables().mem == m.mem && Tables().diskMap == m.diskMap;
    }

    /** Every event on the tables in place. */
    method Do(e: Event)
      requires Valid() && Inv(Tables()) && Enabled(Tables(), e)
      modifies this`free, this`before, this`cur, count, st, wait, frame, valid, area, diskMap, held, loc
      ensures Valid() && Tables() == After(old(Tables()), e)
    {
      hide Tables, Inv, Turned, StartFork, StartExec, ExitProcess, WokenFor, At;
      CurIs();
      EntriesAre();
      EntriesInRange(Tables());
      match e {
        case Fork => BeginFork();
        case Exec(b) => BeginExec(b);
        case Exit => ExitSelf(false);
        case WaitFor(q) => WaitProcessCall(q);
        case Signal => Wakes(WaitProcess, false, cur, 0);
        case Turn(rest) => Turn(rest);
        case Preempt => PutState(cur, Ready);
        case Dispatch(q) => TakeUp(q);
        case DiskDone => Wakes(WaitDisk, true, 0, 1);
      }
    }

    ghost function Row(p: nat): (r: seq<Entry>)
      requires Valid() && p < NPROC
      reads this, frame, valid
      ensures |r| == ENTRIES && forall i | 0 <= i < ENTRIES :: r[i] == Entry(frame[p, i], valid[p, i])
    {
      seq(ENTRIES, i requires 0 <= i < ENTRIES && Valid() && p < NPROC reads this, frame, valid => Entry(frame[p, i], valid[p, i]))
    }
  }

  /** What the code asks of the tables, which the invariant has. */
  lemma EntriesInRange(m: M)
    requires Inv(m)
    ensures m.free == Zeros(m.count)
    ensures forall p, i | 0 <= p < NPROC && 0 <= i < ENTRIES :: -1 <= m.mem[p].pt[i].frame < NFRAME
    ensures forall p, i | 0 <= p < NPROC && 0 <= i < ENTRIES && m.mem[p].pt[i].valid :: 0 <= m.mem[p].pt[i].frame
    ensures forall p | 0 <= p < NPROC :: m.mem[p].area < NFRAME && m.mem[p].held < NFRAME
    ensures m.st[m.cur] == Running && m.loc[m.cur] == User ==> m.mem[m.cur].area >= 0
    ensures var c := ChildOf(m.loc[m.cur]); c >= 0 && m.st[m.cur] == Running ==> c < NPROC && c != m.cur
  {
    hide Zeros, FrameOk, AreaOk;
    forall p | 0 <= p < NPROC ensures ProcSound(m.mem[p]) { assert ProcOk(m, p); }
    assert ProcOk(m, m.cur);
  }

  /** The child has the parent's first eight entries, each counted once more. */
  function ChildCopied(m: M, c: nat): (r: M)
    requires Sized(m) && c < NPROC
    ensures Sized(r)
  {
    var parent := m.mem[m.cur].pt;
    m.(count := CopyCounts(m.count, parent, 8), mem := m.mem[c := m.mem[c].(pt := parent[..8] + m.mem[c].pt[8..])])
  }

  lemma ChildFilled(m: M, c: nat, f: nat)
    requires Sized(m) && c < NPROC && c != m.cur && f < NFRAME
    ensures var m1 := SetProc(m, c, m.mem[c].(area := f));
            ChildCopied(m1.(diskMap := m1.diskMap[c := m.diskMap[m.cur]]), c) == ForkCopied(m, c, f)
  {
  }

  lemma ExecReclaims(m: M, a: nat, b: int)
    requires Sized(m) && a == m.mem[m.cur].area && a < NFRAME
    ensures var p := m.cur;
            var m1 := ExitProcess(m, p, true);
            m1.cur == p
            && var m2 := m1.(free := m1.free - 1, count := m1.count[a := m1.count[a] + 1]);
               var m3 := m2.(st := m2.st[p := Running]);
               var m4 := SetProc(m3, p, m3.mem[p].(area := a));
               At(SetEntry(SetEntry(m4, p, 0, Entry(LIB0, true)), p, 1, Entry(LIB1, true)), ExecStack1(b)) == StartExec(m, b)
  {
    hide FreePageTable, FreeArea;
    ExitIsCur(m, m.cur);
  }

  lemma ExitIsCur(m: M, p: nat)
    requires Sized(m) && p < NPROC
    ensures ExitProcess(m, p, true).cur == m.cur
  {
    EntriesKeepCur(SetEntry(SetEntry(m, p, 0, None), p, 1, None), p, 2);
  }

  lemma {:induction false} EntriesKeepCur(m: M, p: nat, i: nat)
    requires Sized(m) && p < NPROC && 2 <= i <= ENTRIES
    ensures FreeEntries(m, p, i).cur == m.cur
    decreases ENTRIES - i
  {
    if i < ENTRIES {
      var e := m.mem[p].pt[i];
      if e.valid && 0 <= e.frame < NFRAME {
        EntriesKeepCur(SetEntry(Release(m, e.frame), p, i, None), p, i + 1);
      } else {
        EntriesKeepCur(m, p, i + 1);
      }
    }
  }

  lemma ZerosFound(count: seq<int>)
    requires |count| == NFRAME && Zeros(count) != 0
    ensures FirstZero(count, 0) < NFRAME
  {
    if FirstZero(count, 0) == NFRAME {
      NoZeros(count);
    }
  }
}
