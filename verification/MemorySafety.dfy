/** Every step of the memory kernel keeps the page counts exact. */
module MemorySafety {
  import opened MemoryKernel

  // ---- sums

  lemma {:induction false} NamedUpdate(pt: seq<Entry>, i: nat, e: Entry, n: nat, f: int)
    requires i < |pt| && n <= |pt|
    ensures Named(pt[i := e], n, f) ==
      Named(pt, n, f) + (if i < n then 0 else (if e.valid && e.frame == f then 1 else 0) - (if pt[i].valid && pt[i].frame == f then 1 else 0))
    decreases |pt| - n
  {
    if n < |pt| {
      NamedUpdate(pt, i, e, n + 1, f);
    }
  }

  ghost predicate Tabled(mem: seq<Proc>) {
    forall q | q in mem :: |q.pt| == ENTRIES
  }

  lemma {:induction false} UsesUpdate(mem: seq<Proc>, p: nat, q: Proc, f: int)
    requires Tabled(mem) && p < |mem| && |q.pt| == ENTRIES
    ensures Tabled(mem[p := q]) && Uses(mem[p := q], f) == Uses(mem, f) - UsesOf(mem[p], f) + UsesOf(q, f)
    ensures UsesOf(mem[p], f) <= Uses(mem, f)
    decreases |mem|
  {
    hide UsesOf;
    var k := |mem| - 1;
    if p == k {
      assert mem[p := q][..k] == mem[..k];
    } else {
      assert mem[p := q][..k] == mem[..k][p := q];
      UsesUpdate(mem[..k], p, q, f);
    }
  }

  /** Two processes that use the frame use it together. */
  lemma {:induction false} UsesTwo(mem: seq<Proc>, p: nat, q: nat, f: int)
    requires Tabled(mem) && p < |mem| && q < |mem| && p != q
    ensures UsesOf(mem[p], f) + UsesOf(mem[q], f) <= Uses(mem, f)
    decreases |mem|
  {
    hide UsesOf;
    var k := |mem| - 1;
    if p == k {
      UsesUpdate(mem[..k], q, mem[q], f);
    } else if q == k {
      UsesUpdate(mem[..k], p, mem[p], f);
    } else {
      UsesTwo(mem[..k], p, q, f);
    }
  }

  lemma {:induction false} ZerosUpdate(count: seq<int>, f: nat, c: int)
    requires f < |count|
    ensures Zeros(count[f := c]) == Zeros(count) - (if count[f] == 0 then 1 else 0) + (if c == 0 then 1 else 0)
    decreases |count|
  {
    var k := |count| - 1;
    if f == k {
      assert count[f := c][..k] == count[..k];
    } else {
      assert count[f := c][..k] == count[..k][f := c];
      ZerosUpdate(count[..k], f, c);
    }
  }

  lemma {:induction false} NoZeros(count: seq<int>)
    requires forall f | 0 <= f < |count| :: count[f] != 0
    ensures Zeros(count) == 0
    decreases |count|
  {
    if count != [] {
      NoZeros(count[..|count| - 1]);
    }
  }

  /** A search that starts when the free count is not zero finds a page. */
  lemma SearchFinds(m: M)
    requires Sized(m) && CountsOk(m)
    ensures m.free != 0 <==> FirstZero(m.count, 0) < NFRAME
    ensures m.free >= 0
  {
    hide FrameOk;
    if FirstZero(m.count, 0) == NFRAME {
      NoZeros(m.count);
    } else {
      ZerosUpdate(m.count, FirstZero(m.count, 0), 1);
    }
  }

  // ---- the part of the invariant that speaks of pages

  ghost function Base(m: M): (r: bool)
    ensures r ==> Sized(m)
  {
    Sized(m) && CountsOk(m) && forall p | 0 <= p < NPROC :: ProcSound(m.mem[p]) && AreaOk(m, p)
  }

  lemma InvIsBase(m: M)
    requires Inv(m)
    ensures Base(m)
  {
    hide CountsOk, ProcSound, AreaOk, StateOk, PagesOk, ChildOk;
    forall p | 0 <= p < NPROC ensures ProcSound(m.mem[p]) && AreaOk(m, p) { assert ProcOk(m, p); }
  }

  /** Frame f gains d uses by process p and its count changes with them. */
  lemma CountsFollow(m: M, m2: M, p: nat, q: Proc, f: nat, d: int)
    requires Sized(m) && CountsOk(m) && p < NPROC && f < NFRAME && |q.pt| == ENTRIES && !IsLib(f)
    requires forall g :: UsesOf(q, g) == UsesOf(m.mem[p], g) + (if g == f then d else 0)
    requires Sized(m2) && m2.mem == m.mem[p := q] && m2.count == m.count[f := m.count[f] + d]
    requires m2.free == m.free - (if m.count[f] == 0 then 1 else 0) + (if m.count[f] + d == 0 then 1 else 0)
    ensures CountsOk(m2)
  {
    hide UsesOf, Uses, Zeros;
    forall g | 0 <= g < NFRAME ensures FrameOk(m2, g) {
      assert FrameOk(m, g);
      UsesUpdate(m.mem, p, q, g);
    }
    ZerosUpdate(m.count, f, m.count[f] + d);
  }

  /** A frame that process p uses other than as its user area is nobody's user area. */
  lemma NotAnArea(m: M, p: nat, f: nat, r: nat)
    requires Base(m) && p < NPROC && r < NPROC && f < NFRAME && UsesOf(m.mem[p], f) >= (if r == p && m.mem[p].area == f then 2 else 1)
    requires !IsLib(f) && (r == p ==> m.mem[p].area != f || UsesOf(m.mem[p], f) >= 2)
    ensures m.mem[r].area != f
  {
    hide ProcSound;
    assert FrameOk(m, f) && AreaOk(m, r);
    if m.mem[r].area == f {
      if r == p {
        UsesUpdate(m.mem, p, m.mem[p], f);
      } else {
        UsesTwo(m.mem, p, r, f);
      }
    }
  }

  /** What a step owes a process that does not take it. */
  ghost predicate Calm(m: M, m2: M, p: nat)
    requires Sized(m) && Sized(m2) && p < NPROC
  {
    && m2.mem[p] == m.mem[p] && m2.loc[p] == m.loc[p] && m2.wait[p] == m.wait[p]
    && (m2.st[p] == m.st[p] || (m.st[p] in {WaitMem, WaitProcess, WaitDisk} && m2.st[p] == Ready))
    && (m2.st[p] == WaitMem && m.free == 0 ==> m2.free == 0)
    && (m2.st[p] == WaitProcess && 0 <= m.wait[p] < NPROC && m.st[m.wait[p]] != Terminated ==> m2.st[m.wait[p]] != Terminated)
    && (0 <= ChildOf(m.loc[p]) < NPROC ==> (m.st[ChildOf(m.loc[p])] == Allocated ==> m2.st[ChildOf(m.loc[p])] == Allocated) && m2.mem[ChildOf(m.loc[p])] == m.mem[ChildOf(m.loc[p])])
    && (0 <= m.mem[p].area < NFRAME ==> m2.count[m.mem[p].area] == m.count[m.mem[p].area])
  }

  lemma Bystander(m: M, m2: M, p: nat)
    requires Sized(m) && Sized(m2) && p < NPROC && ProcOk(m, p) && Calm(m, m2, p) && m.st[p] != Running
    ensures ProcOk(m2, p)
  {
  }

  /** A release by process p of frame f, which its memory no longer names. */
  lemma Releases(m: M, p: nat, q: Proc, f: nat)
    requires Base(m) && p < NPROC && f < NFRAME && !IsLib(f) && ProcSound(q) && UsesOf(m.mem[p], f) >= 1
    requires forall g :: UsesOf(q, g) == UsesOf(m.mem[p], g) - (if g == f then 1 else 0)
    requires q.area == m.mem[p].area || q.area == -1
    requires q.area == f ==> UsesOf(m.mem[p], f) >= 2
    requires m.st[0] != WaitMem
    ensures Base(SetProc(Release(m, f), p, q))
    ensures forall r | 0 <= r < NPROC && r != p && ChildOf(m.loc[r]) != p && m.st[r] != Running :: Calm(m, SetProc(Release(m, f), p, q), r)
  {
    hide UsesOf, CountsOk;
    var m2 := SetProc(Release(m, f), p, q);
    CountAtLeast(m, p, f);
    assert CountsOk(m2) by { CountsFollow(m, m2, p, q, f, -1); }
    forall r | 0 <= r < NPROC ensures AreaOk(m2, r) {
      assert AreaOk(m, r);
      if m2.mem[r].area == f { NotAnArea(m, p, f, r); }
    }
    forall r | 0 <= r < NPROC && r != p && ChildOf(m.loc[r]) != p && m.st[r] != Running ensures Calm(m, m2, r) {
      assert AreaOk(m, r);
      if m.mem[r].area == f { NotAnArea(m, p, f, r); }
    }
  }

  lemma CountAtLeast(m: M, p: nat, f: nat)
    requires Base(m) && p < NPROC && f < NFRAME && !IsLib(f)
    ensures m.count[f] >= UsesOf(m.mem[p], f)
  {
    hide UsesOf, ProcSound;
    assert FrameOk(m, f);
    UsesUpdate(m.mem, p, m.mem[p], f);
  }

  lemma CalmTwice(m: M, m1: M, m2: M, r: nat)
    requires Sized(m) && Sized(m1) && Sized(m2) && r < NPROC && Calm(m, m1, r) && Calm(m1, m2, r)
    ensures Calm(m, m2, r)
  {
  }

  ghost predicate Others(m: M, m2: M, p: nat)
    requires Sized(m) && Sized(m2)
  {
    forall r | 0 <= r < NPROC && r != p && ChildOf(m.loc[r]) != p && m.st[r] != Running :: Calm(m, m2, r)
  }

  lemma OthersTwice(m: M, m1: M, m2: M, p: nat)
    requires Sized(m) && Sized(m1) && Sized(m2) && Others(m, m1, p) && Others(m1, m2, p)
    ensures Others(m, m2, p)
  {
    forall r | 0 <= r < NPROC && r != p && ChildOf(m.loc[r]) != p && m.st[r] != Running ensures Calm(m, m2, r) {
      assert Calm(m, m1, r);
      CalmTwice(m, m1, m2, r);
    }
  }

  // ---- exit

  /** The loop of free page table. */
  lemma {:induction false} FreesEntries(m: M, p: nat, i: nat)
    requires Base(m) && p < NPROC && 2 <= i <= ENTRIES && m.st[0] != WaitMem && m.st[p] == Running
    ensures var m2 := FreeEntries(m, p, i);
      && Base(m2) && Others(m, m2, p) && m2.st[0] != WaitMem && m2.st[p] == Running
      && m2.loc == m.loc && m2.wait == m.wait && m2.cur == m.cur && m2.diskMap == m.diskMap
      && m2.mem[p].area == m.mem[p].area && m2.mem[p].held == m.mem[p].held
      && forall j | 0 <= j < ENTRIES :: m2.mem[p].pt[j] == if j >= i then None else m.mem[p].pt[j]
    decreases ENTRIES - i
  {
    hide Base, Calm, UsesOf;
    if i < ENTRIES {
      var e := m.mem[p].pt[i];
      assert EntryOk(e, i) by { SoundEntry(m, p, i); }
      if e.valid {
        var q := m.mem[p].(pt := m.mem[p].pt[i := None]);
        FreesEntry(m, p, i);
        var m1 := SetProc(Release(m, e.frame), p, q);
        FreesEntries(m1, p, i + 1);
        OthersTwice(m, m1, FreeEntries(m1, p, i + 1), p);
      } else {
        FreesEntries(m, p, i + 1);
      }
    } else {
      forall r | 0 <= r < NPROC && r != p && ChildOf(m.loc[r]) != p && m.st[r] != Running ensures Calm(m, m, r) {
        CalmSelf(m, r);
      }
    }
  }

  lemma CalmSelf(m: M, r: nat)
    requires Sized(m) && r < NPROC
    ensures Calm(m, m, r)
  {
  }

  lemma SoundEntry(m: M, p: nat, i: nat)
    requires Base(m) && p < NPROC && i < ENTRIES
    ensures EntryOk(m.mem[p].pt[i], i)
  {
  }

  lemma FreesEntry(m: M, p: nat, i: nat)
    requires Base(m) && p < NPROC && 2 <= i < ENTRIES && m.mem[p].pt[i].valid && m.st[0] != WaitMem && m.st[p] == Running
    requires EntryOk(m.mem[p].pt[i], i)
    ensures var m1 := SetProc(Release(m, m.mem[p].pt[i].frame), p, m.mem[p].(pt := m.mem[p].pt[i := None]));
            Base(m1) && Others(m, m1, p) && m1.st[0] != WaitMem && m1.st[p] == Running
  {
    hide CountsOk, Calm;
    var f := m.mem[p].pt[i].frame;
    var q := m.mem[p].(pt := m.mem[p].pt[i := None]);
    assert ProcSound(m.mem[p]);
    forall g ensures UsesOf(q, g) == UsesOf(m.mem[p], g) - (if g == f then 1 else 0) {
      NamedUpdate(m.mem[p].pt, i, None, 2, g);
    }
    Releases(m, p, q, f);
  }

  /** Everything but the state of the process: its page table, map and user area are
      given up, and whoever waited for memory got its chance. */
  lemma Empties(m: M, p: nat)
    requires Base(m) && p < NPROC && m.st[0] != WaitMem && m.st[p] == Running && m.mem[p].held == -1 && m.mem[p].area >= 0
    ensures var m2 := FreeArea(FreePageTable(m, p), p);
      && Base(m2) && Others(m, m2, p) && m2.st[p] == Running && m2.loc == m.loc && m2.wait == m.wait && m2.cur == m.cur
      && Empty(m2.mem[p]) && m2.count[m.mem[p].area] == 0 && forall r | 1 <= r < NPROC :: m2.st[r] != WaitMem
  {
    hide CountsOk, Calm, EntryOk, UsesOf;
    var m0 := SetEntry(SetEntry(m, p, 0, None), p, 1, None);
    DropsLibrary(m, p);
    FreesEntries(m0, p, 2);
    var m1 := FreePageTable(m, p);
    var m1' := FreeEntries(m0, p, 2);
    RemapsOnly(m1', m1, p);
    OthersTwice(m, m0, m1', p);
    OthersTwice(m, m1', m1, p);
    var a := m.mem[p].area;
    assert ProcSound(m1.mem[p]) && AreaOk(m1, p);
    DropsArea(m1, p);
    OthersTwice(m, m1, FreeArea(m1, p), p);
  }

  lemma DropsLibrary(m: M, p: nat)
    requires Base(m) && p < NPROC
    ensures var m0 := SetEntry(SetEntry(m, p, 0, None), p, 1, None); Base(m0) && Others(m, m0, p)
  {
    hide Uses, Zeros;
    var m0 := SetEntry(SetEntry(m, p, 0, None), p, 1, None);
    assert ProcSound(m.mem[p]);
    var q := m0.mem[p];
    assert m0.mem == m.mem[p := q];
    forall g | 0 <= g < NFRAME ensures FrameOk(m0, g) {
      assert FrameOk(m, g);
      NamedUpdate(m.mem[p].pt, 0, None, 2, g);
      NamedUpdate(m.mem[p].pt[0 := None], 1, None, 2, g);
      UsesUpdate(m.mem, p, q, g);
    }
    forall r | 0 <= r < NPROC ensures AreaOk(m0, r) { assert AreaOk(m, r); }
  }

  lemma RemapsOnly(m: M, m1: M, p: nat)
    requires Base(m) && Sized(m1) && m1 == m.(diskMap := m1.diskMap)
    ensures Base(m1) && Others(m, m1, p)
  {
    hide UsesOf, Uses, ProcSound;
    forall g | 0 <= g < NFRAME ensures FrameOk(m1, g) { assert FrameOk(m, g); }
    forall r | 0 <= r < NPROC ensures ProcSound(m1.mem[r]) && AreaOk(m1, r) { assert AreaOk(m, r); }
  }

  lemma DropsArea(m: M, p: nat)
    requires Base(m) && p < NPROC && m.mem[p].area >= 0 && m.mem[p].held == -1 && m.st[0] != WaitMem && m.st[p] == Running
    ensures var m2 := FreeArea(m, p);
      && Base(m2) && Others(m, m2, p) && m2.st[p] == Running && m2.loc == m.loc && m2.wait == m.wait && m2.cur == m.cur
      && m2.mem[p] == m.mem[p].(area := -1) && m2.count[m.mem[p].area] == 0 && forall r | 1 <= r < NPROC :: m2.st[r] != WaitMem
  {
    hide CountsOk, Calm;
    var q := m.mem[p].(area := -1);
    assert ProcSound(m.mem[p]) && AreaOk(m, p);
    forall g ensures UsesOf(q, g) == UsesOf(m.mem[p], g) - (if g == m.mem[p].area then 1 else 0) {
    }
    Releases(m, p, q, m.mem[p].area);
  }

  /** No fork has the running process for its child. */
  lemma NobodysChild(m: M)
    requires Inv(m) && m.st[m.cur] == Running
    ensures m.st[0] in {Ready, Running} && forall r | 0 <= r < NPROC :: ChildOf(m.loc[r]) != m.cur
    ensures forall r | 0 <= r < NPROC && r != m.cur :: m.st[r] != Running
  {
    hide ProcSound, AreaOk, PagesOk, CountsOk;
    assert ProcOk(m, 0);
    forall r | 0 <= r < NPROC ensures ChildOf(m.loc[r]) != m.cur && (r != m.cur ==> m.st[r] != Running) { assert ProcOk(m, r); }
  }

  lemma StepExit(m: M)
    requires Inv(m) && Enabled(m, Exit)
    ensures Inv(After(m, Exit))
  {
    hide CountsOk, ProcSound, AreaOk, FreeArea, FreePageTable, ChildOf, PagesOk, ChildOk;
    var p := m.cur;
    var m1 := FreeArea(FreePageTable(m, p), p);
    var m2 := After(m, Exit);
    InvIsBase(m);
    NobodysChild(m);
    AtUserHasPages(m);
    Empties(m, p);
    forall r | 0 <= r < NPROC ensures ProcOk(m2, r) {
      assert ProcOk(m, r);
      if r != p {
        assert Calm(m, m1, r);
        Bystander(m, m2, r);
      } else {
        Ended(m1, m2, p);
      }
    }
    SameCounts(m1, m2);
  }

  lemma AtUserHasPages(m: M)
    requires Inv(m) && InUserMode(m)
    ensures m.mem[m.cur].held == -1 && m.mem[m.cur].area >= 0
  {
    assert ProcOk(m, m.cur);
  }

  lemma SameCounts(m1: M, m2: M)
    requires Sized(m1) && Sized(m2) && CountsOk(m1) && m2.count == m1.count && m2.mem == m1.mem && m2.free == m1.free
    ensures CountsOk(m2)
  {
    forall g | 0 <= g < NFRAME ensures FrameOk(m2, g) { assert FrameOk(m1, g); }
  }

  lemma Ended(m1: M, m2: M, p: nat)
    requires Sized(m1) && Sized(m2) && 1 <= p < NPROC && Empty(m1.mem[p]) && m2.mem == m1.mem && m2.loc[p] == User && m2.st[p] == Terminated
    ensures ProcOk(m2, p)
  {
  }

  // ---- exec

  lemma StepExec(m: M, b: int)
    requires Inv(m) && Enabled(m, Exec(b))
    ensures Inv(After(m, Exec(b)))
  {
    hide CountsOk, ProcSound, AreaOk, FreeArea, FreePageTable, ChildOf, PagesOk, ChildOk, Calm;
    var p := m.cur;
    var a := m.mem[p].area;
    var m1 := FreeArea(FreePageTable(m, p), p);
    var m2 := After(m, Exec(b));
    InvIsBase(m);
    NobodysChild(m);
    AtUserHasPages(m);
    assert PageOk(a) by { SoundArea(m, p); }
    Empties(m, p);
    NoChild(ExecStack1(b));
    Reclaims(m1, m2, p, a, b);
    forall r | 0 <= r < NPROC ensures ProcOk(m2, r) {
      assert ProcOk(m, r);
      if r != p {
        assert Calm(m, m1, r);
        assert Calm(m, m2, r) by { StaysCalm(m, m1, m2, r, p, a); }
        Bystander(m, m2, r);
      }
    }
  }

  lemma SoundArea(m: M, p: nat)
    requires Base(m) && p < NPROC
    ensures PageOk(m.mem[p].area)
  {
    assert ProcSound(m.mem[p]);
  }

  /** The user area page, just freed, is taken back. */
  lemma Reclaims(m1: M, m2: M, p: nat, a: nat, b: int)
    requires Base(m1) && 1 <= p < NPROC && Empty(m1.mem[p]) && a < NFRAME && !IsLib(a) && m1.count[a] == 0 && p == m1.cur
    requires m2.cur == p && m2.loc == m1.loc[p := ExecStack1(b)] && Sized(m2) && m2.st == m1.st[p := Running]
    requires m2.free == m1.free - 1 && m2.count == m1.count[a := 1]
    requires m2.mem == m1.mem[p := Proc(m1.mem[p].pt[0 := Entry(LIB0, true)][1 := Entry(LIB1, true)], a, -1)]
    ensures CountsOk(m2) && ProcOk(m2, p)
  {
    hide CountsOk, Uses, Zeros;
    var q := m2.mem[p];
    assert ProcSound(m1.mem[p]);
    forall g ensures UsesOf(q, g) == UsesOf(m1.mem[p], g) + (if g == a then 1 else 0) {
      NamedUpdate(m1.mem[p].pt, 0, Entry(LIB0, true), 2, g);
      NamedUpdate(m1.mem[p].pt[0 := Entry(LIB0, true)], 1, Entry(LIB1, true), 2, g);
    }
    CountsFollow(m1, m2, p, q, a, 1);
  }

  lemma StaysCalm(m: M, m1: M, m2: M, r: nat, p: nat, a: nat)
    requires Sized(m) && Sized(m1) && Sized(m2) && r < NPROC && p < NPROC && a < NFRAME && r != p && Calm(m, m1, r)
    requires ProcOk(m, r) && m.mem[p].area == a && Base(m) && !IsLib(a) && m.st[p] == Running
    requires m2.mem == m1.mem[p := m2.mem[p]] && m2.loc == m1.loc[p := m2.loc[p]] && m2.wait == m1.wait && m2.st == m1.st[p := Running]
    requires m2.count == m1.count[a := 1] && (r >= 1 ==> m1.st[r] != WaitMem) && ChildOf(m.loc[r]) != p
    ensures Calm(m, m2, r)
  {
    hide CountsOk, PagesOk, ChildOk, ProcSound;
    if m.mem[r].area == a {
      NotAnArea(m, p, a, r);
    }
  }

  // ---- taking a page

  /** Process p gets frame f, found by the search. */
  lemma Grants(m: M, p: nat, q: Proc, f: nat)
    requires Base(m) && p < NPROC && f == Grant(m) < NFRAME && ProcSound(q)
    requires forall g :: UsesOf(q, g) == UsesOf(m.mem[p], g) + (if g == f then 1 else 0)
    requires q.area == m.mem[p].area || q.area == f
    ensures !IsLib(f) && m.free != 0 && Base(SetProc(Taken(m, f), p, q))
    ensures forall r | 0 <= r < NPROC && r != p && ChildOf(m.loc[r]) != p :: Calm(m, SetProc(Taken(m, f), p, q), r)
    ensures UsesOf(m.mem[p], f) == 0
  {
    hide UsesOf, CountsOk, Calm;
    var m2 := SetProc(Taken(m, f), p, q);
    assert !IsLib(f) by { LibIsUsed(m, f); }
    CountAtLeast(m, p, f);
    assert CountsOk(m2) by { CountsFollow(m, m2, p, q, f, 1); }
    forall r | 0 <= r < NPROC ensures AreaOk(m2, r) { assert AreaOk(m, r); }
    forall r | 0 <= r < NPROC && r != p && ChildOf(m.loc[r]) != p ensures Calm(m, m2, r) {
      assert AreaOk(m, r);
      GrantIsCalm(m, m2, r, f);
    }
  }

  lemma LibIsUsed(m: M, f: nat)
    requires Base(m) && f < NFRAME && m.count[f] == 0
    ensures !IsLib(f)
  {
    assert FrameOk(m, f);
  }

  lemma GrantIsCalm(m: M, m2: M, r: nat, f: nat)
    requires Sized(m) && Sized(m2) && r < NPROC && f < NFRAME && m.free != 0 && m.count[f] == 0
    requires m2.mem[r] == m.mem[r] && m2.loc == m.loc && m2.wait == m.wait && m2.st == m.st && AreaOk(m, r)
    requires m2.count == m.count[f := 1]
    requires 0 <= ChildOf(m.loc[r]) < NPROC ==> m2.mem[ChildOf(m.loc[r])] == m.mem[ChildOf(m.loc[r])]
    ensures Calm(m, m2, r)
  {
  }

  /** The free page fills an empty entry of process c (the running process or its child). */
  lemma GrantsEntry(m: M, c: nat, i: nat, f: nat)
    requires Base(m) && c < NPROC && 2 <= i < ENTRIES && f == Grant(m) < NFRAME && !m.mem[c].pt[i].valid
    ensures var m2 := SetEntry(Taken(m, f), c, i, Entry(f, true)); Base(m2) && !IsLib(f)
    ensures forall r | 0 <= r < NPROC && r != c && ChildOf(m.loc[r]) != c :: Calm(m, SetEntry(Taken(m, f), c, i, Entry(f, true)), r)
  {
    hide CountsOk, Calm;
    var q := m.mem[c].(pt := m.mem[c].pt[i := Entry(f, true)]);
    assert ProcSound(m.mem[c]);
    LibIsUsed(m, f);
    forall g ensures UsesOf(q, g) == UsesOf(m.mem[c], g) + (if g == f then 1 else 0) {
      NamedUpdate(m.mem[c].pt, i, Entry(f, true), 2, g);
    }
    Grants(m, c, q, f);
  }

  /** The process sleeps until a page is released. */
  lemma StepAsleep(m: M)
    requires Inv(m) && m.st[m.cur] == Running && WantsPage(m.loc[m.cur]) && Grant(m) == NFRAME
    ensures Inv(Asleep(m))
  {
    hide CountsOk, ProcSound, AreaOk, ChildOf, PagesOk, ChildOk, Calm;
    var m2 := Asleep(m);
    SearchFinds(m);
    NobodysChild(m);
    forall r | 0 <= r < NPROC ensures ProcOk(m2, r) {
      assert ProcOk(m, r);
      Dozes(m, r);
    }
    SameCounts(m, m2);
  }

  lemma Dozes(m: M, r: nat)
    requires Sized(m) && r < NPROC && ProcOk(m, r) && m.st[m.cur] == Running && WantsPage(m.loc[m.cur]) && m.free == 0
    ensures ProcOk(Asleep(m), r)
  {
  }

  lemma NoChild(l: Loc)
    requires l == User || l == Waits || l.ExecStack1? || l.ExecStack2? || l.ExecCode? || l.ExecPage? || l.ExecLoad?
    ensures ChildOf(l) == -1
  {
  }

  /** The stepping process and its child, the bystanders and the counts make up the
      invariant. */
  lemma Together(m: M, m2: M, c: int)
    requires Inv(m) && m.st[m.cur] == Running && Sized(m2) && m2.cur == m.cur && CountsOk(m2)
    requires c == ChildOf(m.loc[m.cur]) && (ChildOf(m2.loc[m.cur]) == c || ChildOf(m2.loc[m.cur]) == -1)
    requires ProcOk(m2, m.cur) && (0 <= c < NPROC ==> ProcOk(m2, c))
    requires forall r | 0 <= r < NPROC && r != m.cur && r != c && ChildOf(m.loc[r]) != m.cur && (c >= 0 ==> ChildOf(m.loc[r]) != c) :: Calm(m, m2, r)
    requires forall r | 0 <= r < NPROC && r != m.cur :: m2.loc[r] == m.loc[r]
    ensures Inv(m2)
  {
    hide CountsOk, ProcSound, AreaOk, PagesOk, ChildOk, StateOk, Calm, ChildOf;
    NobodysChild(m);
    forall r | 0 <= r < NPROC ensures ProcOk(m2, r) {
      assert ProcOk(m, r);
      if r != m.cur && r != c {
        Bystander(m, m2, r);
      }
    }
  }

  /** A page for an entry of the running process itself. */
  lemma StepOwnPage(m: M, i: nat, l: Loc)
    requires Inv(m) && m.st[m.cur] == Running && Grant(m) < NFRAME
    requires match m.loc[m.cur]
             case ForkHeap1(c) => i == 2 && l == ForkHeap2(c)
             case ForkHeap2(c) => i == 3 && l == ForkArea(c)
             case ExecStack1(b) => i == 8 && l == ExecStack2(b)
             case ExecStack2(b) => i == 9 && l == ExecCode(b)
             case _ => false
    ensures Inv(At(SetEntry(Taken(m, Grant(m)), m.cur, i, Entry(Grant(m), true)), l))
  {
    hide CountsOk, Calm, AreaOk;
    var p := m.cur;
    var m1 := SetEntry(Taken(m, Grant(m)), p, i, Entry(Grant(m), true));
    var m2 := At(m1, l);
    InvIsBase(m);
    NobodysChild(m);
    assert ProcOk(m, p);
    GrantsEntry(m, p, i, Grant(m));
    assert AreaOk(m1, p) && ProcSound(m1.mem[p]);
    assert ProcOk(m2, p) by { OwnPage(m, m1, m2, i, l); }
    var c := ChildOf(l);
    if 0 <= c < NPROC {
      assert ProcOk(m, c) && Calm(m, m1, c);
      ChildStays(m, m2, c);
    }
    SameCounts(m1, m2);
    forall r | 0 <= r < NPROC && r != p ensures Calm(m, m2, r) {
      assert Calm(m, m1, r);
      LocOnly(m, m1, m2, r);
    }
    Together(m, m2, c);
  }

  lemma LocOnly(m: M, m1: M, m2: M, r: nat)
    requires Sized(m) && Sized(m1) && Sized(m2) && r < NPROC && r != m1.cur && Calm(m, m1, r)
    requires m2 == m1.(loc := m2.loc) && m2.loc[r] == m1.loc[r]
    ensures Calm(m, m2, r)
  {
  }

  lemma ChildStays(m: M, m2: M, c: nat)
    requires Sized(m) && Sized(m2) && c < NPROC && ProcOk(m, c) && Calm(m, m2, c) && m.st[c] == Allocated
    ensures ProcOk(m2, c)
  {
  }

  lemma OwnPage(m: M, m1: M, m2: M, i: nat, l: Loc)
    requires Sized(m) && m.st[m.cur] == Running && ProcOk(m, m.cur) && Grant(m) < NFRAME && i < ENTRIES
    requires m1 == SetEntry(Taken(m, Grant(m)), m.cur, i, Entry(Grant(m), true)) && m2 == At(m1, l)
    requires AreaOk(m1, m.cur) && ProcSound(m1.mem[m.cur])
    requires match m.loc[m.cur]
             case ForkHeap1(c) => i == 2 && l == ForkHeap2(c)
             case ForkHeap2(c) => i == 3 && l == ForkArea(c)
             case ExecStack1(b) => i == 8 && l == ExecStack2(b)
             case ExecStack2(b) => i == 9 && l == ExecCode(b)
             case _ => false
    ensures ProcOk(m2, m.cur)
  {
  }

  // ---- fork

  /** How often the first n entries hold frame f, valid or not. */
  function Occurs(pt: seq<Entry>, n: nat, f: int): nat
    requires n <= |pt|
  {
    if n == 0 then 0 else Occurs(pt, n - 1, f) + (if pt[n - 1].frame == f then 1 else 0)
  }

  lemma {:induction false} CopyCountsIs(count: seq<int>, pt: seq<Entry>, n: nat, f: int)
    requires |count| == NFRAME && n <= |pt| && 0 <= f < NFRAME
    ensures CopyCounts(count, pt, n)[f] == count[f] + Occurs(pt, n, f)
  {
    if n > 0 {
      CopyCountsIs(count, pt, n - 1, f);
    }
  }

  lemma {:induction false} CopyKeepsZeros(count: seq<int>, pt: seq<Entry>, n: nat)
    requires |count| == NFRAME && n <= |pt|
    requires forall i | 0 <= i < n :: 0 <= pt[i].frame < NFRAME ==> count[pt[i].frame] >= 1
    ensures Zeros(CopyCounts(count, pt, n)) == Zeros(count)
  {
    hide Zeros;
    if n > 0 {
      CopyKeepsZeros(count, pt, n - 1);
      var f := pt[n - 1].frame;
      if 0 <= f < NFRAME {
        CopyCountsIs(count, pt, n - 1, f);
        var c := CopyCounts(count, pt, n - 1);
        ZerosUpdate(c, f, c[f] + 1);
      }
    }
  }

  /** The entries copied from a sound page table name a page as often as they hold it. */
  lemma {:induction false} OccursIsNamed(pt: seq<Entry>, child: seq<Entry>, n: nat, f: int)
    requires |pt| == |child| == ENTRIES && 2 <= n <= 8 && forall i | 0 <= i < ENTRIES :: EntryOk(pt[i], i)
    requires child == pt[..8] + [None, None] && 0 <= f < NFRAME && !IsLib(f)
    ensures Occurs(pt, n, f) + Named(child, n, f) == Named(child, 2, f)
    ensures n == 8 ==> Occurs(pt, 8, f) == Named(child, 2, f)
  {
    if n == 2 {
      assert EntryOk(pt[0], 0) && EntryOk(pt[1], 1);
      assert Occurs(pt, 1, f) == 0;
    } else {
      assert EntryOk(pt[n - 1], n - 1);
      OccursIsNamed(pt, child, n - 1, f);
    }
    if n == 8 {
      assert Named(child, 10, f) == 0 && Named(child, 9, f) == 0 && Named(child, 8, f) == 0;
    }
  }

  lemma {:induction false} NamedSome(pt: seq<Entry>, i: nat, n: nat)
    requires |pt| == ENTRIES && n <= i < ENTRIES && pt[i].valid
    ensures Named(pt, n, pt[i].frame) >= 1
    decreases i - n
  {
    if n < i {
      NamedSome(pt, i, n + 1);
    }
  }

  function Copied(m: M, c: nat): (r: M)
    requires Sized(m) && c < NPROC
    ensures Sized(r)
  {
    var parent := m.mem[m.cur].pt;
    m.(count := CopyCounts(m.count, parent, 8), diskMap := m.diskMap[c := m.diskMap[m.cur]],
       mem := m.mem[c := m.mem[c].(pt := parent[..8] + m.mem[c].pt[8..])])
  }

  lemma EntryCounted(m: M, p: nat, i: nat)
    requires Base(m) && p < NPROC && i < ENTRIES && m.mem[p].pt[i].valid
    ensures EntryOk(m.mem[p].pt[i], i) && m.count[m.mem[p].pt[i].frame] >= 1
    ensures i >= 2 ==> UsesOf(m.mem[p], m.mem[p].pt[i].frame) >= 1
  {
    hide Uses, Zeros;
    assert ProcSound(m.mem[p]);
    assert EntryOk(m.mem[p].pt[i], i);
    var f := m.mem[p].pt[i].frame;
    if i >= 2 {
      NamedSome(m.mem[p].pt, i, 2);
      CountAtLeast(m, p, f);
    } else {
      assert FrameOk(m, f);
    }
  }

  /** A user area page is in nobody's page table. */
  lemma AreaNotNamed(m: M, p: nat, r: nat)
    requires Base(m) && p < NPROC && r < NPROC && 0 <= m.mem[r].area < NFRAME
    ensures !IsLib(m.mem[r].area) && Named(m.mem[p].pt, 2, m.mem[r].area) == 0
  {
    hide Uses, Zeros, CountsOk;
    assert ProcSound(m.mem[r]) && ProcSound(m.mem[p]) && AreaOk(m, r);
    var f := m.mem[r].area;
    if Named(m.mem[p].pt, 2, f) > 0 {
      NotAnArea(m, p, f, r);
    }
  }

  lemma CopiesPages(m: M, c: nat)
    requires Base(m) && c < NPROC && c != m.cur && m.mem[c].held == -1
    requires forall i | 0 <= i < ENTRIES :: m.mem[c].pt[i] == None
    ensures Base(Copied(m, c))
    ensures forall r | 0 <= r < NPROC && r != c && ChildOf(m.loc[r]) != c && m.st[r] != Running :: Calm(m, Copied(m, c), r)
  {
    hide Uses, Zeros, Calm, UsesOf;
    var m2 := Copied(m, c);
    var pt := m.mem[m.cur].pt;
    var child := m2.mem[c].pt;
    assert ProcSound(m.mem[m.cur]) && ProcSound(m.mem[c]);
    assert m.mem[c].pt[8..] == [None, None];
    forall g | 0 <= g < NFRAME ensures FrameOk(m2, g) {
      assert FrameOk(m, g);
      CopyCountsIs(m.count, pt, 8, g);
      if !IsLib(g) {
        OccursIsNamed(pt, child, 8, g);
        UsesUpdate(m.mem, c, m2.mem[c], g);
        GainsNamed(m.mem[c], m2.mem[c], g);
      }
    }
    forall i | 0 <= i < 8 && 0 <= pt[i].frame < NFRAME ensures m.count[pt[i].frame] >= 1 {
      assert EntryOk(pt[i], i);
      EntryCounted(m, m.cur, i);
    }
    CopyKeepsZeros(m.count, pt, 8);
    forall r | 0 <= r < NPROC && 0 <= m.mem[r].area < NFRAME ensures m2.count[m.mem[r].area] == m.count[m.mem[r].area] {
      AreaNotCopied(m, r);
    }
    forall r | 0 <= r < NPROC ensures ProcSound(m2.mem[r]) && AreaOk(m2, r) { assert ProcSound(m.mem[r]) && AreaOk(m, r); }
    forall r | 0 <= r < NPROC && r != c && ChildOf(m.loc[r]) != c && m.st[r] != Running ensures Calm(m, m2, r) {
      CopyIsCalm(m, m2, c, r);
    }
  }

  lemma CopyIsCalm(m: M, m2: M, c: nat, r: nat)
    requires Sized(m) && Sized(m2) && r < NPROC && c < NPROC && r != c && ChildOf(m.loc[r]) != c && m2.st == m.st && m2.loc == m.loc
    requires m2.wait == m.wait && m2.free == m.free && m2.mem == m.mem[c := m2.mem[c]]
    requires 0 <= m.mem[r].area < NFRAME ==> m2.count[m.mem[r].area] == m.count[m.mem[r].area]
    ensures Calm(m, m2, r)
  {
  }

  lemma GainsNamed(q: Proc, q2: Proc, g: int)
    requires |q.pt| == |q2.pt| == ENTRIES && q2.area == q.area && q2.held == q.held && forall i | 0 <= i < ENTRIES :: q.pt[i] == None
    ensures UsesOf(q2, g) == UsesOf(q, g) + Named(q2.pt, 2, g)
  {
    NamedNothing(q.pt, 2, g);
  }

  lemma {:induction false} NamedNothing(pt: seq<Entry>, n: nat, g: int)
    requires n <= |pt| && forall i | 0 <= i < |pt| :: pt[i] == None
    ensures Named(pt, n, g) == 0
    decreases |pt| - n
  {
    if n < |pt| {
      NamedNothing(pt, n + 1, g);
    }
  }

  lemma AreaNotCopied(m: M, r: nat)
    requires Base(m) && r < NPROC && 0 <= m.mem[r].area < NFRAME
    ensures CopyCounts(m.count, m.mem[m.cur].pt, 8)[m.mem[r].area] == m.count[m.mem[r].area]
  {
    hide Uses, Zeros, UsesOf, CountsOk, AreaOk;
    var pt := m.mem[m.cur].pt;
    var g := m.mem[r].area;
    assert ProcSound(m.mem[m.cur]);
    AreaNotNamed(m, m.cur, r);
    CopyCountsIs(m.count, pt, 8, g);
    if Occurs(pt, 8, g) > 0 {
      OccursSomewhere(pt, 8, g);
      var i :| 0 <= i < 8 && pt[i].frame == g;
      assert EntryOk(pt[i], i);
      NamedSome(pt, i, 2);
    }
  }

  lemma {:induction false} OccursSomewhere(pt: seq<Entry>, n: nat, g: int)
    requires n <= |pt| && Occurs(pt, n, g) > 0
    ensures exists i :: 0 <= i < n && pt[i].frame == g
  {
    if pt[n - 1].frame != g {
      OccursSomewhere(pt, n - 1, g);
    }
  }

  /** The user area page of the child, and the copy of the parent's page table. */
  lemma StepForkArea(m: M, c: nat)
    requires Inv(m) && m.st[m.cur] == Running && m.loc[m.cur] == ForkArea(c) && Grant(m) < NFRAME
    ensures c < NPROC && Inv(At(ForkCopied(Taken(m, Grant(m)), c, Grant(m)), ForkStack1(c)))
  {
    hide CountsOk, Calm, Uses, Zeros;
    var p, f := m.cur, Grant(m);
    InvIsBase(m);
    NobodysChild(m);
    assert ProcOk(m, p) && ProcOk(m, c);
    LibIsUsed(m, f) by { assert m.count[f] == 0; }
    var mA := SetProc(Taken(m, f), c, m.mem[c].(area := f));
    Grants(m, c, m.mem[c].(area := f), f);
    CopiesPages(mA, c);
    var mB := Copied(mA, c);
    var m2 := At(ForkCopied(Taken(m, f), c, f), ForkStack1(c));
    assert m2 == At(mB, ForkStack1(c));
    assert ProcSound(mB.mem[c]) && AreaOk(mB, c) && AreaOk(mB, p);
    Forked(m, m2, c);
    SameCounts(mB, m2);
    forall r | 0 <= r < NPROC && r != p && r != c && ChildOf(m.loc[r]) != c ensures Calm(m, m2, r) {
      CalmTwice(m, mA, mB, r);
      LocOnly(m, mB, m2, r);
    }
    Together(m, m2, c);
  }

  lemma Forked(m: M, m2: M, c: nat)
    requires Sized(m) && Sized(m2) && ProcOk(m, m.cur) && c < NPROC && ProcOk(m, c) && m.st[m.cur] == Running
    requires m.loc[m.cur] == ForkArea(c) && c != m.cur && m2.cur == m.cur && m2.st == m.st && m2.loc == m.loc[m.cur := ForkStack1(c)]
    requires m2.wait == m.wait && m2.mem == m.mem[c := m2.mem[c]] && ProcSound(m2.mem[c]) && AreaOk(m2, c) && AreaOk(m2, m.cur)
    requires m2.mem[c].area >= 0 && m2.mem[c].held == -1 && m2.mem[c].pt == m.mem[m.cur].pt[..8] + [None, None]
    ensures ProcOk(m2, m.cur) && ProcOk(m2, c)
  {
  }

  /** The stack pages of the child. With the second one the child is created. */
  lemma StepForkStack(m: M, c: nat, last: bool)
    requires Inv(m) && m.st[m.cur] == Running && Grant(m) < NFRAME
    requires m.loc[m.cur] == if last then ForkStack2(c) else ForkStack1(c)
    ensures c < NPROC
    ensures var i := if last then 9 else 8;
            var m1 := SetEntry(Taken(m, Grant(m)), c, i, Entry(Grant(m), m.mem[m.cur].pt[i].valid));
            Inv(if last then At(m1.(st := m1.st[c := Created]), User) else At(m1, ForkStack2(c)))
  {
    hide CountsOk, Calm;
    var p, f := m.cur, Grant(m);
    var i := if last then 9 else 8;
    InvIsBase(m);
    NobodysChild(m);
    assert ProcOk(m, p) && ProcOk(m, c);
    GrantsEntry(m, c, i, f);
    var m1 := SetEntry(Taken(m, f), c, i, Entry(f, true));
    var m2 := if last then At(m1.(st := m1.st[c := Created]), User) else At(m1, ForkStack2(c));
    assert ProcSound(m1.mem[c]) && AreaOk(m1, c) && AreaOk(m1, p);
    ChildsPage(m, m1, m2, c, last);
    SameCounts(m1, m2);
    forall r | 0 <= r < NPROC && r != p && r != c && ChildOf(m.loc[r]) != c ensures Calm(m, m2, r) {
      CreatedIsCalm(m, m1, m2, c, r);
    }
    Together(m, m2, c);
  }

  lemma ChildsPage(m: M, m1: M, m2: M, c: nat, last: bool)
    requires Sized(m) && Sized(m2) && ProcOk(m, m.cur) && c < NPROC && ProcOk(m, c) && m.st[m.cur] == Running && c != m.cur && Grant(m) < NFRAME
    requires m.loc[m.cur] == if last then ForkStack2(c) else ForkStack1(c)
    requires m1 == SetEntry(Taken(m, Grant(m)), c, if last then 9 else 8, Entry(Grant(m), true))
    requires m2 == if last then At(m1.(st := m1.st[c := Created]), User) else At(m1, ForkStack2(c))
    requires ProcSound(m1.mem[c]) && AreaOk(m1, c) && AreaOk(m1, m.cur)
    ensures ProcOk(m2, m.cur) && ProcOk(m2, c)
  {
  }

  lemma CreatedIsCalm(m: M, m1: M, m2: M, c: nat, r: nat)
    requires Sized(m) && Sized(m1) && Sized(m2) && r < NPROC && c < NPROC && r != c && r != m1.cur && Calm(m, m1, r) && ChildOf(m.loc[r]) != c
    requires m1.st[c] == Allocated && (m2.st == m1.st || m2.st == m1.st[c := Created]) && m2 == m1.(loc := m2.loc, st := m2.st)
    requires m2.loc[r] == m1.loc[r]
    ensures Calm(m, m2, r)
  {
  }

  lemma StepFork(m: M)
    requires Inv(m) && Enabled(m, Fork)
    ensures Inv(StartFork(m))
  {
    hide CountsOk, ProcSound, AreaOk, Calm;
    var p, c := m.cur, FirstTerminated(m.st, 1);
    if c < NPROC {
      var m2 := StartFork(m);
      NobodysChild(m);
      forall r | 0 <= r < NPROC ensures ProcOk(m2, r) {
        assert ProcOk(m, p) && ProcOk(m, c) && ProcOk(m, r);
        Allocates(m, c, r);
      }
      forall r | 0 <= r < NPROC ensures ChildOf(m.loc[r]) != c { assert ProcOk(m, r); }
      SameCounts(m, m2);
    }
  }

  lemma Allocates(m: M, c: nat, r: nat)
    requires Sized(m) && InUserMode(m) && m.cur >= 1 && c == FirstTerminated(m.st, 1) < NPROC && r < NPROC
    requires ProcOk(m, r) && ProcOk(m, c) && ProcOk(m, m.cur)
    ensures ProcOk(StartFork(m), r)
  {
    hide AreaOk, ProcSound;
    assert AreaOk(m, r) ==> AreaOk(StartFork(m), r) by { SameArea(m, StartFork(m), r); }
  }

  lemma SameArea(m: M, m2: M, r: nat)
    requires Sized(m) && Sized(m2) && r < NPROC && m2.count == m.count && m2.mem[r] == m.mem[r]
    ensures AreaOk(m, r) <==> AreaOk(m2, r)
  {
  }

  // ---- code pages

  /** A code page that process r has in memory is shared. */
  lemma StepShare(m: M, b: int, rest: seq<int>, r: nat, j: nat)
    requires Inv(m) && m.st[m.cur] == Running && m.loc[m.cur] == ExecCode(b) && |rest| == 3
    requires r < NPROC && j < 4 && m.mem[r].pt[4 + j].valid
    ensures var g := m.mem[r].pt[4 + j].frame;
            0 <= g < NFRAME && Inv(EndExec(m.(count := m.count[g := m.count[g] + 1]), b, g, rest))
  {
    hide CountsOk, Calm, Uses, Zeros, UsesOf, ProcOk, EntryOk, AreaOk;
    var p := m.cur;
    var g := m.mem[r].pt[4 + j].frame;
    InvIsBase(m);
    NobodysChild(m);
    EntryCounted(m, r, 4 + j);
    assert 0 <= g < NFRAME && !IsLib(g) by { ValidEntry(m.mem[r].pt[4 + j], 4 + j); }
    var m2 := EndExec(m.(count := m.count[g := m.count[g] + 1]), b, g, rest);
    ShareCounts(m, m2, g);
    forall s | 0 <= s < NPROC ensures m.mem[s].area != g {
      if m.mem[s].area == g {
        AreaNotNamed(m, r, s);
        NamedSome(m.mem[r].pt, 4 + j, 2);
      }
    }
    assert ProcOk(m, p);
    ExecEnds(m, m2, g);
    NoChild(User);
    NoChild(ExecCode(b));
    forall s | 0 <= s < NPROC && s != p ensures Calm(m, m2, s) { EndIsCalm(m, m2, s); }
    Together(m, m2, -1);
  }

  lemma ValidEntry(e: Entry, i: nat)
    requires EntryOk(e, i) && e.valid && i >= 2
    ensures 0 <= e.frame < NFRAME && !IsLib(e.frame)
  {
  }

  lemma ShareCounts(m: M, m2: M, g: nat)
    requires Inv(m) && m.loc[m.cur].ExecCode? && g < NFRAME && !IsLib(g) && m.count[g] >= 1 && Sized(m2)
    requires m2.count == m.count[g := m.count[g] + 1] && m2.free == m.free
    requires m2.mem == m.mem[m.cur := Proc(m.mem[m.cur].pt[4 := Entry(g, true)], m.mem[m.cur].area, -1)]
    ensures CountsOk(m2)
  {
    hide CountsOk, Uses, Zeros, UsesOf, ChildOk, StateOk, AreaOk;
    var p := m.cur;
    assert ProcOk(m, p);
    var q := m.mem[p].(pt := m.mem[p].pt[4 := Entry(g, true)]);
    forall h ensures UsesOf(q, h) == UsesOf(m.mem[p], h) + (if h == g then 1 else 0) {
      EntryUses(m.mem[p], 4, Entry(g, true), h);
    }
    CountsFollow(m, m2, p, q, g, 1);
  }

  lemma EntryUses(q: Proc, i: nat, e: Entry, h: int)
    requires |q.pt| == ENTRIES && 2 <= i < ENTRIES && !q.pt[i].valid && e.valid
    ensures UsesOf(q.(pt := q.pt[i := e]), h) == UsesOf(q, h) + (if h == e.frame then 1 else 0)
  {
    NamedUpdate(q.pt, i, e, 2, h);
  }

  lemma ExecEnds(m: M, m2: M, g: int)
    requires Sized(m) && Sized(m2) && ProcOk(m, m.cur) && m.st[m.cur] == Running && (m.loc[m.cur].ExecCode? || m.loc[m.cur].ExecLoad?)
    requires m2.cur == m.cur && m2.loc == m.loc[m.cur := User] && m2.st == m.st && 0 <= g < NFRAME && !IsLib(g) && m2.wait == m.wait
    requires m2.mem == m.mem[m.cur := Proc(m.mem[m.cur].pt[4 := Entry(g, true)], m.mem[m.cur].area, -1)]
    requires 0 <= m.mem[m.cur].area < NFRAME ==> m2.count[m.mem[m.cur].area] == m.count[m.mem[m.cur].area]
    ensures ProcOk(m2, m.cur)
  {
  }

  lemma EndIsCalm(m: M, m2: M, s: nat)
    requires Sized(m) && Sized(m2) && s < NPROC && s != m.cur && ChildOf(m.loc[s]) != m.cur
    requires m2.loc == m.loc[m.cur := User] && m2.st == m.st && m2.wait == m.wait && m2.free == m.free && m2.mem == m.mem[m.cur := m2.mem[m.cur]]
    requires 0 <= m.mem[s].area < NFRAME ==> m2.count[m.mem[s].area] == m.count[m.mem[s].area]
    ensures Calm(m, m2, s)
  {
  }

  lemma StepLoaded(m: M, b: int, rest: seq<int>)
    requires Inv(m) && m.st[m.cur] == Running && m.loc[m.cur] == ExecLoad(b) && |rest| == 3
    ensures Inv(EndExec(m, b, m.mem[m.cur].held, rest))
  {
    hide CountsOk, Calm, Zeros, Uses, UsesOf;
    var p := m.cur;
    var g := m.mem[p].held;
    InvIsBase(m);
    NobodysChild(m);
    assert ProcOk(m, p);
    var m2 := EndExec(m, b, g, rest);
    var q := m2.mem[p];
    assert m2.mem == m.mem[p := q];
    assert CountsOk(m2) by {
      forall h ensures UsesOf(q, h) == UsesOf(m.mem[p], h) { HeldMoves(m.mem[p], h); }
      assert m.count[g := m.count[g] + 0] == m.count;
      CountsFollow(m, m2, p, q, g, 0);
    }
    ExecEnds(m, m2, g);
    NoChild(User);
    NoChild(ExecLoad(b));
    forall s | 0 <= s < NPROC && s != p ensures Calm(m, m2, s) { EndIsCalm(m, m2, s); }
    Together(m, m2, -1);
  }

  lemma HeldMoves(q: Proc, h: int)
    requires |q.pt| == ENTRIES && !q.pt[4].valid && q.held >= 0
    ensures UsesOf(Proc(q.pt[4 := Entry(q.held, true)], q.area, -1), h) == UsesOf(q, h)
  {
    NamedUpdate(q.pt, 4, Entry(q.held, true), 2, h);
  }

  lemma StepHolds(m: M, b: int)
    requires Inv(m) && m.st[m.cur] == Running && m.loc[m.cur] == ExecPage(b) && Grant(m) < NFRAME
    ensures var m1 := SetProc(Taken(m, Grant(m)), m.cur, m.mem[m.cur].(held := Grant(m)));
            Inv(At(m1.(st := m.st[m.cur := WaitDisk]), ExecLoad(b)))
  {
    hide CountsOk, Calm, Zeros, Uses;
    var p, f := m.cur, Grant(m);
    InvIsBase(m);
    NobodysChild(m);
    assert ProcOk(m, p);
    LibIsUsed(m, f) by { assert m.count[f] == 0; }
    var q := m.mem[p].(held := f);
    Grants(m, p, q, f);
    var m1 := SetProc(Taken(m, f), p, q);
    var m2 := At(m1.(st := m.st[p := WaitDisk]), ExecLoad(b));
    SameCounts(m1, m2);
    assert AreaOk(m1, p);
    assert ProcOk(m2, p);
    NoChild(ExecPage(b));
    NoChild(ExecLoad(b));
    forall s | 0 <= s < NPROC && s != p ensures Calm(m, m2, s) {
      assert Calm(m, m1, s);
      StateIsCalm(m, m1, m2, s);
    }
    Together(m, m2, -1);
  }

  lemma StateIsCalm(m: M, m1: M, m2: M, s: nat)
    requires Sized(m) && Sized(m1) && Sized(m2) && s < NPROC && s != m1.cur && Calm(m, m1, s) && ChildOf(m.loc[s]) != m1.cur
    requires m2 == m1.(st := m1.st[m1.cur := m2.st[m1.cur]], loc := m1.loc[m1.cur := m2.loc[m1.cur]]) && m2.st[m1.cur] != Terminated
    ensures Calm(m, m2, s)
  {
  }

  // ---- the other steps

  /** A step that changes neither pages nor page tables. */
  lemma StateOnly(m: M, m2: M)
    requires Inv(m) && m.st[m.cur] == Running && Sized(m2) && m2.mem == m.mem && m2.count == m.count && m2.free == m.free && m2.wait[m.cur := m.wait[m.cur]] == m.wait
    requires m2.cur == m.cur && m2.loc == m.loc[m.cur := m2.loc[m.cur]] && ChildOf(m2.loc[m.cur]) == ChildOf(m.loc[m.cur]) == -1
    requires StateOk(m2, m.cur) && PagesOk(m2, m.cur) && m2.st[m.cur] != Terminated
    requires forall r | 0 <= r < NPROC && r != m.cur :: m2.st[r] == m.st[r] || (m.st[r] in {WaitProcess, WaitDisk} && m2.st[r] == Ready)
    ensures Inv(m2)
  {
    hide CountsOk, ProcSound, PagesOk, StateOk;
    NobodysChild(m);
    SameCounts(m, m2);
    assert ProcOk(m, m.cur);
    forall s | 0 <= s < NPROC && s != m.cur ensures Calm(m, m2, s) { assert ProcOk(m, s); }
    Together(m, m2, -1);
  }

  lemma StepDispatch(m: M, q: nat)
    requires Inv(m) && Enabled(m, Dispatch(q))
    ensures Inv(After(m, Dispatch(q)))
  {
    hide CountsOk, ProcSound;
    var m2 := After(m, Dispatch(q));
    SameCounts(m, m2);
    forall r | 0 <= r < NPROC ensures ProcOk(m2, r) {
      assert ProcOk(m, r) && ProcOk(m, q);
      Scheduled(m, q, r);
    }
  }

  lemma Scheduled(m: M, q: nat, r: nat)
    requires Sized(m) && Enabled(m, Dispatch(q)) && r < NPROC && ProcOk(m, r) && ProcOk(m, q)
    ensures ProcOk(After(m, Dispatch(q)), r)
  {
    hide ProcSound;
  }

  lemma StepSmall(m: M, e: Event)
    requires Inv(m) && Enabled(m, e) && (e.WaitFor? || e.Signal? || e.Preempt? || e.DiskDone?)
    ensures Inv(After(m, e))
  {
    hide CountsOk, ProcSound;
    assert ProcOk(m, m.cur);
    StateOnly(m, After(m, e));
  }

  lemma StepTurn(m: M, rest: seq<int>)
    requires Inv(m) && Enabled(m, Turn(rest))
    ensures Inv(Turned(m, rest))
  {
    hide CountsOk, ProcOk, Calm, FindCode, Inv, EndExec, ForkCopied, Grant;
    var f := Grant(m);
    var l := m.loc[m.cur];
    if l == Waits {
      StepReturns(m);
    } else if l.ExecCode? {
      var (r, j) := FindCode(m, l.b, 0, 0);
      if r == NPROC {
        StepAsks(m, l.b);
      } else {
        StepShare(m, l.b, rest, r, j);
      }
    } else if l.ExecLoad? {
      StepLoaded(m, l.b, rest);
    } else if f == NFRAME {
      StepAsleep(m);
    } else if l.ForkArea? {
      StepForkArea(m, l.c);
    } else if l.ForkStack1? {
      StackIsValid(m);
      StepForkStack(m, l.c, false);
    } else if l.ForkStack2? {
      StackIsValid(m);
      StepForkStack(m, l.c, true);
    } else if l.ExecPage? {
      StepHolds(m, l.b);
    } else {
      StepOwnPage(m, if l.ForkHeap1? then 2 else if l.ForkHeap2? then 3 else if l.ExecStack1? then 8 else 9,
                  if l.ForkHeap1? then ForkHeap2(l.c) else if l.ForkHeap2? then ForkArea(l.c)
                  else if l.ExecStack1? then ExecStack2(l.b) else ExecCode(l.b));
    }
  }

  lemma StackIsValid(m: M)
    requires Inv(m) && (m.loc[m.cur].ForkStack1? || m.loc[m.cur].ForkStack2?)
    ensures m.mem[m.cur].pt[8].valid && m.mem[m.cur].pt[9].valid && m.loc[m.cur].c < NPROC
  {
    assert ProcOk(m, m.cur);
  }

  lemma StepReturns(m: M)
    requires Inv(m) && m.st[m.cur] == Running && m.loc[m.cur] == Waits
    ensures Inv(At(m, User))
  {
    hide CountsOk, ProcSound;
    assert ProcOk(m, m.cur);
    StateOnly(m, At(m, User));
  }

  lemma StepAsks(m: M, b: int)
    requires Inv(m) && m.st[m.cur] == Running && m.loc[m.cur] == ExecCode(b)
    ensures Inv(At(m, ExecPage(b)))
  {
    hide CountsOk, ProcSound;
    assert ProcOk(m, m.cur);
    StateOnly(m, At(m, ExecPage(b)));
  }

  /** Every step keeps the counts exact. */
  lemma StepKeeps(m: M, e: Event)
    requires Inv(m) && Enabled(m, e)
    ensures Inv(After(m, e))
  {
    hide CountsOk, ProcOk, Turned, StartFork, StartExec, ExitProcess;
    match e {
      case Fork => StepFork(m);
      case Exec(b) => StepExec(m, b);
      case Exit => StepExit(m);
      case Turn(rest) => StepTurn(m, rest);
      case Dispatch(q) => StepDispatch(m, q);
      case WaitFor(_) => StepSmall(m, e);
      case Signal => StepSmall(m, e);
      case Preempt => StepSmall(m, e);
      case DiskDone => StepSmall(m, e);
    }
  }
}
