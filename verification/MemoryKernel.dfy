/** Memory pages in the kernel: the free list with its reference counts, and fork,
    exec, exit and wait cut at the points where they can yield
    (code/Modules/memory_manager.spl, process_manager.spl, code/Interrupt/int_8.spl,
    int_9.spl, int_10.spl, int_11.spl). */
module MemoryKernel {
  import Scheduler

  const NPROC := Scheduler.NPROC
  const NFRAME := 128
  const ENTRIES := 10
  const LIB0 := 63
  const LIB1 := 64

  datatype PState = Ready | Running | Created | Terminated | Allocated | WaitMem | WaitProcess | WaitDisk

  /** A page table entry; valid is an auxiliary word other than "0000". */
  datatype Entry = Entry(frame: int, valid: bool)

  const None := Entry(-1, false)

  /** What a process has of memory: its page table, its user area page (-1 when it has
      none) and a code page taken but not yet in the page table (-1 when there is none). */
  datatype Proc = Proc(pt: seq<Entry>, area: int, held: int)

  /** Where a process stands. The fork locations name the child, the exec locations the
      disk block of the first code page. */
  datatype Loc =
    | User
    | ForkHeap1(c: nat)
    | ForkHeap2(c: nat)
    | ForkArea(c: nat)
    | ForkStack1(c: nat)
    | ForkStack2(c: nat)
    | ExecStack1(b: int)
    | ExecStack2(b: int)
    | ExecCode(b: int)
    | ExecPage(b: int)
    | ExecLoad(b: int)
    | Waits

  datatype M = M(
    count: seq<int>,
    free: int,
    mem: seq<Proc>,
    diskMap: seq<seq<int>>,
    st: seq<PState>,
    wait: seq<int>,
    loc: seq<Loc>,
    cur: nat)

  predicate Sized(m: M) {
    && |m.count| == NFRAME && |m.mem| == NPROC && |m.diskMap| == NPROC && |m.st| == NPROC
    && |m.wait| == NPROC && |m.loc| == NPROC && m.cur < NPROC
    && (forall p | 0 <= p < NPROC :: |m.mem[p].pt| == ENTRIES && |m.diskMap[p]| == 4)
  }

  predicate IsLib(f: int) {
    f == LIB0 || f == LIB1
  }

  // ---- memory manager, functions 1 and 2

  /** The first frame at or after f with count zero, 128 when there is none. */
  function FirstZero(count: seq<int>, f: nat): (r: nat)
    requires f <= |count| == NFRAME
    ensures f <= r <= NFRAME && (r < NFRAME ==> count[r] == 0)
    ensures forall g | f <= g < r :: count[g] != 0
    decreases NFRAME - f
  {
    if f == NFRAME || count[f] == 0 then f else FirstZero(count, f + 1)
  }

  function WokenFor(m: M, w: PState, any: bool, x: int, from: nat): (r: seq<PState>)
    requires Sized(m)
    ensures |r| == NPROC
    ensures forall p | 0 <= p < NPROC ::
        r[p] == if p >= from && m.st[p] == w && (any || m.wait[p] == x) then Ready else m.st[p]
  {
    seq(NPROC, p requires 0 <= p < NPROC =>
      if p >= from && m.st[p] == w && (any || m.wait[p] == x) then Ready else m.st[p])
  }

  function Release(m: M, f: nat): (r: M)
    requires Sized(m) && f < NFRAME
    ensures Sized(r)
  {
    var c := m.count[f := m.count[f] - 1];
    if c[f] == 0 then m.(count := c, free := m.free + 1, st := WokenFor(m, WaitMem, true, 0, 1)) else m.(count := c)
  }

  /** The frame that get free page takes, or 128 when the caller has to wait. */
  function Grant(m: M): (r: nat)
    requires Sized(m)
    ensures r <= NFRAME
  {
    if m.free == 0 then NFRAME else FirstZero(m.count, 0)
  }

  function Taken(m: M, f: nat): (r: M)
    requires Sized(m) && f < NFRAME
    ensures Sized(r)
  {
    m.(count := m.count[f := 1], free := m.free - 1)
  }

  function Asleep(m: M): (r: M)
    requires Sized(m)
    ensures Sized(r)
  {
    m.(st := m.st[m.cur := WaitMem])
  }

  function SetProc(m: M, p: nat, q: Proc): (r: M)
    requires Sized(m) && p < NPROC && |q.pt| == ENTRIES
    ensures Sized(r)
  {
    m.(mem := m.mem[p := q])
  }

  function SetEntry(m: M, p: nat, i: nat, e: Entry): (r: M)
    requires Sized(m) && p < NPROC && i < ENTRIES
    ensures Sized(r)
  {
    SetProc(m, p, m.mem[p].(pt := m.mem[p].pt[i := e]))
  }

  function At(m: M, l: Loc): (r: M)
    requires Sized(m)
    ensures Sized(r)
  {
    m.(loc := m.loc[m.cur := l])
  }

  // ---- process manager

  /** Free page table from entry i on. */
  function FreeEntries(m: M, p: nat, i: nat): (r: M)
    requires Sized(m) && p < NPROC && 2 <= i <= ENTRIES
    ensures Sized(r)
    decreases ENTRIES - i
  {
    if i == ENTRIES then m
    else
      var e := m.mem[p].pt[i];
      if e.valid && 0 <= e.frame < NFRAME then FreeEntries(SetEntry(Release(m, e.frame), p, i, None), p, i + 1)
      else FreeEntries(m, p, i + 1)
  }

  function FreePageTable(m: M, p: nat): (r: M)
    requires Sized(m) && p < NPROC
    ensures Sized(r)
  {
    var m1 := FreeEntries(SetEntry(SetEntry(m, p, 0, None), p, 1, None), p, 2);
    m1.(diskMap := m1.diskMap[p := [-1, -1, -1, -1]])
  }

  function FreeArea(m: M, p: nat): (r: M)
    requires Sized(m) && p < NPROC
    ensures Sized(r)
  {
    var a := m.mem[p].area;
    if 0 <= a < NFRAME then SetProc(Release(m, a), p, m.mem[p].(area := -1)) else m
  }

  /** Exit process: everything freed; unless called by exec, those who wait for the
      process become ready. */
  function ExitProcess(m: M, p: nat, exec: bool): (r: M)
    requires Sized(m) && p < NPROC
    ensures Sized(r)
  {
    var m1 := FreeArea(FreePageTable(m, p), p);
    var m2 := m1.(st := m1.st[p := Terminated]);
    if exec then m2 else m2.(st := WokenFor(m2, WaitProcess, false, p, 0))
  }

  // ---- fork

  function FirstTerminated(st: seq<PState>, c: nat): (r: nat)
    requires c <= |st| == NPROC
    ensures c <= r <= NPROC && (r < NPROC ==> st[r] == Terminated)
    decreases NPROC - c
  {
    if c == NPROC || st[c] == Terminated then c else FirstTerminated(st, c + 1)
  }

  function StartFork(m: M): (r: M)
    requires Sized(m)
    ensures Sized(r)
  {
    var c := FirstTerminated(m.st, 1);
    if c == NPROC then m
    else
      At(m.(st := m.st[c := Allocated]), if m.mem[m.cur].pt[2].valid then ForkArea(c) else ForkHeap1(c))
  }

  /** The counts after the first n entries of a page table are copied: one more for
      every frame named, valid or not (int_8.spl:95-103). */
  function CopyCounts(count: seq<int>, pt: seq<Entry>, n: nat): (r: seq<int>)
    requires |count| == NFRAME && n <= |pt|
    ensures |r| == NFRAME
  {
    if n == 0 then count
    else
      var c := CopyCounts(count, pt, n - 1);
      var f := pt[n - 1].frame;
      if 0 <= f < NFRAME then c[f := c[f] + 1] else c
  }

  /** With the child's user area page f in hand: fill the child's entries 0 to 7. */
  function ForkCopied(m: M, c: nat, f: nat): (r: M)
    requires Sized(m) && c < NPROC && f < NFRAME
    ensures Sized(r)
  {
    var parent := m.mem[m.cur].pt;
    var m1 := m.(count := CopyCounts(m.count, parent, 8), diskMap := m.diskMap[c := m.diskMap[m.cur]]);
    SetProc(m1, c, m.mem[c].(area := f, pt := parent[..8] + m.mem[c].pt[8..]))
  }

  // ---- exec

  /** Exit, take the user area page back, give the library its entries. */
  function StartExec(m: M, b: int): (r: M)
    requires Sized(m)
    ensures Sized(r)
  {
    var p := m.cur;
    var a := m.mem[p].area;
    var m1 := ExitProcess(m, p, true);
    if !(0 <= a < NFRAME) then m1
    else
      var m2 := m1.(free := m1.free - 1, count := m1.count[a := m1.count[a] + 1], st := m1.st[p := Running]);
      var m3 := SetProc(m2, p, m2.mem[p].(area := a, pt := m2.mem[p].pt[0 := Entry(LIB0, true)][1 := Entry(LIB1, true)]));
      At(m3, ExecStack1(b))
  }

  /** Process r maps the code block b in code entry j and has it in memory. */
  predicate HasCode(m: M, r: nat, j: nat, b: int)
    requires Sized(m) && r < NPROC && j < 4
  {
    m.diskMap[r][j] == b && m.mem[r].pt[4 + j].valid
  }

  /** The first match at or after entry j of process r, in the order of the nested
      loops of get code page; 16 when there is none. */
  function FindCode(m: M, b: int, r: nat, j: nat): (res: (nat, nat))
    requires Sized(m) && r <= NPROC && j <= 4
    ensures res.0 < NPROC ==> res.1 < 4 && HasCode(m, res.0, res.1, b)
    ensures res.0 <= NPROC
    decreases NPROC - r, 4 - j
  {
    if r == NPROC then (NPROC, 0)
    else if j == 4 then FindCode(m, b, r + 1, 0)
    else if HasCode(m, r, j, b) then (r, j)
    else FindCode(m, b, r, j + 1)
  }

  /** The code page is in hand: exec ends. The disk map names the file's blocks. */
  function EndExec(m: M, b: int, f: int, rest: seq<int>): (r: M)
    requires Sized(m) && |rest| == 3
    ensures Sized(r)
  {
    var m1 := SetEntry(m, m.cur, 4, Entry(f, true)).(diskMap := m.diskMap[m.cur := [b] + rest]);
    At(SetProc(m1, m.cur, m1.mem[m.cur].(held := -1)), User)
  }

  // ---- one turn of the running process

  function Turned(m: M, rest: seq<int>): (r: M)
    requires Sized(m) && |rest| == 3
    ensures Sized(r)
  {
    var p := m.cur;
    var f := Grant(m);
    match m.loc[p]
    case User => m
    case ForkHeap1(c) => if f == NFRAME then Asleep(m) else At(SetEntry(Taken(m, f), p, 2, Entry(f, true)), ForkHeap2(c))
    case ForkHeap2(c) => if f == NFRAME then Asleep(m) else At(SetEntry(Taken(m, f), p, 3, Entry(f, true)), ForkArea(c))
    case ForkArea(c) =>
      if f == NFRAME || c >= NPROC then Asleep(m) else At(ForkCopied(Taken(m, f), c, f), ForkStack1(c))
    case ForkStack1(c) =>
      if f == NFRAME || c >= NPROC then Asleep(m)
      else At(SetEntry(Taken(m, f), c, 8, Entry(f, m.mem[p].pt[8].valid)), ForkStack2(c))
    case ForkStack2(c) =>
      if f == NFRAME || c >= NPROC then Asleep(m)
      else
        var m1 := SetEntry(Taken(m, f), c, 9, Entry(f, m.mem[p].pt[9].valid));
        At(m1.(st := m1.st[c := Created]), User)
    case ExecStack1(b) => if f == NFRAME then Asleep(m) else At(SetEntry(Taken(m, f), p, 8, Entry(f, true)), ExecStack2(b))
    case ExecStack2(b) => if f == NFRAME then Asleep(m) else At(SetEntry(Taken(m, f), p, 9, Entry(f, true)), ExecCode(b))
    case ExecCode(b) =>
      var (r, j) := FindCode(m, b, 0, 0);
      if r == NPROC then At(m, ExecPage(b))
      else
        var g := m.mem[r].pt[4 + j].frame;
        if 0 <= g < NFRAME then EndExec(m.(count := m.count[g := m.count[g] + 1]), b, g, rest) else m
    case ExecPage(b) =>
      if f == NFRAME then Asleep(m)
      else At(SetProc(Taken(m, f), p, m.mem[p].(held := f)).(st := m.st[p := WaitDisk]), ExecLoad(b))
    case ExecLoad(b) => EndExec(m, b, m.mem[p].held, rest)
    case Waits => At(m, User)
  }

  // ---- events

  datatype Event =
    | Fork
    | Exec(b: int)
    | Exit
    | WaitFor(q: nat)
    | Signal
    | Turn(rest: seq<int>)
    | Preempt
    | Dispatch(q: nat)
    | DiskDone

  predicate InUserMode(m: M)
    requires Sized(m)
  {
    m.st[m.cur] == Running && m.loc[m.cur] == User
  }

  /** Process 0, the idle program, makes no system call. */
  predicate Enabled(m: M, e: Event)
    requires Sized(m)
  {
    match e
    case Fork => InUserMode(m) && m.cur >= 1
    case Exec(b) => InUserMode(m) && m.cur >= 1
    case Exit => InUserMode(m) && m.cur >= 1
    case WaitFor(q) => InUserMode(m) && m.cur >= 1 && q < NPROC && q != m.cur && m.st[q] != Terminated
    case Signal => InUserMode(m) && m.cur >= 1
    case Turn(rest) => m.st[m.cur] == Running && m.loc[m.cur] != User && |rest| == 3
    case Preempt => InUserMode(m)
    case Dispatch(q) => m.st[m.cur] != Running && q < NPROC && m.st[q] in {Ready, Created}
    case DiskDone => InUserMode(m)
  }

  function After(m: M, e: Event): (r: M)
    requires Sized(m) && Enabled(m, e)
    ensures Sized(r)
  {
    match e
    case Fork => StartFork(m)
    case Exec(b) => StartExec(m, b)
    case Exit => ExitProcess(m, m.cur, false)
    case WaitFor(q) => At(m.(st := m.st[m.cur := WaitProcess], wait := m.wait[m.cur := q]), Waits)
    case Signal => m.(st := WokenFor(m, WaitProcess, false, m.cur, 0))
    case Turn(rest) => Turned(m, rest)
    case Preempt => m.(st := m.st[m.cur := Ready])
    case Dispatch(q) => m.(st := m.st[q := Running], cur := q)
    case DiskDone => m.(st := WokenFor(m, WaitDisk, true, 0, 1))
  }

  // ---- what the counts mean

  /** Frames that belong to the kernel for good; the frames of idle and init are in
      use by their page tables and user areas. */
  function Reserve(f: int): nat {
    if 0 <= f < 76 && f !in {65, 66, 69, 70} then 1 else 0
  }

  /** How often entries n to 9 name frame f. */
  function Named(pt: seq<Entry>, n: nat, f: int): nat
    requires n <= |pt|
    decreases |pt| - n
  {
    if n == |pt| then 0 else (if pt[n].valid && pt[n].frame == f then 1 else 0) + Named(pt, n + 1, f)
  }

  function UsesOf(q: Proc, f: int): nat
    requires |q.pt| == ENTRIES
  {
    Named(q.pt, 2, f) + (if q.area == f >= 0 then 1 else 0) + (if q.held == f >= 0 then 1 else 0)
  }

  /** Valid page table entries, user areas and pages in hand, over all processes. */
  function Uses(mem: seq<Proc>, f: int): nat
    requires forall q | q in mem :: |q.pt| == ENTRIES
  {
    if mem == [] then 0 else Uses(mem[..|mem| - 1], f) + UsesOf(mem[|mem| - 1], f)
  }

  function Zeros(count: seq<int>): nat {
    if count == [] then 0 else Zeros(count[..|count| - 1]) + (if count[|count| - 1] == 0 then 1 else 0)
  }

  predicate FrameOk(m: M, f: int)
    requires Sized(m) && 0 <= f < NFRAME
  {
    if IsLib(f) then m.count[f] >= 1 else m.count[f] == Reserve(f) + Uses(m.mem, f)
  }

  /** Every frame is counted exactly, and the free count is the number of zero counts. */
  predicate CountsOk(m: M)
    requires Sized(m)
  {
    (forall f | 0 <= f < NFRAME :: FrameOk(m, f)) && m.free == Zeros(m.count)
  }

  predicate EntryOk(e: Entry, i: nat) {
    if e.valid then 0 <= e.frame < NFRAME && (IsLib(e.frame) <==> i < 2) else e == None
  }

  predicate PageOk(f: int) {
    f == -1 || (0 <= f < NFRAME && !IsLib(f))
  }

  predicate ProcSound(q: Proc) {
    |q.pt| == ENTRIES && (forall i | 0 <= i < ENTRIES :: EntryOk(q.pt[i], i)) && PageOk(q.area) && PageOk(q.held)
  }

  predicate Empty(q: Proc) {
    q.area == -1 && q.held == -1 && |q.pt| == ENTRIES && forall i | 0 <= i < ENTRIES :: q.pt[i] == None
  }

  function ChildOf(l: Loc): int {
    match l
    case ForkHeap1(c) => c
    case ForkHeap2(c) => c
    case ForkArea(c) => c
    case ForkStack1(c) => c
    case ForkStack2(c) => c
    case _ => -1
  }

  predicate WantsPage(l: Loc) {
    ChildOf(l) >= 0 || l.ExecStack1? || l.ExecStack2? || l.ExecPage?
  }

  /** What the page table of a process looks like where it stands. */
  predicate PagesOk(m: M, p: nat)
    requires Sized(m) && p < NPROC
  {
    var q := m.mem[p];
    match m.loc[p]
    case User => (m.st[p] in {Terminated, Allocated} || (q.area >= 0 && q.held == -1 && q.pt[2].valid == q.pt[3].valid && (p == 0 || (q.pt[8].valid && q.pt[9].valid))))
    case Waits => q.area >= 0 && q.held == -1 && q.pt[2].valid == q.pt[3].valid && q.pt[8].valid && q.pt[9].valid
    case ForkHeap1(c) => q.area >= 0 && q.held == -1 && q.pt[8].valid && q.pt[9].valid && !q.pt[2].valid && !q.pt[3].valid
    case ForkHeap2(c) => q.area >= 0 && q.held == -1 && q.pt[8].valid && q.pt[9].valid && q.pt[2].valid && !q.pt[3].valid
    case ExecStack1(_) => q.area >= 0 && q.held == -1 && forall i | 2 <= i < ENTRIES :: !q.pt[i].valid
    case ExecStack2(_) => q.area >= 0 && q.held == -1 && q.pt[8].valid && forall i | 2 <= i < ENTRIES && i != 8 :: !q.pt[i].valid
    case ExecCode(_) => q.area >= 0 && q.held == -1 && q.pt[8].valid && q.pt[9].valid && forall i | 2 <= i < 8 :: !q.pt[i].valid
    case ExecPage(_) => q.area >= 0 && q.held == -1 && q.pt[8].valid && q.pt[9].valid && forall i | 2 <= i < 8 :: !q.pt[i].valid
    case ExecLoad(_) => q.area >= 0 && q.held >= 0 && q.pt[8].valid && q.pt[9].valid && forall i | 2 <= i < 8 :: !q.pt[i].valid
    case _ => q.area >= 0 && q.held == -1 && q.pt[2].valid == q.pt[3].valid && q.pt[8].valid && q.pt[9].valid
  }

  /** The child of a fork in progress has what the fork has given it so far. */
  predicate ChildOk(m: M, l: Loc)
    requires Sized(m)
  {
    var c := ChildOf(l);
    c >= 0 ==>
      && 1 <= c < NPROC && m.st[c] == Allocated
      && m.mem[c].pt[2].valid == m.mem[c].pt[3].valid
      && match l
         case ForkStack1(_) => m.mem[c].area >= 0 && m.mem[c].held == -1 && !m.mem[c].pt[8].valid && !m.mem[c].pt[9].valid
         case ForkStack2(_) => m.mem[c].area >= 0 && m.mem[c].held == -1 && m.mem[c].pt[8].valid && !m.mem[c].pt[9].valid
         case _ => Empty(m.mem[c])
  }

  predicate StateOk(m: M, p: nat)
    requires Sized(m) && p < NPROC
  {
    && (m.st[p] == Running ==> p == m.cur)
    && (p == 0 ==> m.loc[p] == User && m.st[p] in {Ready, Running})
    && (m.st[p] == Terminated ==> m.loc[p] == User && Empty(m.mem[p]))
    && (m.st[p] in {Allocated, Created} ==> m.loc[p] == User)
    && (m.st[p] == WaitMem ==> WantsPage(m.loc[p]) && m.free == 0)
    && (m.st[p] == WaitProcess ==> m.loc[p] == Waits && 0 <= m.wait[p] < NPROC && m.wait[p] != p && m.st[m.wait[p]] != Terminated)
    && (m.st[p] == WaitDisk ==> m.loc[p].ExecLoad?)
  }

  predicate AreaOk(m: M, p: nat)
    requires Sized(m) && p < NPROC
  {
    0 <= m.mem[p].area < NFRAME ==> m.count[m.mem[p].area] == 1
  }

  predicate ProcOk(m: M, p: nat)
    requires Sized(m) && p < NPROC
  {
    ProcSound(m.mem[p]) && StateOk(m, p) && PagesOk(m, p) && ChildOk(m, m.loc[p]) && AreaOk(m, p)
  }

  predicate OneParent(m: M)
    requires Sized(m)
  {
    forall p, q | 0 <= p < NPROC && 0 <= q < NPROC && p != q && ChildOf(m.loc[p]) >= 0 :: ChildOf(m.loc[p]) != ChildOf(m.loc[q])
  }

  function Inv(m: M): (r: bool)
    ensures r ==> Sized(m)
  {
    Sized(m) && CountsOk(m) && (forall p | 0 <= p < NPROC :: ProcOk(m, p)) && OneParent(m)
  }
}
