/** The kernel's file and disk code as a cooperative transition system: the
    buffered read and write of code/Modules/file_manager.spl, the device manager's
    transfers, the system calls that nest the inode, buffer and disk locks, and the
    interrupts that the machine takes in user mode only.

    A location says where in the kernel a process stands. Locations whose name
    starts with Hold, Access and EndInode lie strictly between two yields: a process
    is there only while it runs, and nothing else happens until it leaves. */
module IoKernel {
  import opened Words
  import opened ResourceManager

  type Page = p: seq<Word> | |p| == 512 witness seq(512, _ => Int(0))

  const BUFFER_BASE := 71
  const FREE_AREA := 69
  const SWAP_AREA := 256
  const NBLOCK := 512
  const NPAGE := 128
  const MAX_FILE_SIZE := 2048
  const INODE_ROOT := 0
  const ROOT_BLOCK := 5

  datatype Put = Nothing | Store(w: Word)

  /** A buffered access of the word at position `at` of a file, which is word
      at % 512 of the block: a read, or the write of a word. */
  datatype Op = Op(at: nat, block: nat, put: Put)

  /** What a system call does once it holds the inode: nothing to blocks (open,
      seek), read or write a word, delete. */
  datatype Body = Plain | Reading | Writing(w: Word) | Deleting(open: bool)

  /** The body changes the file; the source lets it do so to no root file (int_7.spl:57-60,
      int_4.spl:89-92). */
  predicate Changes(body: Body) {
    body.Writing? || body.Deleting?
  }

  datatype Loc =
    | User
    | WantInode(i: nat, body: Body)
    | HoldInode(i: nat, body: Body)
    | WantBuffer(i: nat, op: Op)
    | HoldBuffer(i: nat, op: Op)
    | WantStore(i: nat, op: Op, tagged: int)
    | Storing(i: nat, op: Op, tagged: int)
    | WantLoad(i: nat, op: Op)
    | Loading(i: nat, op: Op)
    | Access(i: nat, op: Op)
    | EndInode(i: nat, op: Op)
    | WantTerminal(reading: bool)
    | HoldTerminal
    | TermReading
    | WantPage(page: nat, block: nat)
    | LoadingPage(page: nat, block: nat)

  datatype Hw = Idle | Busy(store: bool, page: nat, block: nat)

  datatype K = K(
    t: Tables,
    loc: seq<Loc>,
    cur: nat,
    blocks: seq<seq<int>>,
    size: seq<int>,
    used: seq<bool>,
    tag: seq<int>,
    dirty: seq<bool>,
    hw: Hw,
    console: bool,
    frames: seq<Page>,
    disk: seq<Page>,
    got: seq<Word>)

  predicate Shape(k: K) {
    && Sized(k.t) && |k.loc| == NPROC && k.cur < NPROC && |k.got| == NPROC
    && |k.blocks| == NINODE && |k.size| == NINODE && |k.used| == NBLOCK
    && |k.tag| == NBUF && |k.dirty| == NBUF && |k.frames| == NPAGE && |k.disk| == NBLOCK
    && forall i | 0 <= i < NINODE :: |k.blocks[i]| == 4
  }

  function Slot(op: Op): nat {
    op.block % 4
  }

  function At(k: K, l: Loc): (r: K)
    requires Shape(k)
    ensures Shape(r)
  {
    k.(loc := k.loc[k.cur := l])
  }

  // ---- one turn of the running process, up to its next yield or a point between two yields

  function Wanting(k: K, tg: (Tables, Got), taken: Loc): (r: K)
    requires Shape(k) && Sized(tg.0)
    ensures Shape(r)
  {
    var k1 := k.(t := tg.0);
    match tg.1
    case Asleep => k1
    case Taken => k1.(loc := k.loc[k.cur := taken])
    case Gone => k1.(loc := k.loc[k.cur := User])
  }

  /** The machine ignores a disk request made while another is in progress
      (machine_schedule_disk). */
  function Issue(k: K, store: bool, page: nat, block: nat): Hw {
    if k.hw.Busy? then k.hw else Busy(store, page, block)
  }

  /** Acquire the disk, hand the transfer to the hardware and wait. */
  function Transfer(k: K, store: bool, page: nat, block: nat, l: Loc): (r: K)
    requires Shape(k)
    ensures Shape(r)
  {
    var (t1, got) := AcquireDisk(k.t, k.cur);
    if got.Asleep? then k.(t := t1)
    else k.(t := t1.(st := t1.st[k.cur := WaitDisk]), hw := Issue(k, store, page, block), loc := k.loc[k.cur := l])
  }

  function LeaveInode(k: K, i: nat): (r: K)
    requires Shape(k) && i < NINODE
    ensures Shape(r)
  {
    k.(t := ReleaseInode(k.t, i, k.cur), loc := k.loc[k.cur := User])
  }

  /** The first free block of the data area, or -1 (memory manager, function 3). */
  function FirstFree(used: seq<bool>, b: nat): (r: int)
    requires b <= SWAP_AREA <= |used|
    ensures r == -1 || (b <= r < SWAP_AREA && !used[r])
    ensures r == -1 ==> forall x | b <= x < SWAP_AREA :: used[x]
    decreases SWAP_AREA - b
  {
    if b == SWAP_AREA then -1 else if !used[b] then b else FirstFree(used, b + 1)
  }

  predicate Grows(k: K, i: nat, at: nat)
    requires Shape(k) && i < NINODE
  {
    at % 512 == 0 && at == k.size[i]
  }

  /** A write at the end of a block-aligned file first gets a new block. */
  function Grown(k: K, i: nat, at: nat): (r: K)
    requires Shape(k) && i < NINODE && at < MAX_FILE_SIZE
    ensures Shape(r)
  {
    var b := FirstFree(k.used, FREE_AREA);
    if Grows(k, i, at) && b != -1 then
      k.(used := k.used[b := true], blocks := k.blocks[i := k.blocks[i][at / 512 := b]])
    else k
  }

  /** Delete: forget dirty buffers of the file's blocks, free the blocks, clear the
      inode entry. */
  function Deleted(k: K, i: nat): (r: K)
    requires Shape(k) && i < NINODE
    ensures Shape(r)
  {
    k.(dirty := seq(NBUF, s requires 0 <= s < NBUF => k.dirty[s] && !(k.tag[s] >= 0 && k.tag[s] in k.blocks[i])),
       used := seq(NBLOCK, b requires 0 <= b < NBLOCK => k.used[b] && b !in k.blocks[i]),
       blocks := k.blocks[i := [-1, -1, -1, -1]],
       size := k.size[i := -1],
       t := k.t.(named := k.t.named[i := false]))
  }

  function WithInode(k: K, i: nat, body: Body, at: nat): (r: K)
    requires Shape(k) && i < NINODE && at <= MAX_FILE_SIZE
    ensures Shape(r)
  {
    match body
    case Plain => LeaveInode(k, i)
    case Reading =>
      if i == INODE_ROOT || at == k.size[i] || at == MAX_FILE_SIZE then LeaveInode(k, i)
      else if k.blocks[i][at / 512] < 0 then k
      else At(k, WantBuffer(i, Op(at, k.blocks[i][at / 512], Nothing)))
    case Writing(w) =>
      if at == MAX_FILE_SIZE then k
      else
        var k1 := Grown(k, i, at);
        if k1.blocks[i][at / 512] < 0 then k else At(k1, WantBuffer(i, Op(at, k1.blocks[i][at / 512], Store(w))))
    case Deleting(open) => if open then LeaveInode(k, i) else LeaveInode(Deleted(k, i), i)
  }

  function WithBuffer(k: K, i: nat, op: Op): (r: K)
    requires Shape(k)
    ensures Shape(r)
  {
    var s := Slot(op);
    if k.tag[s] == op.block then At(k, Access(i, op))
    else if k.dirty[s] then At(k, WantStore(i, op, k.tag[s]))
    else At(k, WantLoad(i, op))
  }

  function Touch(k: K, i: nat, op: Op): (r: K)
    requires Shape(k)
    ensures Shape(r)
  {
    var s := Slot(op);
    var f := BUFFER_BASE + s;
    var k1 := At(k.(t := ReleaseBuffer(k.t, s, k.cur)), EndInode(i, op));
    match op.put
    case Nothing => k1.(got := k.got[k.cur := k.frames[f][op.at % 512]])
    case Store(w) => k1.(frames := k.frames[f := k.frames[f][op.at % 512 := w]], dirty := k.dirty[s := true])
  }

  function Finish(k: K, i: nat, op: Op): (r: K)
    requires Shape(k) && i < NINODE
    ensures Shape(r)
  {
    LeaveInode(if op.put.Store? && op.at == k.size[i] then k.(size := k.size[i := k.size[i] + 1]) else k, i)
  }

  predicate InRange(l: Loc) {
    match l
    case WantInode(i, _) => i < NINODE
    case HoldInode(i, _) => i < NINODE
    case WantStore(i, _, b) => 0 <= b < NBLOCK
    case Storing(i, _, b) => 0 <= b < NBLOCK
    case EndInode(i, _) => i < NINODE
    case _ => true
  }

  function Turned(k: K, at: nat): (r: K)
    requires Shape(k) && InRange(k.loc[k.cur]) && at <= MAX_FILE_SIZE
    ensures Shape(r)
  {
    var p := k.cur;
    match k.loc[p]
    case User => k
    case WantInode(i, body) => Wanting(k, AcquireInode(k.t, i, p), HoldInode(i, body))
    case HoldInode(i, body) => WithInode(k, i, body, at)
    case WantBuffer(i, op) => Wanting(k, AcquireBuffer(k.t, Slot(op), p), HoldBuffer(i, op))
    case HoldBuffer(i, op) => WithBuffer(k, i, op)
    case WantStore(i, op, b) => Transfer(k, true, BUFFER_BASE + Slot(op), b, Storing(i, op, b))
    case Storing(i, op, b) => At(k.(dirty := k.dirty[Slot(op) := false]), WantLoad(i, op))
    case WantLoad(i, op) => Transfer(k, false, BUFFER_BASE + Slot(op), op.block, Loading(i, op))
    case Loading(i, op) => At(k.(tag := k.tag[Slot(op) := op.block]), Access(i, op))
    case Access(i, op) => Touch(k, i, op)
    case EndInode(i, op) => Finish(k, i, op)
    case WantTerminal(reading) =>
      var (t1, got) := AcquireTerminal(k.t, p);
      if got.Asleep? then k.(t := t1)
      else if !reading then At(k.(t := t1), HoldTerminal)
      else At(k.(t := t1.(st := t1.st[p := WaitTerminal]), console := true), TermReading)
    case HoldTerminal => At(k.(t := ReleaseTerminal(k.t, p)), User)
    case TermReading => At(k, User)
    case WantPage(page, block) => Transfer(k, false, page, block, LoadingPage(page, block))
    case LoadingPage(page, block) => At(k, User)
  }

  // ---- events

  datatype Event =
    | Call(l: Loc)
    | Turn(at: nat)
    | Preempt
    | Dispatch(q: nat)
    | DiskDone
    | ConsoleDone
    | Create(i: nat)
    | Fork(child: nat)
    | Exit

  predicate EntryPoint(l: Loc) {
    match l
    case WantInode(i, body) => i < NINODE && (Changes(body) ==> i != INODE_ROOT)
    case WantTerminal(_) => true
    case WantPage(page, block) => page < NPAGE && block < NBLOCK && !(BUFFER_BASE <= page < BUFFER_BASE + NBUF)
    case _ => false
  }

  predicate InUserMode(k: K)
    requires Shape(k)
  {
    k.t.st[k.cur] == Running && k.loc[k.cur] == User
  }

  /** A position that the open file table can hold lies within the file. A write
      that finds no room (int_7.spl:87, 102) returns early and is Abandoned below. */
  predicate HasRoom(k: K, i: nat, at: nat)
    requires Shape(k) && i < NINODE
  {
    at < MAX_FILE_SIZE && (Grows(k, i, at) ==> FirstFree(k.used, FREE_AREA) != -1)
  }

  predicate PositionOk(k: K, l: Loc, at: nat)
    requires Shape(k)
  {
    match l
    case HoldInode(i, body) => i < NINODE && at <= k.size[i] && (body.Writing? ==> HasRoom(k, i, at))
    case _ => true
  }

  /** Process 0, the idle program, makes no system call. */
  predicate Enabled(k: K, e: Event)
    requires Shape(k)
  {
    match e
    case Call(l) => InUserMode(k) && k.cur >= 1 && EntryPoint(l)
    case Turn(at) =>
      && k.t.st[k.cur] == Running && k.loc[k.cur] != User
      && InRange(k.loc[k.cur]) && at <= MAX_FILE_SIZE && PositionOk(k, k.loc[k.cur], at)
    case Preempt => InUserMode(k)
    case Dispatch(q) => k.t.st[k.cur] != Running && q < NPROC && k.t.st[q] in {Ready, Created}
    case DiskDone => InUserMode(k) && k.hw.Busy? && k.hw.page < NPAGE && k.hw.block < NBLOCK
    case ConsoleDone => InUserMode(k) && k.console
    case Create(i) => InUserMode(k) && k.cur >= 1 && i < NINODE && !k.t.named[i]
    case Fork(c) => InUserMode(k) && 1 <= c < NPROC && k.t.st[c] == Terminated
    case Exit => InUserMode(k) && k.cur >= 1
  }

  function SetState(k: K, p: nat, s: PState): (r: K)
    requires Shape(k) && p < NPROC
    ensures Shape(r)
  {
    k.(t := k.t.(st := k.t.st[p := s]))
  }

  /** The hardware moves the page and the handler frees the disk. */
  function Completed(k: K): (r: K)
    requires Shape(k) && k.hw.Busy? && k.hw.page < NPAGE && k.hw.block < NBLOCK
    ensures Shape(r)
  {
    var k1 := k.(hw := Idle, t := DiskInterrupt(k.t));
    if k.hw.store then k1.(disk := k.disk[k.hw.block := k.frames[k.hw.page]])
    else k1.(frames := k.frames[k.hw.page := k.disk[k.hw.block]])
  }

  function After(k: K, e: Event): (r: K)
    requires Shape(k) && Enabled(k, e)
    ensures Shape(r)
  {
    match e
    case Call(l) => At(k, l)
    case Turn(at) => Turned(k, at)
    case Preempt => SetState(k, k.cur, Ready)
    case Dispatch(q) => SetState(k, q, Running).(cur := q)
    case DiskDone => Completed(k)
    case ConsoleDone => k.(console := false, t := ReleaseTerminal(k.t, k.t.termOwner))
    case Create(i) => k.(t := k.t.(named := k.t.named[i := true]), size := k.size[i := 0], blocks := k.blocks[i := [-1, -1, -1, -1]])
    case Fork(c) => SetState(k, c, Created)
    case Exit => SetState(k, k.cur, Terminated)
  }

  // ---- the invariant

  predicate Active(s: PState) {
    s == Ready || s == Running
  }

  function InodeOf(l: Loc): (r: int)
    ensures -1 <= r
  {
    match l
    case HoldInode(i, _) => i
    case WantBuffer(i, _) => i
    case HoldBuffer(i, _) => i
    case WantStore(i, _, _) => i
    case Storing(i, _, _) => i
    case WantLoad(i, _) => i
    case Loading(i, _) => i
    case Access(i, _) => i
    case EndInode(i, _) => i
    case _ => -1
  }

  function BufferOf(l: Loc): (r: int)
    ensures -1 <= r < NBUF
  {
    match l
    case HoldBuffer(_, op) => Slot(op)
    case WantStore(_, op, _) => Slot(op)
    case Storing(_, op, _) => Slot(op)
    case WantLoad(_, op) => Slot(op)
    case Loading(_, op) => Slot(op)
    case Access(_, op) => Slot(op)
    case _ => -1
  }

  /** The transfer a process at this location has handed to the hardware. */
  function Request(l: Loc): (r: Hw)
    ensures r.Busy? && BufferOf(l) >= 0 ==> r.page == BUFFER_BASE + BufferOf(l)
  {
    match l
    case Storing(_, op, b) => if b >= 0 then Busy(true, BUFFER_BASE + Slot(op), b) else Idle
    case Loading(_, op) => Busy(false, BUFFER_BASE + Slot(op), op.block)
    case LoadingPage(page, block) => Busy(false, page, block)
    case _ => Idle
  }

  /** The access is to a block of the locked inode, within the file or, for a write, at
      its end. */
  predicate OpOk(k: K, i: nat, op: Op)
    requires Shape(k)
  {
    && i < NINODE && op.at < MAX_FILE_SIZE && op.block < NBLOCK && op.block == k.blocks[i][op.at / 512]
    && op.at <= k.size[i] && (op.put.Nothing? ==> op.at < k.size[i])
  }

  predicate SleepsOn(k: K, p: nat, held: bool, w: PState, x: int)
    requires Shape(k) && p < NPROC
  {
    Active(k.t.st[p]) || (k.t.st[p] == w && held && (w in {WaitFile, WaitBuffer} ==> k.t.wait[p] == x))
  }

  /** A process waits in a transfer exactly while the hardware works on it. */
  predicate InTransfer(k: K, p: nat)
    requires Shape(k) && p < NPROC
  {
    k.t.st[p] == WaitDisk && k.t.diskBusy && k.t.diskOwner == p
  }

  predicate LocOk(k: K, p: nat)
    requires Shape(k) && p < NPROC
  {
    var st := k.t.st[p];
    match k.loc[p]
    case User => st in {Ready, Running, Created, Terminated}
    case WantInode(i, body) => i < NINODE && (Changes(body) ==> i != INODE_ROOT) && SleepsOn(k, p, k.t.inodeLock[i] != -1, WaitFile, i)
    case HoldInode(i, body) => i < NINODE && st == Running && (Changes(body) ==> i != INODE_ROOT)
    case WantBuffer(i, op) => SleepsOn(k, p, k.t.bufLock[Slot(op)] != -1, WaitBuffer, Slot(op))
    case HoldBuffer(i, op) => st == Running
    case WantStore(i, op, b) => 0 <= b < NBLOCK && k.tag[Slot(op)] == b != op.block && SleepsOn(k, p, k.t.diskBusy, WaitDisk, 0)
    case Storing(i, op, b) =>
      && 0 <= b < NBLOCK && k.tag[Slot(op)] == b != op.block
      && (InTransfer(k, p) || (Active(st) && k.disk[b] == k.frames[BUFFER_BASE + Slot(op)]))
    case WantLoad(i, op) => k.tag[Slot(op)] != op.block && !k.dirty[Slot(op)] && SleepsOn(k, p, k.t.diskBusy, WaitDisk, 0)
    case Loading(i, op) =>
      && k.tag[Slot(op)] != op.block && !k.dirty[Slot(op)] && op.block < NBLOCK
      && (InTransfer(k, p) || (Active(st) && k.frames[BUFFER_BASE + Slot(op)] == k.disk[op.block]))
    case Access(i, op) => k.tag[Slot(op)] == op.block && st == Running
    case EndInode(i, op) => st == Running
    case WantTerminal(_) => SleepsOn(k, p, k.t.termBusy, WaitTerminal, 0)
    case HoldTerminal => st == Running && k.t.termBusy && k.t.termOwner == p
    case TermReading => Active(st) || (st == WaitTerminal && k.t.termBusy && k.t.termOwner == p && k.console)
    case WantPage(page, block) =>
      && page < NPAGE && block < NBLOCK && !(BUFFER_BASE <= page < BUFFER_BASE + NBUF)
      && SleepsOn(k, p, k.t.diskBusy, WaitDisk, 0)
    case LoadingPage(page, block) =>
      && page < NPAGE && block < NBLOCK && !(BUFFER_BASE <= page < BUFFER_BASE + NBUF)
      && (InTransfer(k, p) || Active(st))
  }

  predicate ProcOk(k: K, p: nat)
    requires Shape(k) && p < NPROC
  {
    && (k.t.st[p] == Running ==> p == k.cur)
    && (p == 0 ==> k.loc[p] == User && Active(k.t.st[p]))
    && (InodeOf(k.loc[p]) >= 0 ==> InodeOf(k.loc[p]) < NINODE && k.t.inodeLock[InodeOf(k.loc[p])] == p)
    && (BufferOf(k.loc[p]) >= 0 ==> k.t.bufLock[BufferOf(k.loc[p])] == p)
    && ((BufferOf(k.loc[p]) >= 0 || k.loc[p].WantBuffer? || k.loc[p].EndInode?) ==> OpOk(k, k.loc[p].i, k.loc[p].op))
    && LocOk(k, p)
  }

  /** A lock word names the one process that holds the lock. */
  predicate InodeLockOk(k: K, i: nat)
    requires Shape(k) && i < NINODE
  {
    var h := k.t.inodeLock[i];
    h == -1 || (0 <= h < NPROC && InodeOf(k.loc[h]) == i && k.t.named[i])
  }

  predicate SlotOk(k: K, s: nat)
    requires Shape(k) && s < NBUF
  {
    var h := k.t.bufLock[s];
    && (h == -1 || (0 <= h < NPROC && BufferOf(k.loc[h]) == s))
    && (k.tag[s] == -1 || (0 <= k.tag[s] < NBLOCK && k.tag[s] % 4 == s))
    && (k.dirty[s] ==> k.tag[s] != -1)
  }

  predicate DeviceOk(k: K)
    requires Shape(k)
  {
    && (k.t.diskBusy <==> k.hw.Busy?)
    && (k.t.diskBusy ==> 0 <= k.t.diskOwner < NPROC && k.t.st[k.t.diskOwner] == WaitDisk && k.hw == Request(k.loc[k.t.diskOwner]))
    && (k.t.termBusy ==> 0 <= k.t.termOwner < NPROC)
    && (k.t.termBusy ==>
          (k.loc[k.t.termOwner] == HoldTerminal && !k.console)
          || (k.loc[k.t.termOwner] == TermReading && k.t.st[k.t.termOwner] == WaitTerminal && k.console))
    && (k.console ==> k.t.termBusy)
  }

  /** Where file i may have a block: the root file has its own. */
  predicate InArea(i: nat, b: int) {
    if i == INODE_ROOT then b == ROOT_BLOCK else FREE_AREA <= b < SWAP_AREA
  }

  /** A file owns the blocks below its size, and no block twice or with another file. */
  predicate FileOk(k: K, i: nat)
    requires Shape(k) && i < NINODE
  {
    && -1 <= k.size[i] <= MAX_FILE_SIZE
    && forall j | 0 <= j < 4 ::
      && (k.blocks[i][j] == -1 || (InArea(i, k.blocks[i][j]) && k.used[k.blocks[i][j]]))
      && (512 * j < k.size[i] ==> k.blocks[i][j] != -1)
  }

  predicate BlocksDistinct(k: K)
    requires Shape(k)
  {
    forall i, j, i2, j2 | 0 <= i < NINODE && 0 <= i2 < NINODE && 0 <= j < 4 && 0 <= j2 < 4 ::
      k.blocks[i][j] == k.blocks[i2][j2] && k.blocks[i][j] != -1 ==> i == i2 && j == j2
  }

  function Inv(k: K): (r: bool)
    ensures r ==> Shape(k)
  {
    && Shape(k)
    && (forall p | 0 <= p < NPROC :: ProcOk(k, p))
    && (forall i | 0 <= i < NINODE :: InodeLockOk(k, i))
    && (forall s | 0 <= s < NBUF :: SlotOk(k, s))
    && DeviceOk(k)
    && (forall i | 0 <= i < NINODE :: FileOk(k, i))
    && BlocksDistinct(k)
  }
}
