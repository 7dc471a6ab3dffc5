/** What the invariant means: locks have one owner, no wakeup is lost, the wait-for
    graph has no cycle, and no disk request is ignored. */
module IoLocks {
  import opened Words
  import opened ResourceManager
  import opened IoKernel
  import opened IoSafety

  // ---- runs

  ghost predicate Possible(k: K, es: seq<Event>)
    requires Shape(k)
    decreases |es|
  {
    es == [] || (Enabled(k, es[0]) && Possible(After(k, es[0]), es[1..]))
  }

  ghost function Outcome(k: K, es: seq<Event>): (r: K)
    requires Shape(k) && Possible(k, es)
    ensures Shape(r)
    decreases |es|
  {
    if es == [] then k else Outcome(After(k, es[0]), es[1..])
  }

  /** What boot leaves (code/Modules/boot.spl): the idle program runs, init waits for
      its first dispatch, every lock and the cache are free. The disk, the pages and
      the file tables are as loaded. */
  predicate Booted(k: K) {
    && Shape(k) && k.cur == 0
    && (forall p | 0 <= p < NPROC :: k.loc[p] == User && k.t.st[p] == if p == 0 then Running else if p == 1 then Created else Terminated)
    && (forall i | 0 <= i < NINODE :: k.t.inodeLock[i] == -1 && FileOk(k, i))
    && (forall s | 0 <= s < NBUF :: k.t.bufLock[s] == -1 && k.tag[s] == -1 && !k.dirty[s])
    && !k.t.diskBusy && !k.t.termBusy && k.hw == Idle && !k.console
    && BlocksDistinct(k)
  }

  lemma BootHolds(k: K)
    requires Booted(k)
    ensures Inv(k)
  {
    hide FileOk, BlocksDistinct;
  }

  /** The invariant holds in every state that the kernel reaches from boot. */
  lemma {:induction false} RunKeeps(k: K, es: seq<Event>)
    requires Inv(k) && Possible(k, es)
    ensures Inv(Outcome(k, es))
    decreases |es|
  {
    hide Inv, After, Enabled;
    if es != [] {
      StepKeeps(k, es[0]);
      RunKeeps(After(k, es[0]), es[1..]);
    }
  }

  // ---- no lock has two owners

  /** The process prints, or its read is with the console. */
  predicate HasTerminal(k: K, p: nat)
    requires Shape(k) && p < NPROC
  {
    k.loc[p] == HoldTerminal || (k.loc[p] == TermReading && k.t.st[p] == WaitTerminal)
  }

  lemma OneOwner(k: K, p: nat, q: nat)
    requires Inv(k) && p < NPROC && q < NPROC && p != q
    ensures InodeOf(k.loc[p]) == InodeOf(k.loc[q]) ==> InodeOf(k.loc[p]) == -1
    ensures BufferOf(k.loc[p]) == BufferOf(k.loc[q]) ==> BufferOf(k.loc[p]) == -1
    ensures !(InTransfer(k, p) && InTransfer(k, q))
    ensures !(HasTerminal(k, p) && HasTerminal(k, q))
  {
    hide OpOk, FileOk, BlocksDistinct, InodeLockOk, SlotOk;
    assert ProcOk(k, p) && ProcOk(k, q);
  }

  // ---- no wakeup is lost

  /** Process p holds, or has the hardware working on, what a sleeper waits for. */
  predicate Holds(k: K, p: int, w: PState, x: int)
    requires Shape(k)
  {
    && 0 <= p < NPROC
    && match w
       case WaitFile => InodeOf(k.loc[p]) == x && x >= 0
       case WaitBuffer => BufferOf(k.loc[p]) == x && x >= 0
       case WaitDisk => k.hw.Busy? && k.hw == Request(k.loc[p]) && k.t.st[p] == WaitDisk
       case WaitTerminal => k.loc[p] == HoldTerminal || (k.loc[p] == TermReading && k.console && k.t.st[p] == WaitTerminal)
       case _ => false
  }

  /** The owner recorded for what process p sleeps on. */
  function Blocker(k: K, p: nat): int
    requires Shape(k) && p < NPROC
  {
    var x := k.t.wait[p];
    match k.t.st[p]
    case WaitFile => if 0 <= x < NINODE then k.t.inodeLock[x] else -1
    case WaitBuffer => if 0 <= x < NBUF then k.t.bufLock[x] else -1
    case WaitDisk => if Request(k.loc[p]).Busy? then -1 else k.t.diskOwner
    case WaitTerminal => if k.loc[p] == TermReading then -1 else k.t.termOwner
    case _ => -1
  }

  predicate Asleep(s: PState) {
    s in {WaitFile, WaitBuffer, WaitDisk, WaitTerminal}
  }

  /** The hardware is at work for this process: its disk transfer or its console read. */
  predicate Served(k: K, p: nat)
    requires Shape(k) && p < NPROC
  {
    || (k.t.st[p] == WaitDisk && k.hw.Busy? && k.hw == Request(k.loc[p]))
    || (k.t.st[p] == WaitTerminal && k.loc[p] == TermReading && k.console)
  }

  /** A process that sleeps is served by the hardware, or sleeps on something that
      another process still holds. */
  lemma NoLostWakeup(k: K, p: nat)
    requires Inv(k) && p < NPROC && Asleep(k.t.st[p])
    ensures p >= 1
    ensures Served(k, p) || (Blocker(k, p) != p && Holds(k, Blocker(k, p), k.t.st[p], k.t.wait[p]))
  {
    hide OpOk, FileOk, BlocksDistinct;
    assert ProcOk(k, p);
    var x := k.t.wait[p];
    if k.t.st[p] == WaitFile {
      assert InodeLockOk(k, x);
    } else if k.t.st[p] == WaitBuffer {
      assert SlotOk(k, x);
    }
  }

  // ---- no deadlock

  /** Inode, buffer, disk or terminal: the order in which locks are taken. */
  function Rank(k: K, p: nat): nat
    requires Shape(k) && p < NPROC
  {
    match k.t.st[p]
    case WaitFile => 0
    case WaitBuffer => 1
    case WaitDisk => if Served(k, p) then 3 else 2
    case WaitTerminal => if Served(k, p) then 3 else 2
    case _ => 3
  }

  lemma RankRises(k: K, p: nat)
    requires Inv(k) && p < NPROC && Asleep(k.t.st[p]) && !Served(k, p)
    ensures 0 <= Blocker(k, p) < NPROC && Rank(k, Blocker(k, p)) > Rank(k, p)
    ensures k.t.st[Blocker(k, p)] !in {Created, Terminated}
  {
    hide OpOk, FileOk, BlocksDistinct, InodeLockOk, SlotOk;
    NoLostWakeup(k, p);
    assert ProcOk(k, Blocker(k, p));
  }

  /** The n-th process on the chain of blockers from p; it stays where the chain ends. */
  function Follow(k: K, p: nat, n: nat): (r: nat)
    requires Shape(k) && p < NPROC
    ensures r < NPROC
    decreases n
  {
    if n == 0 || !(0 <= Blocker(k, p) < NPROC) then p else Follow(k, Blocker(k, p), n - 1)
  }

  /** No deadlock: after at most three blockers every chain reaches a process that the
      scheduler can run or that the hardware is serving. */
  lemma {:induction false} NoDeadlock(k: K, p: nat)
    requires Inv(k) && p < NPROC
    ensures var q := Follow(k, p, 3);
            (k.t.st[q] in {Ready, Running} || Served(k, q)) || (q == p && !Asleep(k.t.st[p]))
  {
    ChainEnds(k, p, 3);
  }

  lemma {:induction false} ChainEnds(k: K, p: nat, n: nat)
    requires Inv(k) && p < NPROC && Rank(k, p) + n >= 3
    ensures var q := Follow(k, p, n); !Asleep(k.t.st[q]) || Served(k, q)
    ensures var q := Follow(k, p, n); q == p || k.t.st[q] !in {Created, Terminated}
    decreases n
  {
    hide Inv;
    if Asleep(k.t.st[p]) && !Served(k, p) {
      RankRises(k, p);
      ChainEnds(k, Blocker(k, p), n - 1);
    } else if n > 0 {
      ServedEndsChain(k, p);
    }
  }

  lemma ServedEndsChain(k: K, p: nat)
    requires Shape(k) && p < NPROC && (Asleep(k.t.st[p]) ==> Served(k, p))
    ensures Blocker(k, p) == -1
  {
  }

  /** The wait-for graph has no cycle. */
  lemma NoCycle(k: K, p: nat, n: nat)
    requires Inv(k) && p < NPROC && n >= 1 && Asleep(k.t.st[p]) && !Served(k, p)
    ensures Follow(k, p, n) != p
  {
    RankRises(k, p);
    RankGrows(k, Blocker(k, p), n - 1);
  }

  lemma {:induction false} RankGrows(k: K, p: nat, n: nat)
    requires Inv(k) && p < NPROC
    ensures Rank(k, Follow(k, p, n)) >= Rank(k, p)
    decreases n
  {
    hide Inv, Rank;
    if n > 0 && 0 <= Blocker(k, p) < NPROC {
      if Asleep(k.t.st[p]) && !Served(k, p) {
        RankRises(k, p);
      } else {
        ServedEndsChain(k, p);
      }
      RankGrows(k, Blocker(k, p), n - 1);
    }
  }

  // ---- the disk lock and the disk hardware

  /** A disk request is handed over only when the hardware is idle, so it is the one
      that the hardware then works on. */
  lemma NoRequestIgnored(k: K, at: nat)
    requires Inv(k) && Enabled(k, Turn(at))
    ensures var k2 := After(k, Turn(at));
            Request(k2.loc[k.cur]).Busy? && !Request(k.loc[k.cur]).Busy? ==>
              k.hw == Idle && InTransfer(k2, k.cur) && k2.hw == Request(k2.loc[k.cur])
  {
    hide OpOk, FileOk, BlocksDistinct, InodeLockOk, SlotOk, FirstFree, Woken, LocOk, WithInode, Touch, Finish, Wanting;
    match k.loc[k.cur] {
      case WantInode(i, body) => WantingGoesTo(k, AcquireInode(k.t, i, k.cur), HoldInode(i, body));
      case WantBuffer(i, op) => WantingGoesTo(k, AcquireBuffer(k.t, Slot(op), k.cur), HoldBuffer(i, op));
      case HoldInode(i, body) =>
        InodeGoesTo(k, i, body, at);
      case Access(i, op) => TouchGoesTo(k, i, op);
      case EndInode(i, op) => FinishGoesTo(k, i, op);
      case _ =>
    }
  }

  ghost predicate OneMoves(k: K, k2: K)
    requires Shape(k) && Shape(k2)
  {
    k2.cur == k.cur && k2.loc == k.loc[k.cur := k2.loc[k.cur]]
  }

  lemma WantingGoesTo(k: K, tg: (Tables, Got), taken: Loc)
    requires Shape(k) && Sized(tg.0)
    ensures Wanting(k, tg, taken).loc[k.cur] in {taken, k.loc[k.cur], User}
  {
  }

  lemma InodeGoesTo(k: K, i: nat, body: Body, at: nat)
    requires Shape(k) && i < NINODE && at <= MAX_FILE_SIZE
    ensures var l := WithInode(k, i, body, at).loc[k.cur]; l == User || l == k.loc[k.cur] || l.WantBuffer?
    ensures OneMoves(k, WithInode(k, i, body, at))
  {
    hide Woken, FirstFree;
  }

  lemma TouchGoesTo(k: K, i: nat, op: Op)
    requires Shape(k)
    ensures Touch(k, i, op).loc[k.cur] == EndInode(i, op) && OneMoves(k, Touch(k, i, op))
  {
    hide Woken;
  }

  lemma FinishGoesTo(k: K, i: nat, op: Op)
    requires Shape(k) && i < NINODE
    ensures Finish(k, i, op).loc[k.cur] == User && OneMoves(k, Finish(k, i, op))
  {
    hide Woken;
  }

  /** Waiting in a transfer ends only when the hardware has carried out that very
      transfer. */
  lemma OwnTransferEnds(k: K, e: Event, p: nat)
    requires Inv(k) && Enabled(k, e) && p < NPROC && Request(k.loc[p]).Busy?
    requires k.t.st[p] == WaitDisk && After(k, e).t.st[p] != WaitDisk
    ensures e == DiskDone && k.hw == Request(k.loc[p]) && Matches(After(k, e), Request(k.loc[p]))
  {
    hide OpOk, FileOk, BlocksDistinct, InodeLockOk, SlotOk, Turned;
    assert ProcOk(k, p);
    if e.Turn? {
      TurnKeepsBusyDisk(k, e.at);
      StepKeeps(k, e);
    }
  }

  lemma TurnKeepsBusyDisk(k: K, at: nat)
    requires Shape(k) && Enabled(k, Turn(at)) && k.t.diskBusy && k.hw.Busy?
    ensures var k2 := After(k, Turn(at)); k2.t.diskBusy && k2.t.diskOwner == k.t.diskOwner && k2.hw == k.hw
  {
    hide FirstFree, Woken, WithInode, Touch, Finish, Wanting, Grown;
    match k.loc[k.cur] {
      case WantInode(i, body) => WantingKeepsDisk(k, AcquireInode(k.t, i, k.cur), HoldInode(i, body));
      case WantBuffer(i, op) => WantingKeepsDisk(k, AcquireBuffer(k.t, Slot(op), k.cur), HoldBuffer(i, op));
      case HoldInode(i, body) => InodeKeepsDisk(k, i, body, at);
      case Access(i, op) => TouchKeepsDisk(k, i, op);
      case EndInode(i, op) => FinishKeepsDisk(k, i, op);
      case _ =>
    }
  }

  ghost predicate SameDisk(k: K, k2: K) {
    k2.t.diskBusy == k.t.diskBusy && k2.t.diskOwner == k.t.diskOwner && k2.hw == k.hw
  }

  lemma WantingKeepsDisk(k: K, tg: (Tables, Got), l: Loc)
    requires Shape(k) && Sized(tg.0) && tg.0.diskBusy == k.t.diskBusy && tg.0.diskOwner == k.t.diskOwner
    ensures SameDisk(k, Wanting(k, tg, l))
  {
  }

  lemma InodeKeepsDisk(k: K, i: nat, body: Body, at: nat)
    requires Shape(k) && i < NINODE && at <= MAX_FILE_SIZE
    ensures SameDisk(k, WithInode(k, i, body, at))
  {
    hide Woken, FirstFree;
  }

  lemma TouchKeepsDisk(k: K, i: nat, op: Op)
    requires Shape(k)
    ensures SameDisk(k, Touch(k, i, op))
  {
    hide Woken;
  }

  lemma FinishKeepsDisk(k: K, i: nat, op: Op)
    requires Shape(k) && i < NINODE
    ensures SameDisk(k, Finish(k, i, op))
  {
    hide Woken;
  }

  /** When the device manager returns from a buffer's store or load, the page and the
      block agree. */
  lemma ReturnsAfterTransfer(k: K, p: nat)
    requires Inv(k) && p < NPROC && BufferOf(k.loc[p]) >= 0 && Request(k.loc[p]).Busy? && k.t.st[p] != WaitDisk
    ensures Matches(k, Request(k.loc[p]))
  {
    hide OpOk, FileOk, BlocksDistinct, InodeLockOk, SlotOk;
    assert ProcOk(k, p);
  }

  // ---- the early returns of write

  /** int_7.spl:87-90 and 102-105: the write gives up without releasing the inode. */
  function Abandoned(k: K): K
    requires Shape(k) && k.loc[k.cur].HoldInode?
  {
    At(k, User)
  }

  ghost function Leaked(k: K, i: nat, p: nat): (r: bool)
    ensures r ==> Shape(k)
  {
    Shape(k) && i < NINODE && p < NPROC && k.t.inodeLock[i] == p && forall q | 0 <= q < NPROC :: InodeOf(k.loc[q]) != i
  }

  /** From then on nobody holds the inode and its lock word never becomes free. */
  lemma AbandonedLeaks(k: K, i: nat, body: Body)
    requires Inv(k) && k.loc[k.cur] == HoldInode(i, body)
    ensures Leaked(Abandoned(k), i, k.cur) && !InodeLockOk(Abandoned(k), i)
  {
    hide OpOk, FileOk, BlocksDistinct, InodeLockOk, SlotOk, LocOk, DeviceOk;
    assert ProcOk(k, k.cur);
    forall q | 0 <= q < NPROC ensures InodeOf(Abandoned(k).loc[q]) != i {
      assert ProcOk(k, q);
    }
    UnownedLock(Abandoned(k), i);
  }

  lemma UnownedLock(k: K, i: nat)
    requires Shape(k) && i < NINODE && k.t.inodeLock[i] != -1 && forall q | 0 <= q < NPROC :: InodeOf(k.loc[q]) != i
    ensures !InodeLockOk(k, i)
  {
  }

  /** What write does once it holds the inode. */
  function WriteTurn(k: K, i: nat, w: Word, at: nat): (r: K)
    requires Shape(k) && i < NINODE && at <= MAX_FILE_SIZE && k.loc[k.cur] == HoldInode(i, Writing(w))
    ensures Shape(r)
  {
    if HasRoom(k, i, at) then WithInode(k, i, Writing(w), at) else Abandoned(k)
  }

  /** Write keeps the kernel's invariant exactly when the file and the disk have room. */
  lemma WriteKeepsIffRoom(k: K, i: nat, w: Word, at: nat)
    requires Inv(k) && k.t.st[k.cur] == Running && k.loc[k.cur] == HoldInode(i, Writing(w)) && i < NINODE && at <= k.size[i]
    requires at <= MAX_FILE_SIZE
    ensures Inv(WriteTurn(k, i, w, at)) <==> HasRoom(k, i, at)
  {
    hide OpOk, FileOk, BlocksDistinct, InodeLockOk, SlotOk, LocOk, DeviceOk, ProcOk, WithInode;
    if HasRoom(k, i, at) {
      StepWrite(k, i, w, at);
    } else {
      AbandonedLeaks(k, i, Writing(w));
    }
  }

  /** Whatever happens next, the leaked lock stays taken by a process that does not
      know it holds it. */
  lemma {:induction false} LeakIsForever(k: K, es: seq<Event>, i: nat, p: nat)
    requires Leaked(k, i, p) && Possible(k, es)
    ensures Leaked(Outcome(k, es), i, p)
    decreases |es|
  {
    hide Leaked, After, Enabled;
    if es != [] {
      LeakStays(k, es[0], i, p);
      LeakIsForever(After(k, es[0]), es[1..], i, p);
    }
  }

  lemma LeakStays(k: K, e: Event, i: nat, p: nat)
    requires Leaked(k, i, p) && Enabled(k, e)
    ensures Leaked(After(k, e), i, p)
  {
    hide FirstFree, Woken, WithInode, Touch, Finish, Grown, InodeOf;
    match e {
      case Turn(at) =>
        TurnLeaks(k, at, i, p);
        TurnMovesOne(k, at);
      case Call(l) => EntryHoldsNothing(l);
      case _ =>
    }
  }

  lemma EntryHoldsNothing(l: Loc)
    requires EntryPoint(l)
    ensures InodeOf(l) == -1
  {
  }

  lemma TurnLeaks(k: K, at: nat, i: nat, p: nat)
    requires Leaked(k, i, p) && Enabled(k, Turn(at))
    ensures Turned(k, at).t.inodeLock[i] == p && InodeOf(Turned(k, at).loc[k.cur]) != i
  {
    hide FirstFree, Woken, WithInode, Touch, Finish, Grown, Wanting, Transfer;
    match k.loc[k.cur] {
      case WantInode(j, body) => WantedInode(k, j, body, i);
      case WantBuffer(j, op) => WantedBuffer(k, j, op);
      case WantStore(j, op, b) => TransferLeavesInodes(k, true, BUFFER_BASE + Slot(op), b, Storing(j, op, b));
      case WantLoad(j, op) => TransferLeavesInodes(k, false, BUFFER_BASE + Slot(op), op.block, Loading(j, op));
      case WantPage(page, block) => TransferLeavesInodes(k, false, page, block, LoadingPage(page, block));
      case HoldInode(j, body) =>
        InodeGoesTo(k, j, body, at);
        InodeKeepsLock(k, j, body, at, i);
      case Access(j, op) =>
        TouchGoesTo(k, j, op);
        TouchKeepsLock(k, j, op);
      case EndInode(j, op) =>
        FinishGoesTo(k, j, op);
        FinishKeepsLock(k, j, op, i);
      case _ =>
    }
  }

  lemma WantedInode(k: K, j: nat, body: Body, i: nat)
    requires Shape(k) && j < NINODE && i < NINODE && k.t.inodeLock[i] != -1 && k.loc[k.cur] == WantInode(j, body)
    ensures var k2 := Wanting(k, AcquireInode(k.t, j, k.cur), HoldInode(j, body));
            k2.t.inodeLock[i] == k.t.inodeLock[i] && InodeOf(k2.loc[k.cur]) != i
  {
  }

  lemma WantedBuffer(k: K, j: nat, op: Op)
    requires Shape(k) && k.loc[k.cur] == WantBuffer(j, op)
    ensures var k2 := Wanting(k, AcquireBuffer(k.t, Slot(op), k.cur), HoldBuffer(j, op));
            k2.t.inodeLock == k.t.inodeLock && InodeOf(k2.loc[k.cur]) == j
  {
  }

  lemma TransferLeavesInodes(k: K, store: bool, page: nat, block: nat, l: Loc)
    requires Shape(k)
    ensures var k2 := Transfer(k, store, page, block, l); k2.t.inodeLock == k.t.inodeLock && k2.loc[k.cur] in {l, k.loc[k.cur]}
  {
  }

  lemma TurnMovesOne(k: K, at: nat)
    requires Shape(k) && Enabled(k, Turn(at))
    ensures OneMoves(k, Turned(k, at))
  {
    hide FirstFree, Woken, WithInode, Touch, Finish, Grown;
    match k.loc[k.cur] {
      case HoldInode(i, body) => InodeGoesTo(k, i, body, at);
      case Access(i, op) => TouchGoesTo(k, i, op);
      case EndInode(i, op) => FinishGoesTo(k, i, op);
      case _ =>
    }
  }

  lemma InodeKeepsLock(k: K, j: nat, body: Body, at: nat, i: nat)
    requires Shape(k) && j < NINODE && i < NINODE && i != j && at <= MAX_FILE_SIZE && k.loc[k.cur] == HoldInode(j, body)
    ensures WithInode(k, j, body, at).t.inodeLock[i] == k.t.inodeLock[i]
    ensures WithInode(k, j, body, at).loc[k.cur].WantBuffer? ==> WithInode(k, j, body, at).loc[k.cur].i == j
  {
    hide Woken, FirstFree;
  }

  lemma TouchKeepsLock(k: K, j: nat, op: Op)
    requires Shape(k)
    ensures Touch(k, j, op).t.inodeLock == k.t.inodeLock
  {
    hide Woken;
  }

  lemma FinishKeepsLock(k: K, j: nat, op: Op, i: nat)
    requires Shape(k) && j < NINODE && i < NINODE && i != j
    ensures Finish(k, j, op).t.inodeLock[i] == k.t.inodeLock[i]
  {
    hide Woken;
  }
}
