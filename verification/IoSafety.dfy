/** Every step of the kernel keeps the invariant. One lemma per kind of step. */
module IoSafety {
  import opened Words
  import opened ResourceManager
  import opened IoKernel

  ghost predicate TablesOk(k: K)
    requires Shape(k)
  {
    && (forall i | 0 <= i < NINODE :: InodeLockOk(k, i))
    && (forall s | 0 <= s < NBUF :: SlotOk(k, s))
    && DeviceOk(k)
  }

  ghost predicate FilesOk(k: K)
    requires Shape(k)
  {
    (forall i | 0 <= i < NINODE :: FileOk(k, i)) && BlocksDistinct(k)
  }

  // ---- what a step owes the processes that do not take it

  ghost predicate MayWake(k: K, k2: K, p: nat)
    requires Shape(k) && Shape(k2) && p < NPROC
  {
    k2.t.st[p] == k.t.st[p] || (k2.t.st[p] == Ready && k.t.st[p] in {WaitFile, WaitBuffer, WaitDisk, WaitTerminal})
  }

  /** A process that is still asleep still has something to wait for. */
  ghost predicate StillHeld(k: K, k2: K, p: nat)
    requires Shape(k) && Shape(k2) && p < NPROC
  {
    var w := k.t.wait[p];
    && (k2.t.st[p] == WaitFile && 0 <= w < NINODE && k.t.inodeLock[w] != -1 ==> k2.t.inodeLock[w] != -1)
    && (k2.t.st[p] == WaitBuffer && 0 <= w < NBUF && k.t.bufLock[w] != -1 ==> k2.t.bufLock[w] != -1)
    && (k2.t.st[p] == WaitDisk && k.t.diskBusy ==> k2.t.diskBusy && k2.t.diskOwner == k.t.diskOwner)
    && (k2.t.st[p] == WaitTerminal && k.t.termBusy ==>
          k2.t.termBusy && k2.t.termOwner == k.t.termOwner && k2.console == k.console)
  }

  ghost predicate KeepsLocks(k: K, k2: K, l: Loc)
    requires Shape(k) && Shape(k2)
  {
    && (0 <= InodeOf(l) < NINODE ==>
          && k2.t.inodeLock[InodeOf(l)] == k.t.inodeLock[InodeOf(l)]
          && k2.blocks[InodeOf(l)] == k.blocks[InodeOf(l)] && k2.size[InodeOf(l)] == k.size[InodeOf(l)])
    && (BufferOf(l) >= 0 ==>
          && k2.t.bufLock[BufferOf(l)] == k.t.bufLock[BufferOf(l)]
          && k2.tag[BufferOf(l)] == k.tag[BufferOf(l)] && (k2.dirty[BufferOf(l)] ==> k.dirty[BufferOf(l)]))
  }

  predicate Matches(k: K, r: Hw)
    requires Shape(k)
  {
    r.Busy? && r.page < NPAGE && r.block < NBLOCK && k.disk[r.block] == k.frames[r.page]
  }

  /** A buffer transfer that is done stays so, and one that ends now has happened. */
  ghost predicate KeepsTransfer(k: K, k2: K, p: nat)
    requires Shape(k) && Shape(k2) && p < NPROC
  {
    var r := Request(k.loc[p]);
    BufferOf(k.loc[p]) >= 0 && r.Busy? && r.block < NBLOCK ==>
      && (!InTransfer(k, p) && Matches(k, r) ==> Matches(k2, r))
      && (InTransfer(k, p) && k2.t.st[p] != WaitDisk ==> Matches(k2, r))
  }

  ghost predicate Calm(k: K, k2: K, p: nat)
    requires Shape(k) && Shape(k2) && p < NPROC
  {
    && k2.loc[p] == k.loc[p] && k2.t.wait[p] == k.t.wait[p] && k.t.st[p] != Running
    && MayWake(k, k2, p) && StillHeld(k, k2, p) && KeepsLocks(k, k2, k.loc[p]) && KeepsTransfer(k, k2, p)
  }

  lemma Bystander(k: K, k2: K, p: nat)
    requires Shape(k) && Shape(k2) && p < NPROC
    requires ProcOk(k, p) && Calm(k, k2, p)
    ensures ProcOk(k2, p)
  {
  }

  /** Steps that leave the files alone keep what is said of them. */
  lemma SameFiles(k: K, k2: K)
    requires Inv(k) && Shape(k2) && k2.blocks == k.blocks && k2.size == k.size && k2.used == k.used
    ensures FilesOk(k2)
  {
    hide ProcOk, SlotOk, DeviceOk, InodeLockOk;
    forall i | 0 <= i < NINODE ensures FileOk(k2, i) {
      assert FileOk(k, i);
    }
  }

  /** Bystanders, the stepping process, the tables and the files make up the invariant. */
  lemma Together(k: K, k2: K)
    requires Inv(k) && Shape(k2) && k2.cur == k.cur
    requires forall p | 0 <= p < NPROC && p != k.cur :: Calm(k, k2, p)
    requires ProcOk(k2, k.cur) && TablesOk(k2) && FilesOk(k2)
    ensures Inv(k2)
  {
    hide LocOk, Calm, SlotOk, DeviceOk, InodeLockOk, FileOk, BlocksDistinct;
    forall p | 0 <= p < NPROC ensures ProcOk(k2, p) {
      assert ProcOk(k, p);
      if p != k.cur {
        Bystander(k, k2, p);
      }
    }
  }

  /** The running process changes its location and nothing else. */
  lemma Moves(k: K, l: Loc)
    requires Inv(k) && k.t.st[k.cur] == Running && !k.loc[k.cur].HoldTerminal?
    requires InodeOf(l) == InodeOf(k.loc[k.cur]) && BufferOf(l) == BufferOf(k.loc[k.cur])
    requires ProcOk(At(k, l), k.cur)
    ensures Inv(At(k, l))
  {
    hide LocOk, FileOk, BlocksDistinct, InodeOf, BufferOf, Request, OpOk;
    var k2 := At(k, l);
    SameFiles(k, k2);
    forall i | 0 <= i < NINODE ensures InodeLockOk(k2, i) { assert InodeLockOk(k, i); }
    forall s | 0 <= s < NBUF ensures SlotOk(k2, s) { assert SlotOk(k, s); }
    forall p | 0 <= p < NPROC && p != k.cur ensures Calm(k, k2, p) { assert ProcOk(k, p); }
    Together(k, k2);
  }

  /** It changes its state and the word it waits on. */
  lemma Naps(k: K, w: PState, x: int)
    requires Inv(k) && k.t.st[k.cur] == Running && !k.loc[k.cur].HoldTerminal?
    requires ProcOk(k.(t := Sleep(k.t, k.cur, w, x)), k.cur)
    ensures Inv(k.(t := Sleep(k.t, k.cur, w, x)))
  {
    hide LocOk, FileOk, BlocksDistinct, InodeOf, BufferOf, Request, OpOk;
    var k2 := k.(t := Sleep(k.t, k.cur, w, x));
    SameFiles(k, k2);
    forall i | 0 <= i < NINODE ensures InodeLockOk(k2, i) { assert InodeLockOk(k, i); }
    forall s | 0 <= s < NBUF ensures SlotOk(k2, s) { assert SlotOk(k, s); }
    forall p | 0 <= p < NPROC && p != k.cur ensures Calm(k, k2, p) { assert ProcOk(k, p); }
    Together(k, k2);
  }

  lemma TakesInode(k: K, i: nat, l: Loc)
    requires Inv(k) && k.t.st[k.cur] == Running && i < NINODE && k.t.inodeLock[i] == -1 && k.t.named[i]
    requires InodeOf(k.loc[k.cur]) == -1 == BufferOf(k.loc[k.cur]) && !k.loc[k.cur].HoldTerminal?
    requires InodeOf(l) == i && BufferOf(l) == -1
    requires ProcOk(k.(t := k.t.(inodeLock := k.t.inodeLock[i := k.cur]), loc := k.loc[k.cur := l]), k.cur)
    ensures Inv(k.(t := k.t.(inodeLock := k.t.inodeLock[i := k.cur]), loc := k.loc[k.cur := l]))
  {
    hide LocOk, FileOk, BlocksDistinct, InodeOf, BufferOf, Request, OpOk;
    var k2 := k.(t := k.t.(inodeLock := k.t.inodeLock[i := k.cur]), loc := k.loc[k.cur := l]);
    SameFiles(k, k2);
    forall i | 0 <= i < NINODE ensures InodeLockOk(k2, i) { assert InodeLockOk(k, i); }
    forall s | 0 <= s < NBUF ensures SlotOk(k2, s) { assert SlotOk(k, s); }
    forall p | 0 <= p < NPROC && p != k.cur ensures Calm(k, k2, p) { assert ProcOk(k, p); }
    Together(k, k2);
  }

  lemma UserHoldsNothing()
    ensures InodeOf(User) == -1 == BufferOf(User)
    ensures InodeOf(HoldTerminal) == -1 == BufferOf(HoldTerminal)
    ensures InodeOf(TermReading) == -1 == BufferOf(TermReading)
  {
  }

  lemma TakesBuffer(k: K, s: nat, l: Loc)
    requires Inv(k) && k.t.st[k.cur] == Running && s < NBUF && k.t.bufLock[s] == -1
    requires BufferOf(k.loc[k.cur]) == -1 && !k.loc[k.cur].HoldTerminal?
    requires InodeOf(l) == InodeOf(k.loc[k.cur]) && BufferOf(l) == s
    requires ProcOk(k.(t := k.t.(bufLock := k.t.bufLock[s := k.cur]), loc := k.loc[k.cur := l]), k.cur)
    ensures Inv(k.(t := k.t.(bufLock := k.t.bufLock[s := k.cur]), loc := k.loc[k.cur := l]))
  {
    hide LocOk, FileOk, BlocksDistinct, InodeOf, BufferOf, Request, OpOk;
    var k2 := k.(t := k.t.(bufLock := k.t.bufLock[s := k.cur]), loc := k.loc[k.cur := l]);
    SameFiles(k, k2);
    forall i | 0 <= i < NINODE ensures InodeLockOk(k2, i) { assert InodeLockOk(k, i); }
    forall s | 0 <= s < NBUF ensures SlotOk(k2, s) { assert SlotOk(k, s); }
    forall p | 0 <= p < NPROC && p != k.cur ensures Calm(k, k2, p) { assert ProcOk(k, p); }
    Together(k, k2);
  }

  lemma FreesInode(k: K, i: nat)
    requires Inv(k) && k.t.st[k.cur] == Running && i < NINODE
    requires InodeOf(k.loc[k.cur]) == i && BufferOf(k.loc[k.cur]) == -1 && !k.loc[k.cur].HoldTerminal?
    requires ProcOk(LeaveInode(k, i), k.cur)
    ensures Inv(LeaveInode(k, i))
  {
    hide LocOk, FileOk, BlocksDistinct, InodeOf, BufferOf, Request, OpOk;
    var k2 := LeaveInode(k, i);
    assert InodeOf(User) == -1 == BufferOf(User) by { UserHoldsNothing(); }
    assert ProcOk(k, k.cur);
    SameFiles(k, k2);
    forall i | 0 <= i < NINODE ensures InodeLockOk(k2, i) { assert InodeLockOk(k, i); }
    forall s | 0 <= s < NBUF ensures SlotOk(k2, s) { assert SlotOk(k, s); }
    forall p | 0 <= p < NPROC && p != k.cur ensures Calm(k, k2, p) { assert ProcOk(k, p); }
    Together(k, k2);
  }

  lemma FreesBuffer(k: K, s: nat, l: Loc)
    requires Inv(k) && k.t.st[k.cur] == Running && s < NBUF && BufferOf(k.loc[k.cur]) == s
    requires !k.loc[k.cur].HoldTerminal?
    requires InodeOf(l) == InodeOf(k.loc[k.cur]) && BufferOf(l) == -1
    requires ProcOk(k.(t := ReleaseBuffer(k.t, s, k.cur), loc := k.loc[k.cur := l]), k.cur)
    ensures Inv(k.(t := ReleaseBuffer(k.t, s, k.cur), loc := k.loc[k.cur := l]))
  {
    hide LocOk, FileOk, BlocksDistinct, InodeOf, BufferOf, Request, OpOk;
    var k2 := k.(t := ReleaseBuffer(k.t, s, k.cur), loc := k.loc[k.cur := l]);
    assert ProcOk(k, k.cur);
    SameFiles(k, k2);
    forall i | 0 <= i < NINODE ensures InodeLockOk(k2, i) { assert InodeLockOk(k, i); }
    forall s | 0 <= s < NBUF ensures SlotOk(k2, s) { assert SlotOk(k, s); }
    forall p | 0 <= p < NPROC && p != k.cur ensures Calm(k, k2, p) { assert ProcOk(k, p); }
    Together(k, k2);
  }

  lemma StartsTransfer(k: K, store: bool, page: nat, block: nat, l: Loc)
    requires Inv(k) && k.t.st[k.cur] == Running && !k.t.diskBusy && !k.loc[k.cur].HoldTerminal?
    requires InodeOf(l) == InodeOf(k.loc[k.cur]) && BufferOf(l) == BufferOf(k.loc[k.cur])
    requires Request(l) == Busy(store, page, block)
    requires ProcOk(Transfer(k, store, page, block, l), k.cur)
    ensures Inv(Transfer(k, store, page, block, l))
  {
    hide LocOk, FileOk, BlocksDistinct, InodeOf, BufferOf, Request, OpOk;
    var k2 := Transfer(k, store, page, block, l);
    SameFiles(k, k2);
    forall i | 0 <= i < NINODE ensures InodeLockOk(k2, i) { assert InodeLockOk(k, i); }
    forall s | 0 <= s < NBUF ensures SlotOk(k2, s) { assert SlotOk(k, s); }
    forall p | 0 <= p < NPROC && p != k.cur ensures Calm(k, k2, p) { assert ProcOk(k, p); }
    Together(k, k2);
  }

  lemma TakesTerminal(k: K)
    requires Inv(k) && k.t.st[k.cur] == Running && !k.t.termBusy && InodeOf(k.loc[k.cur]) == -1 == BufferOf(k.loc[k.cur])
    requires ProcOk(At(k.(t := AcquireTerminal(k.t, k.cur).0), HoldTerminal), k.cur)
    ensures Inv(At(k.(t := AcquireTerminal(k.t, k.cur).0), HoldTerminal))
  {
    hide LocOk, FileOk, BlocksDistinct, InodeOf, BufferOf, Request, OpOk;
    var k2 := At(k.(t := AcquireTerminal(k.t, k.cur).0), HoldTerminal);
    assert InodeOf(HoldTerminal) == -1 == BufferOf(HoldTerminal) by { UserHoldsNothing(); }
    SameFiles(k, k2);
    forall i | 0 <= i < NINODE ensures InodeLockOk(k2, i) { assert InodeLockOk(k, i); }
    forall s | 0 <= s < NBUF ensures SlotOk(k2, s) { assert SlotOk(k, s); }
    forall p | 0 <= p < NPROC && p != k.cur ensures Calm(k, k2, p) { assert ProcOk(k, p); }
    Together(k, k2);
  }

  lemma ReadsTerminal(k: K)
    requires Inv(k) && k.t.st[k.cur] == Running && !k.t.termBusy && InodeOf(k.loc[k.cur]) == -1 == BufferOf(k.loc[k.cur])
    requires ProcOk(At(k.(t := AcquireTerminal(k.t, k.cur).0.(st := k.t.st[k.cur := WaitTerminal]), console := true), TermReading), k.cur)
    ensures Inv(At(k.(t := AcquireTerminal(k.t, k.cur).0.(st := k.t.st[k.cur := WaitTerminal]), console := true), TermReading))
  {
    hide LocOk, FileOk, BlocksDistinct, InodeOf, BufferOf, Request, OpOk;
    var k2 := At(k.(t := AcquireTerminal(k.t, k.cur).0.(st := k.t.st[k.cur := WaitTerminal]), console := true), TermReading);
    assert InodeOf(TermReading) == -1 == BufferOf(TermReading) by { UserHoldsNothing(); }
    SameFiles(k, k2);
    forall i | 0 <= i < NINODE ensures InodeLockOk(k2, i) { assert InodeLockOk(k, i); }
    forall s | 0 <= s < NBUF ensures SlotOk(k2, s) { assert SlotOk(k, s); }
    forall p | 0 <= p < NPROC && p != k.cur ensures Calm(k, k2, p) { assert ProcOk(k, p); }
    Together(k, k2);
  }

  lemma FreesTerminal(k: K)
    requires Inv(k) && k.t.st[k.cur] == Running && k.loc[k.cur] == HoldTerminal && !k.console
    requires ProcOk(At(k.(t := ReleaseTerminal(k.t, k.cur)), User), k.cur)
    ensures Inv(At(k.(t := ReleaseTerminal(k.t, k.cur)), User))
  {
    hide LocOk, FileOk, BlocksDistinct, InodeOf, BufferOf, Request, OpOk;
    var k2 := At(k.(t := ReleaseTerminal(k.t, k.cur)), User);
    assert InodeOf(User) == -1 == BufferOf(User) && InodeOf(HoldTerminal) == -1 == BufferOf(HoldTerminal) by { UserHoldsNothing(); }
    assert ProcOk(k, k.cur);
    SameFiles(k, k2);
    forall i | 0 <= i < NINODE ensures InodeLockOk(k2, i) { assert InodeLockOk(k, i); }
    forall s | 0 <= s < NBUF ensures SlotOk(k2, s) { assert SlotOk(k, s); }
    forall p | 0 <= p < NPROC && p != k.cur ensures Calm(k, k2, p) { assert ProcOk(k, p); }
    Together(k, k2);
  }

  lemma Cleans(k: K, dirty: seq<bool>)
    requires Inv(k) && k.t.st[k.cur] == Running && |dirty| == NBUF
    requires forall s | 0 <= s < NBUF :: dirty[s] ==> k.dirty[s]
    requires ProcOk(k.(dirty := dirty), k.cur)
    ensures Inv(k.(dirty := dirty))
  {
    hide LocOk, FileOk, BlocksDistinct, InodeOf, BufferOf, Request, OpOk;
    var k2 := k.(dirty := dirty);
    SameFiles(k, k2);
    forall i | 0 <= i < NINODE ensures InodeLockOk(k2, i) { assert InodeLockOk(k, i); }
    forall s | 0 <= s < NBUF ensures SlotOk(k2, s) { assert SlotOk(k, s); }
    forall p | 0 <= p < NPROC && p != k.cur ensures Calm(k, k2, p) { assert ProcOk(k, p); }
    Together(k, k2);
  }

  lemma Tags(k: K, s: nat, b: nat, l: Loc)
    requires Inv(k) && k.t.st[k.cur] == Running && s < NBUF && BufferOf(k.loc[k.cur]) == s && b < NBLOCK && b % 4 == s && !k.loc[k.cur].HoldTerminal?
    requires InodeOf(l) == InodeOf(k.loc[k.cur]) && BufferOf(l) == s
    requires ProcOk(At(k.(tag := k.tag[s := b]), l), k.cur)
    ensures Inv(At(k.(tag := k.tag[s := b]), l))
  {
    hide LocOk, FileOk, BlocksDistinct, InodeOf, BufferOf, Request, OpOk;
    var k2 := At(k.(tag := k.tag[s := b]), l);
    assert ProcOk(k, k.cur);
    SameFiles(k, k2);
    forall i | 0 <= i < NINODE ensures InodeLockOk(k2, i) { assert InodeLockOk(k, i); }
    forall s | 0 <= s < NBUF ensures SlotOk(k2, s) { assert SlotOk(k, s); }
    forall p | 0 <= p < NPROC && p != k.cur ensures Calm(k, k2, p) { assert ProcOk(k, p); }
    Together(k, k2);
  }

  lemma Reads(k: K, w: Word)
    requires Inv(k) && k.t.st[k.cur] == Running
    requires ProcOk(k.(got := k.got[k.cur := w]), k.cur)
    ensures Inv(k.(got := k.got[k.cur := w]))
  {
    hide LocOk, FileOk, BlocksDistinct, InodeOf, BufferOf, Request, OpOk;
    var k2 := k.(got := k.got[k.cur := w]);
    SameFiles(k, k2);
    forall i | 0 <= i < NINODE ensures InodeLockOk(k2, i) { assert InodeLockOk(k, i); }
    forall s | 0 <= s < NBUF ensures SlotOk(k2, s) { assert SlotOk(k, s); }
    forall p | 0 <= p < NPROC && p != k.cur ensures Calm(k, k2, p) { assert ProcOk(k, p); }
    Together(k, k2);
  }

  lemma Writes(k: K, s: nat, page: Page)
    requires Inv(k) && k.t.st[k.cur] == Running && s < NBUF && BufferOf(k.loc[k.cur]) == s && k.tag[s] != -1
    requires ProcOk(k.(frames := k.frames[BUFFER_BASE + s := page], dirty := k.dirty[s := true]), k.cur)
    ensures Inv(k.(frames := k.frames[BUFFER_BASE + s := page], dirty := k.dirty[s := true]))
  {
    hide LocOk, FileOk, BlocksDistinct, InodeOf, BufferOf, Request, OpOk;
    var k2 := k.(frames := k.frames[BUFFER_BASE + s := page], dirty := k.dirty[s := true]);
    assert ProcOk(k, k.cur);
    SameFiles(k, k2);
    forall i | 0 <= i < NINODE ensures InodeLockOk(k2, i) { assert InodeLockOk(k, i); }
    forall s | 0 <= s < NBUF ensures SlotOk(k2, s) { assert SlotOk(k, s); }
    forall p | 0 <= p < NPROC && p != k.cur ensures Calm(k, k2, p) { assert ProcOk(k, p); }
    Together(k, k2);
  }

  lemma StepWantInode(k: K, i: nat, body: Body)
    requires Inv(k) && k.t.st[k.cur] == Running && k.loc[k.cur] == WantInode(i, body)
    ensures i < NINODE && Inv(Wanting(k, AcquireInode(k.t, i, k.cur), HoldInode(i, body)))
  {
    hide FileOk, BlocksDistinct, SlotOk, InodeLockOk, DeviceOk;
    assert ProcOk(k, k.cur);
    if k.t.inodeLock[i] != -1 {
      Naps(k, WaitFile, i);
    } else if !k.t.named[i] {
      Moves(k, User);
    } else {
      TakesInode(k, i, HoldInode(i, body));
    }
  }

  lemma StepWantBuffer(k: K, i: nat, op: Op)
    requires Inv(k) && k.t.st[k.cur] == Running && k.loc[k.cur] == WantBuffer(i, op)
    ensures Inv(Wanting(k, AcquireBuffer(k.t, Slot(op), k.cur), HoldBuffer(i, op)))
  {
    hide FileOk, BlocksDistinct, SlotOk, InodeLockOk, DeviceOk;
    assert ProcOk(k, k.cur);
    if k.t.bufLock[Slot(op)] != -1 {
      Naps(k, WaitBuffer, Slot(op));
    } else {
      TakesBuffer(k, Slot(op), HoldBuffer(i, op));
    }
  }

  lemma StepHoldBuffer(k: K, i: nat, op: Op)
    requires Inv(k) && k.t.st[k.cur] == Running && k.loc[k.cur] == HoldBuffer(i, op)
    ensures Inv(WithBuffer(k, i, op))
  {
    hide FileOk, BlocksDistinct, InodeLockOk, DeviceOk;
    assert ProcOk(k, k.cur) && SlotOk(k, Slot(op));
    var s := Slot(op);
    Moves(k, if k.tag[s] == op.block then Access(i, op) else if k.dirty[s] then WantStore(i, op, k.tag[s]) else WantLoad(i, op));
  }

  lemma StepTransfer(k: K, store: bool, page: nat, block: nat, l: Loc)
    requires Inv(k) && k.t.st[k.cur] == Running
    requires match k.loc[k.cur]
             case WantStore(i, op, b) => store && page == BUFFER_BASE + Slot(op) && block == b && l == Storing(i, op, b)
             case WantLoad(i, op) => !store && page == BUFFER_BASE + Slot(op) && block == op.block && l == Loading(i, op)
             case WantPage(pg, b) => !store && page == pg && block == b && l == LoadingPage(pg, b)
             case _ => false
    ensures Inv(Transfer(k, store, page, block, l))
  {
    hide FileOk, BlocksDistinct, SlotOk, InodeLockOk, DeviceOk;
    assert ProcOk(k, k.cur);
    if k.t.diskBusy {
      assert k.t.wait[k.cur := k.t.wait[k.cur]] == k.t.wait;
      Naps(k, WaitDisk, k.t.wait[k.cur]);
    } else {
      StartsTransfer(k, store, page, block, l);
    }
  }

  lemma StepStoring(k: K, i: nat, op: Op, b: int)
    requires Inv(k) && k.t.st[k.cur] == Running && k.loc[k.cur] == Storing(i, op, b)
    ensures Inv(At(k.(dirty := k.dirty[Slot(op) := false]), WantLoad(i, op)))
  {
    hide FileOk, BlocksDistinct, SlotOk, InodeLockOk, DeviceOk;
    assert ProcOk(k, k.cur);
    Cleans(k, k.dirty[Slot(op) := false]);
    Moves(k.(dirty := k.dirty[Slot(op) := false]), WantLoad(i, op));
  }

  lemma StepLoading(k: K, i: nat, op: Op)
    requires Inv(k) && k.t.st[k.cur] == Running && k.loc[k.cur] == Loading(i, op)
    ensures Inv(At(k.(tag := k.tag[Slot(op) := op.block]), Access(i, op)))
  {
    hide FileOk, BlocksDistinct, SlotOk, InodeLockOk, DeviceOk;
    assert ProcOk(k, k.cur);
    Tags(k, Slot(op), op.block, Access(i, op));
  }

  lemma StepAccess(k: K, i: nat, op: Op)
    requires Inv(k) && k.t.st[k.cur] == Running && k.loc[k.cur] == Access(i, op)
    ensures Inv(Touch(k, i, op))
  {
    hide FileOk, BlocksDistinct, SlotOk, InodeLockOk, DeviceOk;
    assert ProcOk(k, k.cur);
    var s := Slot(op);
    var page := k.frames[BUFFER_BASE + s];
    match op.put {
      case Nothing =>
        Reads(k, page[op.at % 512]);
        FreesBuffer(k.(got := k.got[k.cur := page[op.at % 512]]), s, EndInode(i, op));
      case Store(w) =>
        Writes(k, s, page[op.at % 512 := w]);
        FreesBuffer(k.(frames := k.frames[BUFFER_BASE + s := page[op.at % 512 := w]], dirty := k.dirty[s := true]), s, EndInode(i, op));
    }
  }

  lemma StepTerminal(k: K, reading: bool)
    requires Inv(k) && k.t.st[k.cur] == Running && k.loc[k.cur] == WantTerminal(reading)
    ensures var (t1, got) := AcquireTerminal(k.t, k.cur);
            Inv(if got.Asleep? then k.(t := t1)
                else if !reading then At(k.(t := t1), HoldTerminal)
                else At(k.(t := t1.(st := t1.st[k.cur := WaitTerminal]), console := true), TermReading))
  {
    hide FileOk, BlocksDistinct, SlotOk, InodeLockOk, DeviceOk;
    assert ProcOk(k, k.cur);
    if k.t.termBusy {
      assert k.t.wait[k.cur := k.t.wait[k.cur]] == k.t.wait;
      Naps(k, WaitTerminal, k.t.wait[k.cur]);
    } else if !reading {
      TakesTerminal(k);
    } else {
      ReadsTerminal(k);
    }
  }

  lemma StepHoldTerminal(k: K)
    requires Inv(k) && k.t.st[k.cur] == Running && k.loc[k.cur] == HoldTerminal
    ensures Inv(At(k.(t := ReleaseTerminal(k.t, k.cur)), User))
  {
    hide FileOk, BlocksDistinct, SlotOk, InodeLockOk;
    assert ProcOk(k, k.cur);
    FreesTerminal(k);
  }

  lemma StepReturns(k: K)
    requires Inv(k) && k.t.st[k.cur] == Running && (k.loc[k.cur] == TermReading || k.loc[k.cur].LoadingPage?)
    ensures Inv(At(k, User))
  {
    hide FileOk, BlocksDistinct, SlotOk, InodeLockOk, DeviceOk;
    assert ProcOk(k, k.cur);
    Moves(k, User);
  }

  lemma StepCall(k: K, l: Loc)
    requires Inv(k) && Enabled(k, Call(l))
    ensures Inv(At(k, l))
  {
    hide FileOk, BlocksDistinct, SlotOk, InodeLockOk, DeviceOk;
    assert ProcOk(k, k.cur);
    Moves(k, l);
  }

  // ---- files

  lemma FreshIsDistinct(k: K, i: nat, j: nat, b: nat)
    requires Shape(k) && FilesOk(k) && i < NINODE && j < 4 && b < NBLOCK && !k.used[b]
    ensures BlocksDistinct(k.(used := k.used[b := true], blocks := k.blocks[i := k.blocks[i][j := b]]))
  {
    var k2 := k.(used := k.used[b := true], blocks := k.blocks[i := k.blocks[i][j := b]]);
    forall i1, j1 | 0 <= i1 < NINODE && 0 <= j1 < 4 ensures k.blocks[i1][j1] != b {
      assert FileOk(k, i1);
    }
    assert forall i1, j1 | 0 <= i1 < NINODE && 0 <= j1 < 4 ::
        k2.blocks[i1][j1] == if i1 == i && j1 == j then b else k.blocks[i1][j1];
  }

  /** A file gets its next block, which was free. */
  lemma GrowsFile(k: K, i: nat, j: nat, b: nat)
    requires Inv(k) && k.t.st[k.cur] == Running && i < NINODE && i != INODE_ROOT && j < 4 && FREE_AREA <= b < SWAP_AREA && !k.used[b]
    requires InodeOf(k.loc[k.cur]) == i && k.loc[k.cur].HoldInode?
    ensures Inv(k.(used := k.used[b := true], blocks := k.blocks[i := k.blocks[i][j := b]]))
  {
    hide LocOk, SlotOk, InodeLockOk, DeviceOk, InodeOf, BufferOf, Request, OpOk;
    var k2 := k.(used := k.used[b := true], blocks := k.blocks[i := k.blocks[i][j := b]]);
    assert ProcOk(k, k.cur);
    forall i2 | 0 <= i2 < NINODE ensures FileOk(k2, i2) { assert FileOk(k, i2); }
    FreshIsDistinct(k, i, j, b);
    forall p | 0 <= p < NPROC && p != k.cur ensures Calm(k, k2, p) { assert ProcOk(k, p); }
    HoldsStill(k, k2);
    SameTables(k, k2);
    Together(k, k2);
  }

  lemma HoldsStill(k: K, k2: K)
    requires Shape(k) && Shape(k2) && ProcOk(k, k.cur) && k2.t == k.t && k2.loc == k.loc && k2.cur == k.cur
    requires k.loc[k.cur].HoldInode? || k.loc[k.cur] == User
    ensures ProcOk(k2, k.cur)
  {
  }

  lemma SameTables(k: K, k2: K)
    requires Inv(k) && Shape(k2) && k2.t == k.t && k2.loc == k.loc && k2.cur == k.cur && k2.tag == k.tag
    requires k2.hw == k.hw && k2.console == k.console && forall s | 0 <= s < NBUF :: k2.dirty[s] ==> k.dirty[s]
    ensures TablesOk(k2)
  {
    hide ProcOk, FileOk, BlocksDistinct, InodeOf, BufferOf, Request;
    forall i | 0 <= i < NINODE ensures InodeLockOk(k2, i) { assert InodeLockOk(k, i); }
    forall s | 0 <= s < NBUF ensures SlotOk(k2, s) { assert SlotOk(k, s); }
  }

  /** An unlocked file loses its blocks, which become free. */
  lemma ForgetsFile(k: K, i: nat)
    requires Inv(k) && k.t.st[k.cur] == Running && k.loc[k.cur] == User && i < NINODE && k.t.inodeLock[i] == -1
    ensures Inv(Deleted(k, i))
  {
    hide LocOk, InodeOf, BufferOf, Request, OpOk;
    var k2 := Deleted(k, i);
    forall i2 | 0 <= i2 < NINODE ensures FileOk(k2, i2) {
      assert FileOk(k, i2);
      assert forall j | 0 <= j < 4 && i2 != i && k.blocks[i2][j] != -1 :: k.blocks[i2][j] !in k.blocks[i];
    }
    forall i2 | 0 <= i2 < NINODE ensures InodeLockOk(k2, i2) { assert InodeLockOk(k, i2); }
    forall s | 0 <= s < NBUF ensures SlotOk(k2, s) { assert SlotOk(k, s); }
    forall p | 0 <= p < NPROC && p != k.cur ensures Calm(k, k2, p) { assert ProcOk(k, p); }
    assert ProcOk(k2, k.cur) by { AtUser(k2); }
    Together(k, k2);
  }

  lemma AtUser(k: K)
    requires Shape(k) && k.loc[k.cur] == User && k.t.st[k.cur] == Running
    ensures ProcOk(k, k.cur)
  {
  }

  lemma StepDelete(k: K, i: nat)
    requires Inv(k) && k.t.st[k.cur] == Running && k.loc[k.cur] == HoldInode(i, Deleting(false)) && i < NINODE
    ensures Inv(LeaveInode(Deleted(k, i), i))
  {
    hide LocOk, FileOk, BlocksDistinct, SlotOk, InodeLockOk, DeviceOk;
    assert ProcOk(k, k.cur);
    var k1 := LeaveInode(k, i);
    AtUser(k1);
    FreesInode(k, i);
    ForgetsFile(k1, i);
    assert Deleted(k1, i) == LeaveInode(Deleted(k, i), i);
  }

  lemma StepHoldInode(k: K, i: nat, body: Body, at: nat)
    requires Inv(k) && Enabled(k, Turn(at)) && k.loc[k.cur] == HoldInode(i, body)
    ensures Inv(WithInode(k, i, body, at))
  {
    hide SlotOk, InodeLockOk, DeviceOk, BlocksDistinct;
    assert ProcOk(k, k.cur);
    assert FileOk(k, i);
    if body == Deleting(false) {
      StepDelete(k, i);
    } else if body == Plain || body == Deleting(true) || (body == Reading && (i == INODE_ROOT || at == k.size[i])) {
      AtUser(LeaveInode(k, i));
      FreesInode(k, i);
    } else if body == Reading {
      assert 512 * (at / 512) < k.size[i];
      Moves(k, WantBuffer(i, Op(at, k.blocks[i][at / 512], Nothing)));
    } else {
      StepWrite(k, i, body.w, at);
    }
  }

  lemma StepWrite(k: K, i: nat, w: Word, at: nat)
    requires Inv(k) && Enabled(k, Turn(at)) && k.loc[k.cur] == HoldInode(i, Writing(w))
    ensures Inv(WithInode(k, i, Writing(w), at))
  {
    hide SlotOk, InodeLockOk, DeviceOk, BlocksDistinct;
    assert ProcOk(k, k.cur);
    assert FileOk(k, i);
    var b := FirstFree(k.used, FREE_AREA);
    if Grows(k, i, at) {
      GrowsFile(k, i, at / 512, b);
    } else {
      assert 512 * (at / 512) < k.size[i];
    }
    var k1 := Grown(k, i, at);
    assert ProcOk(k1, k.cur);
    Moves(k1, WantBuffer(i, Op(at, k1.blocks[i][at / 512], Store(w))));
  }

  lemma StepEndInode(k: K, i: nat, op: Op)
    requires Inv(k) && k.t.st[k.cur] == Running && k.loc[k.cur] == EndInode(i, op)
    ensures i < NINODE && Inv(Finish(k, i, op))
  {
    hide FileOk, BlocksDistinct, SlotOk, InodeLockOk, DeviceOk;
    assert ProcOk(k, k.cur);
    if op.put.Store? && op.at == k.size[i] {
      Lengthens(k, i, op);
    }
    var k1 := if op.put.Store? && op.at == k.size[i] then k.(size := k.size[i := k.size[i] + 1]) else k;
    AtUser(LeaveInode(k1, i));
    FreesInode(k1, i);
  }

  lemma Lengthens(k: K, i: nat, op: Op)
    requires Inv(k) && k.t.st[k.cur] == Running && k.loc[k.cur] == EndInode(i, op) && i < NINODE && op.at == k.size[i]
    ensures Inv(k.(size := k.size[i := k.size[i] + 1]))
  {
    hide LocOk, SlotOk, InodeLockOk, DeviceOk, Request;
    var k2 := k.(size := k.size[i := k.size[i] + 1]);
    assert ProcOk(k, k.cur);
    forall i2 | 0 <= i2 < NINODE ensures FileOk(k2, i2) { assert FileOk(k, i2); }
    forall p | 0 <= p < NPROC && p != k.cur ensures Calm(k, k2, p) { assert ProcOk(k, p); }
    EndsStill(k, k2);
    SameTables(k, k2);
    Together(k, k2);
  }

  lemma EndsStill(k: K, k2: K)
    requires Shape(k) && Shape(k2) && ProcOk(k, k.cur) && k2.t == k.t && k2.loc == k.loc && k2.cur == k.cur && k2.blocks == k.blocks
    requires k.loc[k.cur].EndInode? && k2.size[k.loc[k.cur].i] >= k.size[k.loc[k.cur].i]
    ensures ProcOk(k2, k.cur)
  {
  }

  // ---- interrupts and process events

  /** Another state for a process in user mode. */
  lemma SetsState(k: K, p: nat, s: PState)
    requires Inv(k) && k.t.st[k.cur] == Running && p < NPROC && k.loc[p] == User
    requires s in {Ready, Created, Terminated} && (p == 0 ==> s == Ready)
    ensures Inv(SetState(k, p, s))
  {
    hide LocOk, InodeOf, BufferOf, Request, OpOk, FileOk, BlocksDistinct;
    var k2 := SetState(k, p, s);
    SameFiles(k, k2);
    assert ProcOk(k, p);
    assert k.t.st[p] != WaitDisk && k.t.st[p] != WaitTerminal by { UserStates(k, p); }
    forall i | 0 <= i < NINODE ensures InodeLockOk(k2, i) { assert InodeLockOk(k, i); }
    forall j | 0 <= j < NBUF ensures SlotOk(k2, j) { assert SlotOk(k, j); }
    forall q | 0 <= q < NPROC ensures ProcOk(k2, q) {
      assert ProcOk(k, q);
      if q == p {
        UserStates(k2, p);
      } else if k.t.st[q] != Running {
        Bystander(k, k2, q);
      } else {
        SelfStill(k, k2, q);
      }
    }
  }

  lemma UserStates(k: K, p: nat)
    requires Shape(k) && p < NPROC && k.loc[p] == User
    ensures LocOk(k, p) <==> k.t.st[p] in {Ready, Running, Created, Terminated}
    ensures InodeOf(User) == -1 == BufferOf(User)
  {
  }

  lemma SelfStill(k: K, k2: K, q: nat)
    requires Shape(k) && Shape(k2) && q < NPROC && ProcOk(k, q) && q == k.cur == k2.cur && k.t.st[q] == Running
    requires exists p: nat, s | p < NPROC && p != q :: k2 == SetState(k, p, s)
    ensures ProcOk(k2, q)
  {
  }

  lemma StepDispatch(k: K, q: nat)
    requires Inv(k) && Enabled(k, Dispatch(q))
    ensures Inv(After(k, Dispatch(q)))
  {
    hide LocOk, FileOk, BlocksDistinct, InodeOf, BufferOf, Request, OpOk;
    var k2 := After(k, Dispatch(q));
    SameFiles(k, k2);
    forall p | 0 <= p < NPROC ensures ProcOk(k2, p) {
      assert ProcOk(k, p);
      if p != q {
        Bystander(k, k2, p);
      } else {
        Resumes(k, q);
      }
    }
    forall i | 0 <= i < NINODE ensures InodeLockOk(k2, i) { assert InodeLockOk(k, i); }
    forall s | 0 <= s < NBUF ensures SlotOk(k2, s) { assert SlotOk(k, s); }
  }

  lemma Resumes(k: K, q: nat)
    requires Shape(k) && Enabled(k, Dispatch(q)) && ProcOk(k, q)
    ensures ProcOk(After(k, Dispatch(q)), q)
  {
  }

  lemma StepCreate(k: K, i: nat)
    requires Inv(k) && Enabled(k, Create(i))
    ensures Inv(After(k, Create(i)))
  {
    hide LocOk, InodeOf, BufferOf, Request, OpOk;
    var k2 := After(k, Create(i));
    assert InodeLockOk(k, i);
    forall i2 | 0 <= i2 < NINODE ensures FileOk(k2, i2) && InodeLockOk(k2, i2) { assert FileOk(k, i2) && InodeLockOk(k, i2); }
    forall s | 0 <= s < NBUF ensures SlotOk(k2, s) { assert SlotOk(k, s); }
    forall p | 0 <= p < NPROC && p != k.cur ensures Calm(k, k2, p) { assert ProcOk(k, p); }
    AtUser(k2);
    Together(k, k2);
  }

  lemma StepConsoleDone(k: K)
    requires Inv(k) && Enabled(k, ConsoleDone)
    ensures Inv(After(k, ConsoleDone))
  {
    hide LocOk, InodeOf, BufferOf, Request, OpOk, FileOk, BlocksDistinct;
    var k2 := After(k, ConsoleDone);
    SameFiles(k, k2);
    assert ProcOk(k, k.cur);
    UserStates(k2, k.cur);
    forall i | 0 <= i < NINODE ensures InodeLockOk(k2, i) { assert InodeLockOk(k, i); }
    forall s | 0 <= s < NBUF ensures SlotOk(k2, s) { assert SlotOk(k, s); }
    forall p | 0 <= p < NPROC && p != k.cur ensures Calm(k, k2, p) { assert ProcOk(k, p); }
    Together(k, k2);
  }

  lemma StepDiskDone(k: K)
    requires Inv(k) && Enabled(k, DiskDone)
    ensures Inv(After(k, DiskDone))
  {
    hide Inv, ProcOk, InodeOf, BufferOf, Request, TablesOk, FilesOk, Calm, Completed;
    var k2 := After(k, DiskDone);
    SameFiles(k, k2) by { CompletedIs(k); }
    DiskDoneTables(k);
    DiskDoneSelf(k);
    forall p | 0 <= p < NPROC && p != k.cur ensures Calm(k, k2, p) { DiskDoneIsCalm(k, p); }
    CompletedIs(k);
    Together(k, k2);
  }

  lemma CompletedIs(k: K)
    requires Inv(k) && Enabled(k, DiskDone)
    ensures var k2 := Completed(k); k2.cur == k.cur && k2.blocks == k.blocks && k2.size == k.size && k2.used == k.used && k2.loc == k.loc
  {
  }

  lemma DiskDoneSelf(k: K)
    requires Inv(k) && Enabled(k, DiskDone)
    ensures ProcOk(Completed(k), k.cur)
  {
    hide LocOk, InodeOf, BufferOf, Request, OpOk, FileOk, BlocksDistinct, SlotOk, InodeLockOk;
    assert ProcOk(k, k.cur);
    UserStates(Completed(k), k.cur);
  }

  lemma DiskDoneTables(k: K)
    requires Inv(k) && Enabled(k, DiskDone)
    ensures TablesOk(Completed(k))
  {
    hide LocOk, InodeOf, BufferOf, Request, OpOk, FileOk, BlocksDistinct, ProcOk;
    var k2 := Completed(k);
    forall i | 0 <= i < NINODE ensures InodeLockOk(k2, i) { assert InodeLockOk(k, i); }
    forall s | 0 <= s < NBUF ensures SlotOk(k2, s) { assert SlotOk(k, s); }
  }

  lemma DiskDoneIsCalm(k: K, p: nat)
    requires Inv(k) && Enabled(k, DiskDone) && p < NPROC && p != k.cur
    ensures Calm(k, Completed(k), p)
  {
    hide LocOk, InodeOf, BufferOf, Request, OpOk, FileOk, BlocksDistinct, SlotOk, InodeLockOk, KeepsTransfer;
    assert ProcOk(k, p);
    OtherTransfers(k, p);
  }

  lemma OtherTransfers(k: K, p: nat)
    requires Inv(k) && Enabled(k, DiskDone) && p < NPROC && p != k.cur
    ensures KeepsTransfer(k, After(k, DiskDone), p)
  {
    hide FileOk, BlocksDistinct, InodeLockOk, OpOk;
    var o := k.t.diskOwner;
    assert ProcOk(k, o) && ProcOk(k, p);
    if BufferOf(k.loc[p]) >= 0 && Request(k.loc[p]).Busy? && p != o {
      RequestInSlot(k, p);
      if BufferOf(k.loc[o]) >= 0 {
        RequestInSlot(k, o);
      }
    }
  }

  /** A buffer transfer concerns a block that maps to the locked slot. */
  lemma RequestInSlot(k: K, p: nat)
    requires Inv(k) && p < NPROC && BufferOf(k.loc[p]) >= 0 && Request(k.loc[p]).Busy?
    ensures Request(k.loc[p]).block % 4 == BufferOf(k.loc[p])
  {
    hide FileOk, BlocksDistinct, InodeLockOk, OpOk;
    assert ProcOk(k, p) && SlotOk(k, BufferOf(k.loc[p]));
  }

  // ---- every step

  lemma StepTurn(k: K, at: nat)
    requires Inv(k) && Enabled(k, Turn(at))
    ensures Inv(Turned(k, at))
  {
    hide ProcOk, SlotOk, InodeLockOk, DeviceOk, FileOk, BlocksDistinct, LocOk;
    match k.loc[k.cur] {
      case WantInode(i, body) => StepWantInode(k, i, body);
      case HoldInode(i, body) => StepHoldInode(k, i, body, at);
      case WantBuffer(i, op) => StepWantBuffer(k, i, op);
      case HoldBuffer(i, op) => StepHoldBuffer(k, i, op);
      case WantStore(i, op, b) => StepTransfer(k, true, BUFFER_BASE + Slot(op), b, Storing(i, op, b));
      case Storing(i, op, b) => StepStoring(k, i, op, b);
      case WantLoad(i, op) => StepTransfer(k, false, BUFFER_BASE + Slot(op), op.block, Loading(i, op));
      case Loading(i, op) => StepLoading(k, i, op);
      case Access(i, op) => StepAccess(k, i, op);
      case EndInode(i, op) => StepEndInode(k, i, op);
      case WantTerminal(reading) => StepTerminal(k, reading);
      case HoldTerminal => StepHoldTerminal(k);
      case TermReading => StepReturns(k);
      case WantPage(page, block) => StepTransfer(k, false, page, block, LoadingPage(page, block));
      case LoadingPage(_, _) => StepReturns(k);
    }
  }

  /** Every step of any process, and every interrupt, keeps the invariant. */
  lemma StepKeeps(k: K, e: Event)
    requires Inv(k) && Enabled(k, e)
    ensures Inv(After(k, e))
  {
    hide LocOk, SlotOk, InodeLockOk, DeviceOk, FileOk, BlocksDistinct, Turned, Completed;
    match e {
      case Call(l) => StepCall(k, l);
      case Turn(at) => StepTurn(k, at);
      case Preempt => SetsState(k, k.cur, Ready);
      case Dispatch(q) => StepDispatch(k, q);
      case DiskDone => StepDiskDone(k);
      case ConsoleDone => StepConsoleDone(k);
      case Create(i) => StepCreate(k, i);
      case Fork(c) =>
        assert ProcOk(k, c);
        assert k.loc[c] == User by { OnlyUsersEnd(k, c); }
        SetsState(k, c, Created);
      case Exit => SetsState(k, k.cur, Terminated);
    }
  }

  lemma OnlyUsersEnd(k: K, c: nat)
    requires Shape(k) && c < NPROC && ProcOk(k, c) && k.t.st[c] == Terminated
    ensures k.loc[c] == User
  {
  }
}
