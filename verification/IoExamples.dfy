/** Runs of the kernel from boot that show where a promise ends: a freed block loses what
    its buffer holds, a block just given to a file can be stale, and a write to a full
    file leaves its inode locked. */
module IoExamples {
  import opened Words
  import opened ResourceManager
  import opened IoKernel
  import opened IoSafety
  import opened IoLocks
  import opened IoCache
  import opened IoFiles

  ghost predicate Reachable(k: K)
  {
    exists boot: K, es: seq<Event> :: Starts(boot, es) && Outcome(boot, es) == k
  }

  ghost function Starts(boot: K, es: seq<Event>): (r: bool)
    ensures r ==> Shape(boot) && Possible(boot, es)
  {
    Booted(boot) && Possible(boot, es)
  }

  lemma {:induction false} OneMore(k: K, es: seq<Event>, e: Event)
    requires Shape(k) && Possible(k, es) && Enabled(Outcome(k, es), e)
    ensures Possible(k, es + [e]) && Outcome(k, es + [e]) == After(Outcome(k, es), e)
    decreases |es|
  {
    hide Enabled, After;
    if es == [] {
      assert [] + [e] == [e] && [e][1..] == [];
    } else {
      assert (es + [e])[1..] == es[1..] + [e];
      OneMore(After(k, es[0]), es[1..], e);
    }
  }

  lemma Reached(k: K, e: Event)
    requires Shape(k) && Reachable(k) && Enabled(k, e)
    ensures Reachable(After(k, e))
  {
    hide Enabled, After, Booted;
    var boot: K, es: seq<Event> :| Starts(boot, es) && Outcome(boot, es) == k;
    OneMore(boot, es, e);
    assert Starts(boot, es + [e]);
  }

  lemma ReachableHolds(k: K)
    requires Reachable(k)
    ensures Inv(k) && OwnedFresh(k)
  {
    hide Booted, Inv, OwnedFresh;
    var boot: K, es: seq<Event> :| Starts(boot, es) && Outcome(boot, es) == k;
    BootHolds(boot);
    BootFresh(boot);
    RunKeeps(boot, es);
    RunFresh(boot, es);
  }

  // ---- a small system

  const Zeros: Page := seq(512, _ => Int(0))

  function Rows(i: nat): seq<int> {
    if i == 0 then [5, -1, -1, -1]
    else if i == 1 then [69, -1, -1, -1]
    else if i == 2 then [73, -1, -1, -1]
    else if i == 4 then [70, 71, 72, 74]
    else [-1, -1, -1, -1]
  }

  /** Beside the root file, files 1 and 2 have one word each, in blocks of the same slot; file 3
      is empty and file 4 is full. */
  function Small(): (k: K)
    ensures Shape(k)
  {
    K(Tables(seq(NPROC, p => if p == 0 then Running else if p == 1 then Created else Terminated), seq(NPROC, _ => -1),
             seq(NINODE, _ => -1), seq(NINODE, i => i <= 4), seq(NBUF, _ => -1), false, 0, false, 0),
      seq(NPROC, _ => User), 0,
      seq(NINODE, i requires 0 <= i < NINODE => Rows(i)),
      seq(NINODE, i => if i == 0 then 512 else if i == 1 || i == 2 then 1 else if i == 3 then 0 else if i == 4 then 2048 else -1),
      seq(NBLOCK, b => b <= 74), seq(NBUF, _ => -1), seq(NBUF, _ => false), Idle, false,
      seq(NPAGE, _ => Zeros), seq(NBLOCK, _ => Zeros), seq(NPROC, _ => Int(0)))
  }

  lemma SmallFiles(i: nat)
    requires i < NINODE
    ensures FileOk(Small(), i)
  {
    assert Small().size[i] == if i == 0 then 512 else if i == 1 || i == 2 then 1 else if i == 3 then 0 else if i == 4 then 2048 else -1;
    assert Small().blocks[i] == Rows(i);
  }

  lemma SmallBlocks()
    ensures BlocksDistinct(Small())
  {
  }

  lemma SmallBoots()
    ensures Booted(Small())
  {
    hide FileOk, BlocksDistinct;
    forall i: nat | i < NINODE ensures FileOk(Small(), i) { SmallFiles(i); }
    SmallBlocks();
  }

  /** Process 1 runs in user mode, alone but for the idle process, and holds nothing. */
  ghost function Alone(k: K): (r: bool)
    ensures r ==> Shape(k)
  {
    && Shape(k) && Reachable(k) && k.cur == 1 && k.t.st[1] == Running && k.t.st[0] == Ready && k.hw == Idle && !k.t.diskBusy
    && (forall p | 2 <= p < NPROC :: k.t.st[p] == Terminated) && (forall p | 0 <= p < NPROC :: k.loc[p] == User)
    && (forall i | 0 <= i < NINODE :: k.t.inodeLock[i] == -1) && (forall s | 0 <= s < NBUF :: k.t.bufLock[s] == -1)
  }

  /** The files, the cache and the disk are the same. */
  predicate SameStore(k: K, k2: K) {
    k2.blocks == k.blocks && k2.size == k.size && k2.used == k.used && k2.tag == k.tag && k2.dirty == k.dirty && k2.frames == k.frames && k2.disk == k.disk
    && k2.t.named == k.t.named
  }

  lemma InitRuns() returns (k: K)
    ensures Alone(k) && SameStore(Small(), k)
  {
    SmallBoots();
    var k0 := Small();
    assert Starts(k0, []) && Outcome(k0, []) == k0;
    var k1 := After(k0, Preempt);
    Reached(k0, Preempt);
    k := After(k1, Dispatch(1));
    Reached(k1, Dispatch(1));
  }

  /** A system call up to the point where it holds its inode. */
  lemma Opens(k: K, i: nat, body: Body) returns (k2: K)
    requires Alone(k) && i < NINODE && k.t.named[i] && (Changes(body) ==> i != INODE_ROOT)
    ensures Shape(k2) && Reachable(k2)
    ensures k2 == k.(loc := k.loc[1 := HoldInode(i, body)], t := k.t.(inodeLock := k.t.inodeLock[i := 1]))
  {
    hide Reachable, Turned;
    var l := WantInode(i, body);
    var k1 := After(k, Call(l));
    Reached(k, Call(l));
    assert k1 == k.(loc := k.loc[1 := l]);
    k2 := After(k1, Turn(0));
    Reached(k1, Turn(0));
    TakesIt(k1, i, body);
  }

  lemma TakesIt(k: K, i: nat, body: Body)
    requires Shape(k) && k.cur == 1 && k.loc[1] == WantInode(i, body) && i < NINODE && k.t.inodeLock[i] == -1 && k.t.named[i]
    ensures Turned(k, 0) == k.(loc := k.loc[1 := HoldInode(i, body)], t := k.t.(inodeLock := k.t.inodeLock[i := 1]))
  {
  }

  /** From there to the lock of the buffer, for a word that is in the file. */
  lemma Locks(k: K, k2: K, i: nat, body: Body, op: Op) returns (k3: K)
    requires Alone(k) && i < NINODE && (body == Reading || body.Writing?) && i != INODE_ROOT
    requires op.at < k.size[i] <= MAX_FILE_SIZE && op.at < MAX_FILE_SIZE && k.blocks[i][op.at / 512] == op.block
    requires op.put == if body.Writing? then Store(body.w) else Nothing
    requires Shape(k2) && Reachable(k2) && k2 == k.(loc := k.loc[1 := HoldInode(i, body)], t := k.t.(inodeLock := k.t.inodeLock[i := 1]))
    ensures Shape(k3) && Reachable(k3)
    ensures k3 == k.(loc := k.loc[1 := HoldBuffer(i, op)], t := k.t.(inodeLock := k.t.inodeLock[i := 1], bufLock := k.t.bufLock[Slot(op) := 1]))
  {
    hide Reachable, Turned, FirstFree;
    var k1 := After(k2, Turn(op.at));
    Reached(k2, Turn(op.at));
    FindsBlock(k2, i, body, op);
    k3 := After(k1, Turn(0));
    Reached(k1, Turn(0));
    TakesSlot(k1, i, op);
  }

  lemma FindsBlock(k: K, i: nat, body: Body, op: Op)
    requires Shape(k) && k.cur == 1 && k.loc[1] == HoldInode(i, body) && i < NINODE && (body == Reading || body.Writing?) && i != INODE_ROOT
    requires op.at < k.size[i] <= MAX_FILE_SIZE && op.at < MAX_FILE_SIZE && k.blocks[i][op.at / 512] == op.block
    requires op.put == if body.Writing? then Store(body.w) else Nothing
    ensures Turned(k, op.at) == At(k, WantBuffer(i, op))
  {
    hide FirstFree;
  }

  lemma TakesSlot(k: K, i: nat, op: Op)
    requires Shape(k) && k.cur == 1 && k.loc[1] == WantBuffer(i, op) && k.t.bufLock[Slot(op)] == -1
    ensures Turned(k, 0) == k.(loc := k.loc[1 := HoldBuffer(i, op)], t := k.t.(bufLock := k.t.bufLock[Slot(op) := 1]))
  {
  }

  /** A clean slot of another block is refilled. */
  lemma Fills(k: K, i: nat, op: Op) returns (k2: K)
    requires Shape(k) && Reachable(k) && k.cur == 1 && k.t.st[1] == Running && k.t.st[0] == Ready && k.hw == Idle && !k.t.diskBusy
    requires (forall p | 0 <= p < NPROC && p != 1 :: k.loc[p] == User) && (forall p | 2 <= p < NPROC :: k.t.st[p] == Terminated)
    requires k.loc[1] == HoldBuffer(i, op) && op.block < NBLOCK && k.tag[Slot(op)] != op.block && !k.dirty[Slot(op)]
    ensures Shape(k2) && Reachable(k2)
    ensures k2 == k.(loc := k.loc[1 := Access(i, op)], tag := k.tag[Slot(op) := op.block], t := k.t.(diskOwner := 1),
                     frames := k.frames[BUFFER_BASE + Slot(op) := k.disk[op.block]])
  {
    hide Reachable, Turned, Woken;
    var k1 := After(k, Turn(0));
    Reached(k, Turn(0));
    assert k1 == k.(loc := k.loc[1 := WantLoad(i, op)]) by { Misses(k, i, op); }
    var k3 := After(k1, Turn(0));
    Reached(k1, Turn(0));
    assert k3 == k.(loc := k.loc[1 := Loading(i, op)], hw := Busy(false, BUFFER_BASE + Slot(op), op.block),
                    t := k.t.(st := k.t.st[1 := WaitDisk], diskBusy := true, diskOwner := 1)) by { Asks(k1, i, op); }
    var k4 := Transferred(k3, i, op);
    assert k4 == k3.(hw := Idle, frames := k.frames[BUFFER_BASE + Slot(op) := k.disk[op.block]], t := k.t.(diskOwner := 1));
    k2 := After(k4, Turn(0));
    Reached(k4, Turn(0));
    assert k2 == k4.(tag := k.tag[Slot(op) := op.block], loc := k.loc[1 := Access(i, op)]) by { Tagged(k4, i, op); }
  }

  lemma Misses(k: K, i: nat, op: Op)
    requires Shape(k) && k.cur == 1 && k.loc[1] == HoldBuffer(i, op) && k.tag[Slot(op)] != op.block && !k.dirty[Slot(op)]
    ensures Turned(k, 0) == At(k, WantLoad(i, op))
  {
  }

  lemma Asks(k: K, i: nat, op: Op)
    requires Shape(k) && k.cur == 1 && k.loc[1] == WantLoad(i, op) && !k.t.diskBusy && k.hw == Idle
    ensures Turned(k, 0) == k.(loc := k.loc[1 := Loading(i, op)], hw := Busy(false, BUFFER_BASE + Slot(op), op.block),
                               t := k.t.(st := k.t.st[1 := WaitDisk], diskBusy := true, diskOwner := 1))
  {
  }

  lemma Tagged(k: K, i: nat, op: Op)
    requires Shape(k) && k.cur == 1 && k.loc[1] == Loading(i, op)
    ensures Turned(k, 0) == At(k.(tag := k.tag[Slot(op) := op.block]), Access(i, op))
  {
  }

  /** The idle process runs until the disk interrupt, and is then preempted. */
  lemma Transferred(k: K, i: nat, op: Op) returns (k2: K)
    requires Shape(k) && Reachable(k) && k.cur == 1 && k.t.st[1] == WaitDisk && k.t.st[0] == Ready && k.loc[0] == User && op.block < NBLOCK
    requires k.hw == Busy(false, BUFFER_BASE + Slot(op), op.block) && k.t.diskBusy && forall p | 2 <= p < NPROC :: k.t.st[p] == Terminated
    ensures Shape(k2) && Reachable(k2)
    ensures k2 == k.(hw := Idle, frames := k.frames[BUFFER_BASE + Slot(op) := k.disk[op.block]],
                     t := k.t.(diskBusy := false, st := k.t.st[1 := Running]))
  {
    hide Reachable, Turned;
    var k1 := After(k, Dispatch(0));
    Reached(k, Dispatch(0));
    var k3 := After(k1, DiskDone);
    Reached(k1, DiskDone);
    assert k3.t.st == k.t.st[0 := Running][1 := Ready];
    var k4 := After(k3, Preempt);
    Reached(k3, Preempt);
    k2 := After(k4, Dispatch(1));
    Reached(k4, Dispatch(1));
    assert k2.t.st == k.t.st[1 := Running];
  }

  /** A write to the only word of file 1, whose block is not cached yet. */
  lemma Writes(k: K, w: Word) returns (k2: K)
    requires Alone(k) && SameStore(Small(), k)
    ensures Alone(k2) && k2.blocks == k.blocks && k2.size == k.size && k2.used == k.used && k2.disk == k.disk && k2.t.named == k.t.named
    ensures k2.tag == k.tag[1 := 69] && k2.dirty == k.dirty[1 := true] && k2.frames[72] == Zeros[0 := w]
  {
    hide Reachable, Turned, Woken;
    var op := Op(0, 69, Store(w));
    var k1 := Opens(k, 1, Writing(w));
    var k3 := Locks(k, k1, 1, Writing(w), op);
    var k4 := Fills(k3, 1, op);
    k2 := EndsWrite(k4, op);
  }

  lemma EndsWrite(k: K, op: Op) returns (k2: K)
    requires Shape(k) && Reachable(k) && k.cur == 1 && k.t.st[1] == Running && k.loc[1] == Access(1, op) && op.put.Store? && op.at < k.size[1]
    requires k.t.bufLock[Slot(op)] == 1 && k.t.inodeLock[1] == 1 && k.t.st[0] == Ready && forall p | 2 <= p < NPROC :: k.t.st[p] == Terminated
    ensures Shape(k2) && Reachable(k2)
    ensures var f := BUFFER_BASE + Slot(op);
            k2 == k.(loc := k.loc[1 := User], frames := k.frames[f := k.frames[f][op.at % 512 := op.put.w]], dirty := k.dirty[Slot(op) := true],
                     t := k.t.(bufLock := k.t.bufLock[Slot(op) := -1], inodeLock := k.t.inodeLock[1 := -1]))
  {
    hide Reachable, Turned;
    var k1 := After(k, Turn(0));
    Reached(k, Turn(0));
    Touched(k, op);
    k2 := After(k1, Turn(0));
    Reached(k1, Turn(0));
    Finished(k1, op);
  }

  lemma Touched(k: K, op: Op)
    requires Shape(k) && k.cur == 1 && k.t.st[1] == Running && k.loc[1] == Access(1, op) && op.put.Store? && k.t.bufLock[Slot(op)] == 1
    requires k.t.st[0] == Ready && forall p | 2 <= p < NPROC :: k.t.st[p] == Terminated
    ensures var f := BUFFER_BASE + Slot(op);
            Turned(k, 0) == k.(loc := k.loc[1 := EndInode(1, op)], frames := k.frames[f := k.frames[f][op.at % 512 := op.put.w]],
                               dirty := k.dirty[Slot(op) := true], t := k.t.(bufLock := k.t.bufLock[Slot(op) := -1]))
  {
    assert ReleaseBuffer(k.t, Slot(op), 1).st == k.t.st;
  }

  lemma Finished(k: K, op: Op)
    requires Shape(k) && k.cur == 1 && k.t.st[1] == Running && k.loc[1] == EndInode(1, op) && k.t.inodeLock[1] == 1 && op.at < k.size[1]
    requires k.t.st[0] == Ready && forall p | 2 <= p < NPROC :: k.t.st[p] == Terminated
    ensures Turned(k, 0) == k.(loc := k.loc[1 := User], t := k.t.(inodeLock := k.t.inodeLock[1 := -1]))
  {
    assert ReleaseInode(k.t, 1, 1).st == k.t.st;
  }

  /** File 1 goes with its dirty buffer. */
  lemma Removes(k: K) returns (k2: K)
    requires Alone(k) && k.t.named[1] && k.size[1] >= 0 && k.blocks[1] == [69, -1, -1, -1] && k.tag[1] == 69
    ensures Alone(k2) && k2.tag == k.tag && k2.frames == k.frames && k2.disk == k.disk && !k2.dirty[1] && !k2.used[69]
    ensures k2.size == k.size[1 := -1] && k2.blocks == k.blocks[1 := [-1, -1, -1, -1]] && k2.t.named == k.t.named[1 := false]
  {
    hide Reachable, Turned;
    var k1 := Opens(k, 1, Deleting(false));
    k2 := After(k1, Turn(0));
    Reached(k1, Turn(0));
    Gone(k1);
  }

  lemma Gone(k: K)
    requires Shape(k) && k.cur == 1 && k.t.st[1] == Running && k.loc[1] == HoldInode(1, Deleting(false)) && k.t.inodeLock[1] == 1
    requires k.t.st[0] == Ready && forall p | 2 <= p < NPROC :: k.t.st[p] == Terminated
    ensures var d := Deleted(k, 1); Turned(k, 0) == d.(loc := k.loc[1 := User], t := d.t.(inodeLock := k.t.inodeLock[1 := -1]))
  {
    assert ReleaseInode(Deleted(k, 1).t, 1, 1).st == k.t.st;
  }

  /** A run from boot after which block 69 is free, clean in the cache, and differs from
      the disk. */
  lemma StaleRun(w: Word) returns (k: K)
    requires w != Int(0)
    ensures Alone(k) && Stale(k, 69) && k.tag[1] == 69 && !k.used[69]
    ensures k.blocks == Small().blocks[1 := [-1, -1, -1, -1]] && k.size == Small().size[1 := -1] && k.t.named == Small().t.named[1 := false]
  {
    hide Reachable, Turned;
    var k0 := InitRuns();
    var k1 := Writes(k0, w);
    k := Removes(k1);
    assert k.frames[72][0] == w && k.disk[69][0] == Int(0);
  }

  /** In every state that the kernel reaches, eviction keeps the content of the blocks of
      this kind: those that some inode owns, or those that none does. */
  ghost predicate EvictionKeeps(owned: bool) {
    forall k: K, e: Event, b: nat | Shape(k) && Reachable(k) && Enabled(k, e) && b < NBLOCK && Evicts(k, e, b) && Owned(k, b) == owned ::
      Content(After(k, e), b) == Content(k, b)
  }

  /** Eviction keeps a block's content if and only if an inode owns the block: a freed
      block can lose what its buffer holds. */
  lemma EvictionKeepsOwned(owned: bool)
    ensures EvictionKeeps(owned) <==> owned
  {
    hide Reachable, Content, Enabled, After, Evicts;
    if owned {
      forall k: K, e: Event, b: nat | Shape(k) && Reachable(k) && Enabled(k, e) && b < NBLOCK && Evicts(k, e, b) && Owned(k, b)
        ensures Content(After(k, e), b) == Content(k, b)
      {
        ReachableHolds(k);
        var i: nat, j: nat :| Owns(k, i, j, b);
        OwnedFollows(k, e, i, j, b);
        EvictingIsNotWriting(k, e, b);
      }
    } else {
      var k, e := FreedBlockIsLost(Int(1));
    }
  }

  lemma EvictingIsNotWriting(k: K, e: Event, b: nat)
    requires Shape(k) && Evicts(k, e, b)
    ensures !WritesBlock(k, e, b)
  {
  }

  /** Another file's read takes the slot of the freed block. */
  lemma FreedBlockIsLost(w: Word) returns (k: K, e: Event)
    requires w != Int(0)
    ensures Shape(k) && Reachable(k) && Enabled(k, e) && Evicts(k, e, 69) && !Owned(k, 69)
    ensures Content(After(k, e), 69) != Content(k, 69)
  {
    hide Reachable, Turned;
    var k0 := StaleRun(w);
    assert k0.blocks[2] == [73, -1, -1, -1] && k0.size[2] == 1;
    var op := Op(0, 73, Nothing);
    var k1 := Opens(k0, 2, Reading);
    k := Locks(k0, k1, 2, Reading, op);
    e := Turn(0);
    ReachableHolds(k);
    assert Stale(k, 69) && Evicts(k, e, 69);
    assert !Owned(k, 69) by {
      forall i: nat, j: nat ensures !Owns(k, i, j, 69) { NotInSmall(k, i, j); }
    }
    StepFollows(k, e, 69);
  }

  lemma NotInSmall(k: K, i: nat, j: nat)
    requires Shape(k) && k.blocks == Small().blocks[1 := [-1, -1, -1, -1]]
    ensures !Owns(k, i, j, 69)
  {
  }

  /** The bound of LiveIsFresh is sharp: the block that a file has just been given, at its
      end, can be stale. */
  lemma GivenBlockIsStale(w: Word) returns (k: K)
    requires w != Int(0)
    ensures Reachable(k) && Shape(k) && Owns(k, 3, 0, 69) && 512 * 0 == k.size[3] && Stale(k, 69)
  {
    hide Reachable, Turned;
    var k0 := StaleRun(w);
    assert k0.size[3] == 0 && k0.blocks[3] == [-1, -1, -1, -1];
    var k1 := Opens(k0, 3, Writing(w));
    k := After(k1, Turn(0));
    GivesFreed(k1, w);
    Reached(k1, Turn(0));
    ReachableHolds(k);
  }

  lemma GivesFreed(k: K, w: Word)
    requires Shape(k) && k.cur == 1 && k.loc[1] == HoldInode(3, Writing(w)) && k.size[3] == 0 && !k.used[69]
    ensures FirstFree(k.used, FREE_AREA) == 69
    ensures Turned(k, 0) == At(k.(used := k.used[69 := true], blocks := k.blocks[3 := k.blocks[3][0 := 69]]), WantBuffer(3, Op(0, 69, Store(w))))
  {
  }

  /** A write to the full file 4 gives up and breaks the kernel's invariant. */
  lemma FullFileLeaks(w: Word) returns (k: K)
    ensures Reachable(k) && Inv(k) && k.t.st[k.cur] == Running && k.loc[k.cur] == HoldInode(4, Writing(w)) && k.size[4] == MAX_FILE_SIZE
    ensures !Inv(WriteTurn(k, 4, w, MAX_FILE_SIZE))
  {
    hide Reachable, Turned, Inv;
    var k0 := InitRuns();
    k := Opens(k0, 4, Writing(w));
    ReachableHolds(k);
    WriteKeepsIffRoom(k, 4, w, MAX_FILE_SIZE);
  }
}
