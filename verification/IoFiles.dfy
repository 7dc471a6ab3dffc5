/** What files contain: the content of a block that an inode owns changes only by the
    words written to it, through eviction, deletion and re-use of blocks, so a file holds
    at each position below its size the word last written there. */
module IoFiles {
  import opened Words
  import opened ResourceManager
  import opened IoKernel
  import opened IoSafety
  import opened IoLocks
  import opened IoCache

  /** Block b is block j of file i. */
  predicate Owns(k: K, i: nat, j: nat, b: nat)
    requires Shape(k)
  {
    i < NINODE && j < 4 && b < NBLOCK && k.blocks[i][j] == b
  }

  /** A writer to block b of file i that has the inode and not yet written. */
  predicate Claims(l: Loc, i: nat, b: nat) {
    (l.WantBuffer? || l.HoldBuffer? || l.Access?) && l.i == i && l.op.put.Store? && l.op.block == b
  }

  /** The holder of slot s is storing the old block. */
  predicate Stores(k: K, h: int, s: nat)
    requires Shape(k)
  {
    0 <= h < NPROC && (k.loc[h].WantStore? || k.loc[h].Storing?) && BufferOf(k.loc[h]) == s
  }

  /** Block j has just been given to file i, which ends where the block starts, and nobody
      can take the block's slot before the writer: it has the slot's lock, or takes it
      before anything else happens, or waits for somebody who stores the slot first. */
  predicate Claimed(k: K, i: nat, j: nat, b: nat)
    requires Shape(k) && i < NINODE
  {
    var p := k.t.inodeLock[i];
    && 0 <= p < NPROC && Claims(k.loc[p], i, b) && k.size[i] == 512 * j
    && (k.loc[p].WantBuffer? ==>
          if k.t.bufLock[b % 4] == -1 then k.cur == p && k.t.st[p] == Running else Stores(k, k.t.bufLock[b % 4], b % 4))
  }

  /** An owned block is stale only while its first word is on its way. */
  ghost predicate OwnedFresh(k: K)
    requires Shape(k)
  {
    forall i: nat, j: nat, b: nat | Owns(k, i, j, b) && Stale(k, b) :: Claimed(k, i, j, b)
  }

  // ---- what a step leaves alone

  /** The step does not touch a claim on file i and slot s: the writer stays where it is. */
  lemma ClaimStays(k: K, k2: K, i: nat, j: nat, b: nat)
    requires Shape(k) && Shape(k2) && i < NINODE && Claimed(k, i, j, b)
    requires k2.t.inodeLock[i] == k.t.inodeLock[i] && k2.size[i] == k.size[i] && k2.t.bufLock[b % 4] == k.t.bufLock[b % 4]
    requires k2.loc[k.t.inodeLock[i]] == k.loc[k.t.inodeLock[i]] && k.t.bufLock[b % 4] != -1
    requires Stores(k, k.t.bufLock[b % 4], b % 4) ==> Stores(k2, k.t.bufLock[b % 4], b % 4)
    ensures Claimed(k2, i, j, b)
  {
  }

  /** The running process is not the writer: then the writer waits for the slot. */
  lemma WriterWaits(k: K, i: nat, j: nat, b: nat)
    requires Inv(k) && i < NINODE && Claimed(k, i, j, b) && k.t.inodeLock[i] != k.cur
    ensures k.loc[k.t.inodeLock[i]].WantBuffer? && Stores(k, k.t.bufLock[b % 4], b % 4) && k.t.bufLock[b % 4] != -1
  {
    hide OpOk, FileOk, BlocksDistinct, InodeLockOk, SlotOk, DeviceOk, InodeOf;
    assert ProcOk(k, k.t.inodeLock[i]);
  }

  lemma HoldsInode(k: K, p: nat)
    requires Inv(k) && p < NPROC && InodeOf(k.loc[p]) >= 0
    ensures InodeOf(k.loc[p]) < NINODE && k.t.inodeLock[InodeOf(k.loc[p])] == p
  {
    hide LocOk, OpOk, FileOk, BlocksDistinct, InodeLockOk, SlotOk, DeviceOk, InodeOf;
    assert ProcOk(k, p);
  }

  lemma HoldsSlot(k: K, p: nat)
    requires Inv(k) && p < NPROC && BufferOf(k.loc[p]) >= 0
    ensures k.t.bufLock[BufferOf(k.loc[p])] == p
  {
    hide LocOk, OpOk, FileOk, BlocksDistinct, InodeLockOk, SlotOk, DeviceOk, BufferOf, InodeOf;
    assert ProcOk(k, p);
  }

  /** Events other than turns. */
  lemma OtherClaims(k: K, e: Event, i: nat, j: nat, b: nat)
    requires Inv(k) && Enabled(k, e) && !e.Turn? && Owns(After(k, e), i, j, b)
    ensures Owns(k, i, j, b)
    ensures Claimed(k, i, j, b) ==> Claimed(After(k, e), i, j, b)
  {
    hide Inv, Turned, LocOk, OpOk, FileOk, BlocksDistinct, SlotOk, DeviceOk, Woken;
    var k2 := After(k, e);
    if Claimed(k, i, j, b) {
      var p := k.t.inodeLock[i];
      if e.Create? {
        FreeInode(k, e.i);
      }
      if p != k.cur {
        WriterWaits(k, i, j, b);
        ClaimStays(k, k2, i, j, b);
      }
    }
  }

  lemma FreeInode(k: K, i: nat)
    requires Inv(k) && i < NINODE && !k.t.named[i]
    ensures k.t.inodeLock[i] == -1
  {
    hide ProcOk, FileOk, BlocksDistinct, SlotOk, DeviceOk, InodeOf;
    assert InodeLockOk(k, i);
  }

  // ---- turns

  /** A turn of a process that neither writes to the block nor stores its slot: the file
      and the slot are somebody else's. */
  lemma OthersTurn(k: K, at: nat, i: nat, j: nat, b: nat)
    requires Inv(k) && Enabled(k, Turn(at)) && i < NINODE && Claimed(k, i, j, b)
    requires k.t.inodeLock[i] != k.cur && k.t.bufLock[b % 4] != k.cur
    ensures Claimed(Turned(k, at), i, j, b)
  {
    hide Inv, Turned, LocOk, OpOk, FileOk, BlocksDistinct, SlotOk, DeviceOk, Woken, InodeOf;
    WriterWaits(k, i, j, b);
    TurnMovesOne(k, at);
    KeepsOthersLocks(k, at, i, b % 4);
    ClaimStays(k, Turned(k, at), i, j, b);
  }

  /** A turn changes no lock that another process holds, nor the size of a file that
      another process has locked. */
  lemma KeepsOthersLocks(k: K, at: nat, i: nat, s: nat)
    requires Inv(k) && Enabled(k, Turn(at)) && i < NINODE && s < NBUF
    requires k.t.inodeLock[i] !in {-1, k.cur as int} && k.t.bufLock[s] !in {-1, k.cur as int}
    ensures var k2 := Turned(k, at); k2.t.inodeLock[i] == k.t.inodeLock[i] && k2.t.bufLock[s] == k.t.bufLock[s] && k2.size[i] == k.size[i]
  {
    hide Inv, LocOk, OpOk, FileOk, BlocksDistinct, SlotOk, DeviceOk, Woken, InodeOf, WithInode, Touch, Finish, Wanting, FirstFree, Transfer, AcquireTerminal, ReleaseTerminal, AcquireDisk;
    match k.loc[k.cur] {
      case WantStore(i0, op, b) => TransferLeavesFiles(k, true, BUFFER_BASE + Slot(op), b, Storing(i0, op, b));
      case WantLoad(i0, op) => TransferLeavesFiles(k, false, BUFFER_BASE + Slot(op), op.block, Loading(i0, op));
      case WantPage(page, block) => TransferLeavesFiles(k, false, page, block, LoadingPage(page, block));
      case WantTerminal(_) => TerminalKeeps(k);
      case HoldTerminal => TerminalKeeps(k);
      case WantInode(i0, body) => WantKeeps(k, AcquireInode(k.t, i0, k.cur), HoldInode(i0, body));
      case WantBuffer(i0, op) => WantKeeps(k, AcquireBuffer(k.t, Slot(op), k.cur), HoldBuffer(i0, op));
      case HoldInode(i0, body) => InodeKeeps(k, i0, body, at, i, s);
      case Access(i0, op) => TouchKeeps(k, i0, op, s);
      case EndInode(i0, op) => FinishKeeps(k, i0, op, i);
      case _ =>
    }
  }

  lemma TransferLeavesFiles(k: K, store: bool, page: nat, block: nat, l: Loc)
    requires Shape(k)
    ensures var k2 := Transfer(k, store, page, block, l);
            && k2.t.inodeLock == k.t.inodeLock && k2.t.bufLock == k.t.bufLock && k2.size == k.size && k2.blocks == k.blocks
            && k2.loc[k.cur] in {l, k.loc[k.cur]} && k2.loc == k.loc[k.cur := k2.loc[k.cur]]
  {
  }

  lemma TerminalKeeps(k: K)
    requires Shape(k)
    ensures AcquireTerminal(k.t, k.cur).0.inodeLock == k.t.inodeLock && AcquireTerminal(k.t, k.cur).0.bufLock == k.t.bufLock
    ensures ReleaseTerminal(k.t, k.cur).inodeLock == k.t.inodeLock && ReleaseTerminal(k.t, k.cur).bufLock == k.t.bufLock
  {
  }

  lemma WantKeeps(k: K, tg: (Tables, Got), taken: Loc)
    requires Shape(k) && Sized(tg.0)
    ensures Wanting(k, tg, taken).t == tg.0 && Wanting(k, tg, taken).size == k.size
  {
  }

  lemma InodeKeeps(k: K, i0: nat, body: Body, at: nat, i: nat, s: nat)
    requires Inv(k) && k.loc[k.cur] == HoldInode(i0, body) && at <= MAX_FILE_SIZE && i < NINODE && s < NBUF && i0 < NINODE
    requires k.t.inodeLock[i] != k.cur
    ensures var k2 := WithInode(k, i0, body, at); k2.t.inodeLock[i] == k.t.inodeLock[i] && k2.t.bufLock == k.t.bufLock && k2.size[i] == k.size[i]
  {
    hide Inv, LocOk, OpOk, FileOk, BlocksDistinct, SlotOk, DeviceOk, Woken, FirstFree;
    HoldsInode(k, k.cur);
  }

  lemma TouchKeeps(k: K, i0: nat, op: Op, s: nat)
    requires Shape(k) && s < NBUF && k.t.bufLock[s] != k.cur
    ensures var k2 := Touch(k, i0, op); k2.t.inodeLock == k.t.inodeLock && k2.t.bufLock[s] == k.t.bufLock[s] && k2.size == k.size
  {
    hide Woken;
  }

  lemma FinishKeeps(k: K, i0: nat, op: Op, i: nat)
    requires Inv(k) && k.loc[k.cur] == EndInode(i0, op) && i < NINODE && i0 < NINODE && k.t.inodeLock[i] != k.cur
    ensures var k2 := Finish(k, i0, op); k2.t.inodeLock[i] == k.t.inodeLock[i] && k2.t.bufLock == k.t.bufLock && k2.size[i] == k.size[i]
  {
    hide Inv, LocOk, OpOk, FileOk, BlocksDistinct, SlotOk, DeviceOk, Woken;
    HoldsInode(k, k.cur);
  }

  /** The writer's own turn: it gets to the slot, or it writes the word. */
  lemma WritersTurn(k: K, at: nat, i: nat, j: nat, b: nat)
    requires Inv(k) && Enabled(k, Turn(at)) && i < NINODE && b < NBLOCK && Claimed(k, i, j, b) && Stale(k, b) && k.t.inodeLock[i] == k.cur
    ensures Claimed(Turned(k, at), i, j, b) || WritesBlock(k, Turn(at), b)
  {
    hide Inv, LocOk, OpOk, FileOk, BlocksDistinct, SlotOk, DeviceOk, Woken, InodeOf;
  }

  /** The turn of the slot's holder, which stores the old block and then starts to refill. */
  lemma HoldersTurn(k: K, at: nat, i: nat, j: nat, b: nat)
    requires Inv(k) && Enabled(k, Turn(at)) && i < NINODE && b < NBLOCK && Claimed(k, i, j, b)
    requires k.t.inodeLock[i] != k.cur && k.t.bufLock[b % 4] == k.cur
    ensures Claimed(Turned(k, at), i, j, b) || Refilling(Turned(k, at), b % 4)
  {
    hide Inv, LocOk, OpOk, FileOk, BlocksDistinct, SlotOk, DeviceOk, Woken, InodeOf;
    WriterWaits(k, i, j, b);
  }

  /** A file that grows gets a block whose slot nobody can take before its writer. */
  lemma GrownIsClaimed(k: K, i: nat, w: Word, at: nat, b: nat)
    requires Inv(k) && k.t.st[k.cur] == Running && k.loc[k.cur] == HoldInode(i, Writing(w)) && i < NINODE && at < MAX_FILE_SIZE && b < NBLOCK
    requires Grows(k, i, at) && FirstFree(k.used, FREE_AREA) == b && Stale(k, b)
    ensures Claimed(WithInode(k, i, Writing(w), at), i, at / 512, b)
  {
    hide OpOk, FileOk, BlocksDistinct, DeviceOk, InodeOf, FirstFree, InodeLockOk;
    HoldsInode(k, k.cur) by { assert InodeOf(k.loc[k.cur]) == i by { InodeOfHold(i, Writing(w)); } }
    InodeOfHold(i, Writing(w));
    var h := k.t.bufLock[b % 4];
    assert SlotOk(k, b % 4);
    if h != -1 {
      assert ProcOk(k, h) && BufferOf(k.loc[h]) == b % 4;
    }
  }

  lemma InodeOfHold(i: nat, body: Body)
    ensures InodeOf(HoldInode(i, body)) == i
  {
  }

  /** Ownership after a turn: as before, but for a file that grows or is deleted. */
  lemma OwnedAfterTurn(k: K, at: nat, i: nat, j: nat, b: nat)
    requires Inv(k) && Enabled(k, Turn(at)) && Owns(Turned(k, at), i, j, b)
    ensures Owns(k, i, j, b) || (k.loc[k.cur].HoldInode? && k.loc[k.cur].i == i && k.loc[k.cur].body.Writing? && Grows(k, i, at)
                                 && j == at / 512 && FirstFree(k.used, FREE_AREA) == b && at < MAX_FILE_SIZE)
    ensures !Deletes(k, Turn(at), b)
  {
    hide Inv, LocOk, OpOk, SlotOk, DeviceOk, Woken, InodeOf, Touch, Finish, Wanting, FirstFree;
    match k.loc[k.cur] {
      case HoldInode(i0, body) => OwnedAfterHold(k, i0, body, at, i, j, b);
      case WantInode(i0, body) => WantOwns(k, AcquireInode(k.t, i0, k.cur), HoldInode(i0, body));
      case WantBuffer(i0, op) => WantOwns(k, AcquireBuffer(k.t, Slot(op), k.cur), HoldBuffer(i0, op));
      case Access(i0, op) => TouchOwns(k, i0, op);
      case EndInode(i0, op) => FinishOwns(k, i0, op);
      case _ =>
    }
  }

  lemma WantOwns(k: K, tg: (Tables, Got), taken: Loc)
    requires Shape(k) && Sized(tg.0)
    ensures Wanting(k, tg, taken).blocks == k.blocks
  {
  }

  lemma TouchOwns(k: K, i0: nat, op: Op)
    requires Shape(k)
    ensures Touch(k, i0, op).blocks == k.blocks
  {
    hide Woken;
  }

  lemma FinishOwns(k: K, i0: nat, op: Op)
    requires Shape(k) && i0 < NINODE
    ensures Finish(k, i0, op).blocks == k.blocks
  {
    hide Woken;
  }

  lemma OwnedAfterHold(k: K, i0: nat, body: Body, at: nat, i: nat, j: nat, b: nat)
    requires Inv(k) && Enabled(k, Turn(at)) && k.loc[k.cur] == HoldInode(i0, body) && i0 < NINODE && Owns(WithInode(k, i0, body, at), i, j, b)
    ensures Owns(k, i, j, b) || (i0 == i && body.Writing? && Grows(k, i, at) && j == at / 512 && FirstFree(k.used, FREE_AREA) == b && at < MAX_FILE_SIZE)
    ensures !Deletes(k, Turn(at), b)
  {
    hide ProcOk, SlotOk, DeviceOk, InodeLockOk, FileOk, Woken, FirstFree;
  }

  lemma OwnedStaysFresh(k: K, e: Event, i: nat, j: nat, b: nat)
    requires Inv(k) && OwnedFresh(k) && Enabled(k, e) && Owns(After(k, e), i, j, b) && Stale(After(k, e), b)
    ensures Claimed(After(k, e), i, j, b)
  {
    hide Inv, After, Claimed, FirstFree, Refilling;
    var k2 := After(k, e);
    StepFollows(k, e, b);
    if e.Turn? {
      TurnIs(k, e.at);
      OwnedAfterTurn(k, e.at, i, j, b);
      assert Stale(k, b) && !WritesBlock(k, e, b) by { hide Stale, Content; }
      if !Owns(k, i, j, b) {
        GrowsHere(k, e.at, i, j, b);
      } else if k.t.inodeLock[i] == k.cur {
        WritersTurn(k, e.at, i, j, b);
      } else if k.t.bufLock[b % 4] == k.cur {
        HoldersTurn(k, e.at, i, j, b);
      } else {
        OthersTurn(k, e.at, i, j, b);
      }
    } else {
      OtherClaims(k, e, i, j, b);
    }
  }

  lemma TurnIs(k: K, at: nat)
    requires Shape(k) && Enabled(k, Turn(at))
    ensures After(k, Turn(at)) == Turned(k, at)
  {
    hide Turned;
  }

  lemma GrowsHere(k: K, at: nat, i: nat, j: nat, b: nat)
    requires Inv(k) && Enabled(k, Turn(at)) && i < NINODE && b < NBLOCK && Stale(k, b)
    requires k.loc[k.cur].HoldInode? && k.loc[k.cur].i == i && k.loc[k.cur].body.Writing? && Grows(k, i, at)
    requires j == at / 512 && FirstFree(k.used, FREE_AREA) == b && at < MAX_FILE_SIZE
    ensures Claimed(Turned(k, at), i, j, b)
  {
    hide Inv, Claimed, FirstFree, WithInode, Refilling;
    GrownIsClaimed(k, i, k.loc[k.cur].body.w, at, b);
  }

  lemma StepFresh(k: K, e: Event)
    requires Inv(k) && OwnedFresh(k) && Enabled(k, e)
    ensures OwnedFresh(After(k, e))
  {
    hide Inv, After, Claimed, Stale;
    forall i: nat, j: nat, b: nat | Owns(After(k, e), i, j, b) && Stale(After(k, e), b) ensures Claimed(After(k, e), i, j, b) {
      OwnedStaysFresh(k, e, i, j, b);
    }
  }

  lemma BootFresh(k: K)
    requires Booted(k)
    ensures OwnedFresh(k)
  {
    hide FileOk, BlocksDistinct;
  }

  lemma {:induction false} RunFresh(k: K, es: seq<Event>)
    requires Inv(k) && OwnedFresh(k) && Possible(k, es)
    ensures OwnedFresh(Outcome(k, es))
    decreases |es|
  {
    hide Inv, After, Enabled, OwnedFresh;
    if es != [] {
      StepKeeps(k, es[0]);
      StepFresh(k, es[0]);
      RunFresh(After(k, es[0]), es[1..]);
    }
  }

  // ---- eviction

  /** A slot that somebody takes for another block holds no stale block with an owner. */
  lemma EvictedIsFresh(k: K, e: Event, i: nat, j: nat, b: nat)
    requires Inv(k) && OwnedFresh(k) && Enabled(k, e) && Owns(k, i, j, b) && Evicts(k, e, b)
    ensures !Stale(k, b)
  {
    hide Inv, LocOk, OpOk, FileOk, BlocksDistinct, SlotOk, DeviceOk, InodeOf, Stale;
    HoldsSlot(k, k.cur);
    if Stale(k, b) {
      assert Claimed(k, i, j, b);
      if k.t.inodeLock[i] != k.cur {
        WriterWaits(k, i, j, b);
      }
    }
  }

  /** No event of any kind, eviction included, changes the content of a block that an
      inode owns, but for the word that a write puts there. */
  lemma OwnedFollows(k: K, e: Event, i: nat, j: nat, b: nat)
    requires Inv(k) && OwnedFresh(k) && Enabled(k, e) && Owns(k, i, j, b)
    ensures Content(After(k, e), b) == Written(k, e, b, Content(k, b))
  {
    hide Inv, OwnedFresh, After, Stale, Content, Evicts, Written, Enabled;
    StepFollows(k, e, b);
    if Evicts(k, e, b) {
      EvictedIsFresh(k, e, i, j, b);
    }
  }

  ghost predicate Owned(k: K, b: nat)
    requires Shape(k)
  {
    exists i: nat, j: nat :: Owns(k, i, j, b)
  }

  /** Some inode owns block b at every step of the run. */
  ghost predicate StaysOwned(k: K, es: seq<Event>, b: nat)
    requires Shape(k) && Possible(k, es)
    decreases |es|
  {
    es == [] || (Owned(k, b) && StaysOwned(After(k, es[0]), es[1..], b))
  }

  /** Under every interleaving the cache and the disk together are a plain array of blocks
      for as long as an inode owns the block, whatever happened to the block before. */
  lemma {:induction false} OwnedRefinesDisk(k: K, es: seq<Event>, b: nat)
    requires Inv(k) && OwnedFresh(k) && Possible(k, es) && b < NBLOCK && StaysOwned(k, es, b)
    ensures Content(Outcome(k, es), b) == Replay(k, es, b, Content(k, b))
    decreases |es|
  {
    hide Inv, OwnedFresh, After, Enabled, Content, Written;
    if es != [] {
      var i: nat, j: nat :| Owns(k, i, j, b);
      OwnedFollows(k, es[0], i, j, b);
      StepKeeps(k, es[0]);
      StepFresh(k, es[0]);
      OwnedRefinesDisk(After(k, es[0]), es[1..], b);
    }
  }

  /** While no buffer is locked and the running process waits for none, a block that an
      inode owns is what its buffer or the disk says. */
  lemma FreeSlotsAreFresh(k: K, b: nat)
    requires Inv(k) && OwnedFresh(k) && Owned(k, b) && !k.loc[k.cur].WantBuffer? && forall s | 0 <= s < NBUF :: k.t.bufLock[s] == -1
    ensures b < NBLOCK && !Stale(k, b)
  {
    hide LocOk, OpOk, FileOk, BlocksDistinct, InodeLockOk, SlotOk, DeviceOk, InodeOf, Stale;
    var i: nat, j: nat :| Owns(k, i, j, b);
    var p := k.t.inodeLock[i];
    if 0 <= p < NPROC {
      assert ProcOk(k, p);
    }
  }

  /** A block that holds words of a file is what its buffer or the disk says: it is never
      stale. */
  lemma LiveIsFresh(k: K, i: nat, j: nat, b: nat)
    requires Inv(k) && OwnedFresh(k) && Owns(k, i, j, b) && 512 * j < k.size[i]
    ensures !Stale(k, b)
  {
    hide Inv, Stale;
  }

  // ---- the words of files

  /** What was last written at each position of each file, since the file was made. */
  type Files = f: seq<map<nat, Word>> | |f| == NINODE witness seq(NINODE, _ => map[])

  predicate RemovesFile(k: K, e: Event)
    requires Shape(k)
  {
    e.Turn? && k.loc[k.cur].HoldInode? && k.loc[k.cur].body == Deleting(false)
  }

  predicate WritesWord(k: K, e: Event)
    requires Shape(k)
  {
    e.Turn? && k.loc[k.cur].Access? && k.loc[k.cur].op.put.Store?
  }

  function Recorded(k: K, e: Event, f: Files): Files
    requires Shape(k) && Enabled(k, e)
  {
    if e.Create? then f[e.i := map[]]
    else if RemovesFile(k, e) then f[k.loc[k.cur].i := map[]]
    else if WritesWord(k, e) && k.loc[k.cur].i < NINODE then
      f[k.loc[k.cur].i := f[k.loc[k.cur].i][k.loc[k.cur].op.at := k.loc[k.cur].op.put.w]]
    else f
  }

  ghost function Records(k: K, es: seq<Event>, f: Files): Files
    requires Shape(k) && Possible(k, es)
    decreases |es|
  {
    if es == [] then f else Records(After(k, es[0]), es[1..], Recorded(k, es[0], f))
  }

  /** The word at a position of the file, with the buffers taken into account. */
  function WordAt(k: K, i: nat, at: nat): Word
    requires Shape(k) && i < NINODE && at < MAX_FILE_SIZE && 0 <= k.blocks[i][at / 512] < NBLOCK
  {
    Content(k, k.blocks[i][at / 512])[at % 512]
  }

  /** The writer of this position has written and not yet set the size. */
  predicate Ending(k: K, i: nat, at: nat)
    requires Shape(k) && i < NINODE
  {
    var p := k.t.inodeLock[i];
    0 <= p < NPROC && k.loc[p].EndInode? && k.loc[p].i == i && k.loc[p].op.put.Store? && k.loc[p].op.at == at
  }

  predicate HasWord(k: K, i: nat, at: nat)
    requires Shape(k)
  {
    i < NINODE && (at < k.size[i] || Ending(k, i, at))
  }

  predicate WordIs(k: K, i: nat, at: nat, f: Files)
    requires Shape(k) && i < NINODE
  {
    && at < MAX_FILE_SIZE && 0 <= k.blocks[i][at / 512] < NBLOCK
    && at in f[i] && WordAt(k, i, at) == f[i][at]
  }

  /** Every file holds at each position below its size the word last written there. */
  ghost predicate FilesHold(k: K, f: Files)
    requires Shape(k)
  {
    forall i: nat, at: nat | HasWord(k, i, at) :: WordIs(k, i, at, f)
  }

  /** What a position with a word has below it. */
  lemma PositionOwned(k: K, i: nat, at: nat)
    requires Inv(k) && HasWord(k, i, at)
    ensures at < MAX_FILE_SIZE && 0 <= k.blocks[i][at / 512] < NBLOCK && Owns(k, i, at / 512, k.blocks[i][at / 512])
  {
    hide LocOk, InodeLockOk, SlotOk, DeviceOk, BlocksDistinct;
    assert FileOk(k, i);
    if Ending(k, i, at) {
      assert ProcOk(k, k.t.inodeLock[i]);
    } else {
      assert 512 * (at / 512) < k.size[i];
    }
  }

  /** Another position is another word, even in the same block. */
  lemma OtherWord(k: K, e: Event, i: nat, at: nat)
    requires Inv(k) && HasWord(k, i, at) && Enabled(k, e) && WritesWord(k, e)
    requires k.loc[k.cur].i != i || k.loc[k.cur].op.at != at
    ensures at < MAX_FILE_SIZE && 0 <= k.blocks[i][at / 512] < NBLOCK
    ensures forall page: Page :: Written(k, e, k.blocks[i][at / 512], page)[at % 512] == page[at % 512]
  {
    hide LocOk, InodeLockOk, SlotOk, DeviceOk, FileOk, Enabled;
    PositionOwned(k, i, at);
    assert ProcOk(k, k.cur);
  }

  /** A word stays what it is unless it is written or its file goes. */
  lemma WordStays(k: K, e: Event, i: nat, at: nat)
    requires Inv(k) && OwnedFresh(k) && Enabled(k, e) && HasWord(k, i, at)
    requires WritesWord(k, e) ==> k.loc[k.cur].i != i || k.loc[k.cur].op.at != at
    ensures at < MAX_FILE_SIZE && 0 <= k.blocks[i][at / 512] < NBLOCK
    ensures Content(After(k, e), k.blocks[i][at / 512])[at % 512] == WordAt(k, i, at)
  {
    hide Inv, OwnedFresh, After, Content, Enabled;
    PositionOwned(k, i, at);
    OwnedFollows(k, e, i, at / 512, k.blocks[i][at / 512]);
    if WritesWord(k, e) {
      OtherWord(k, e, i, at);
    }
  }

  /** Positions with words are old ones, or the one just written; their blocks stay. */
  lemma PositionsStay(k: K, e: Event, i: nat, at: nat)
    requires Inv(k) && Enabled(k, e) && HasWord(After(k, e), i, at)
    ensures HasWord(k, i, at) || (WritesWord(k, e) && k.loc[k.cur].i == i && k.loc[k.cur].op.at == at)
    ensures at < MAX_FILE_SIZE ==> After(k, e).blocks[i][at / 512] == k.blocks[i][at / 512]
    ensures !(e.Create? && e.i == i) && !(RemovesFile(k, e) && k.loc[k.cur].i == i)
  {
    hide Inv, Turned, LocOk, OpOk, FileOk, BlocksDistinct, SlotOk, DeviceOk, Woken, InodeOf;
    if e.Turn? {
      TurnPositions(k, e.at, i, at);
    } else if e.Create? {
      FreeInode(k, e.i);
    }
  }

  lemma TurnPositions(k: K, t: nat, i: nat, at: nat)
    requires Inv(k) && Enabled(k, Turn(t)) && HasWord(Turned(k, t), i, at)
    ensures HasWord(k, i, at) || (WritesWord(k, Turn(t)) && k.loc[k.cur].i == i && k.loc[k.cur].op.at == at)
    ensures at < MAX_FILE_SIZE ==> Turned(k, t).blocks[i][at / 512] == k.blocks[i][at / 512]
    ensures !(RemovesFile(k, Turn(t)) && k.loc[k.cur].i == i)
  {
    hide Inv, LocOk, OpOk, FileOk, BlocksDistinct, SlotOk, DeviceOk, Woken, WithInode, Touch, Finish, Wanting, FirstFree, Transfer, AcquireTerminal, ReleaseTerminal, AcquireDisk;
    match k.loc[k.cur] {
      case WantStore(i0, op, b) => TransferLeavesFiles(k, true, BUFFER_BASE + Slot(op), b, Storing(i0, op, b));
      case WantLoad(i0, op) => TransferLeavesFiles(k, false, BUFFER_BASE + Slot(op), op.block, Loading(i0, op));
      case WantPage(page, block) => TransferLeavesFiles(k, false, page, block, LoadingPage(page, block));
      case WantTerminal(_) => TerminalKeeps(k);
      case HoldTerminal => TerminalKeeps(k);
      case WantInode(i0, body) => WantPositions(k, i0, body, i, at);
      case WantBuffer(i0, op) => BufferPositions(k, i0, op, i, at);
      case HoldInode(i0, body) => HoldPositions(k, i0, body, t, i, at);
      case Access(i0, op) => TouchPositions(k, i0, op, i, at);
      case EndInode(i0, op) => FinishPositions(k, i0, op, i, at);
      case _ =>
    }
  }

  lemma WantPositions(k: K, i0: nat, body: Body, i: nat, at: nat)
    requires Shape(k) && i0 < NINODE && k.loc[k.cur] == WantInode(i0, body)
    requires HasWord(Wanting(k, AcquireInode(k.t, i0, k.cur), HoldInode(i0, body)), i, at)
    ensures HasWord(k, i, at) && Wanting(k, AcquireInode(k.t, i0, k.cur), HoldInode(i0, body)).blocks == k.blocks
  {
  }

  lemma BufferPositions(k: K, i0: nat, op: Op, i: nat, at: nat)
    requires Shape(k) && k.loc[k.cur] == WantBuffer(i0, op)
    requires HasWord(Wanting(k, AcquireBuffer(k.t, Slot(op), k.cur), HoldBuffer(i0, op)), i, at)
    ensures HasWord(k, i, at) && Wanting(k, AcquireBuffer(k.t, Slot(op), k.cur), HoldBuffer(i0, op)).blocks == k.blocks
  {
  }

  lemma HoldPositions(k: K, i0: nat, body: Body, t: nat, i: nat, at: nat)
    requires Inv(k) && Enabled(k, Turn(t)) && i0 < NINODE && k.loc[k.cur] == HoldInode(i0, body) && HasWord(WithInode(k, i0, body, t), i, at)
    ensures HasWord(k, i, at)
    ensures at < MAX_FILE_SIZE ==> WithInode(k, i0, body, t).blocks[i][at / 512] == k.blocks[i][at / 512]
    ensures !(body == Deleting(false) && i0 == i)
  {
    hide Inv, LocOk, OpOk, FileOk, BlocksDistinct, SlotOk, DeviceOk, Woken, FirstFree;
    HoldsInode(k, k.cur);
  }

  lemma TouchPositions(k: K, i0: nat, op: Op, i: nat, at: nat)
    requires Inv(k) && k.loc[k.cur] == Access(i0, op) && HasWord(Touch(k, i0, op), i, at)
    ensures HasWord(k, i, at) || (op.put.Store? && i0 == i && op.at == at)
    ensures Touch(k, i0, op).blocks == k.blocks
  {
    hide Inv, LocOk, OpOk, FileOk, BlocksDistinct, SlotOk, DeviceOk, Woken;
    HoldsInode(k, k.cur);
  }

  lemma FinishPositions(k: K, i0: nat, op: Op, i: nat, at: nat)
    requires Inv(k) && k.loc[k.cur] == EndInode(i0, op) && i0 < NINODE && HasWord(Finish(k, i0, op), i, at)
    ensures HasWord(k, i, at) && Finish(k, i0, op).blocks == k.blocks
  {
    hide Inv, LocOk, OpOk, FileOk, BlocksDistinct, SlotOk, DeviceOk, Woken;
    HoldsInode(k, k.cur);
  }

  /** The word that a write puts at its position is there. */
  lemma WordWritten(k: K, e: Event)
    requires Inv(k) && OwnedFresh(k) && Enabled(k, e) && WritesWord(k, e)
    ensures var op := k.loc[k.cur].op;
            k.loc[k.cur].i < NINODE && op.block < NBLOCK && op.at < MAX_FILE_SIZE && k.blocks[k.loc[k.cur].i][op.at / 512] == op.block
            && Content(After(k, e), op.block)[op.at % 512] == op.put.w
  {
    hide LocOk, InodeLockOk, SlotOk, DeviceOk, FileOk, BlocksDistinct, OwnedFresh, After, Content, Enabled;
    var op := k.loc[k.cur].op;
    assert ProcOk(k, k.cur);
    OwnedFollows(k, e, k.loc[k.cur].i, op.at / 512, op.block);
  }

  lemma StepHolds(k: K, e: Event, f: Files)
    requires Inv(k) && OwnedFresh(k) && Enabled(k, e) && FilesHold(k, f)
    ensures FilesHold(After(k, e), Recorded(k, e, f))
  {
    hide Inv, OwnedFresh, After, Content, Enabled;
    forall i: nat, at: nat | HasWord(After(k, e), i, at) ensures WordIs(After(k, e), i, at, Recorded(k, e, f)) {
      PositionsStay(k, e, i, at);
      if WritesWord(k, e) && k.loc[k.cur].i == i && k.loc[k.cur].op.at == at {
        WordWritten(k, e);
      } else {
        WordStays(k, e, i, at);
        assert WordIs(k, i, at, f);
      }
    }
  }

  // ---- and nothing else is recorded

  /** Every recorded position has a word: it lies below the size, or its writer has written
      and is about to set the size. */
  ghost predicate OnlyWords(k: K, f: Files)
    requires Shape(k)
  {
    forall i: nat, at: nat | i < NINODE && at in f[i] :: HasWord(k, i, at)
  }

  /** A position keeps its word until its file goes. */
  lemma WordsRemain(k: K, e: Event, i: nat, at: nat)
    requires Inv(k) && Enabled(k, e) && HasWord(k, i, at)
    requires !(e.Create? && e.i == i) && !(RemovesFile(k, e) && k.loc[k.cur].i == i)
    ensures HasWord(After(k, e), i, at)
  {
    hide Inv, Turned, LocOk, OpOk, FileOk, BlocksDistinct, SlotOk, DeviceOk, Woken, InodeOf;
    if e.Turn? {
      TurnRemains(k, e.at, i, at);
    }
  }

  lemma TurnRemains(k: K, t: nat, i: nat, at: nat)
    requires Inv(k) && Enabled(k, Turn(t)) && HasWord(k, i, at) && !(RemovesFile(k, Turn(t)) && k.loc[k.cur].i == i)
    ensures HasWord(Turned(k, t), i, at)
  {
    hide Inv, LocOk, OpOk, FileOk, BlocksDistinct, SlotOk, DeviceOk, Woken, WithInode, Touch, Finish, Wanting, FirstFree, Transfer, AcquireTerminal, ReleaseTerminal, AcquireDisk;
    match k.loc[k.cur] {
      case WantStore(i0, op, b) => TransferLeavesFiles(k, true, BUFFER_BASE + Slot(op), b, Storing(i0, op, b));
      case WantLoad(i0, op) => TransferLeavesFiles(k, false, BUFFER_BASE + Slot(op), op.block, Loading(i0, op));
      case WantPage(page, block) => TransferLeavesFiles(k, false, page, block, LoadingPage(page, block));
      case WantTerminal(_) => TerminalKeeps(k);
      case HoldTerminal => TerminalKeeps(k);
      case WantInode(i0, body) => WantRemains(k, i0, body, i, at);
      case WantBuffer(i0, op) => BufferRemains(k, i0, op, i, at);
      case HoldInode(i0, body) => HoldRemains(k, i0, body, t, i, at);
      case Access(i0, op) => TouchRemains(k, i0, op, i, at);
      case EndInode(i0, op) => FinishRemains(k, i0, op, i, at);
      case _ =>
    }
  }

  lemma WantRemains(k: K, i0: nat, body: Body, i: nat, at: nat)
    requires Shape(k) && i0 < NINODE && k.loc[k.cur] == WantInode(i0, body) && HasWord(k, i, at)
    ensures HasWord(Wanting(k, AcquireInode(k.t, i0, k.cur), HoldInode(i0, body)), i, at)
  {
  }

  lemma BufferRemains(k: K, i0: nat, op: Op, i: nat, at: nat)
    requires Shape(k) && k.loc[k.cur] == WantBuffer(i0, op) && HasWord(k, i, at)
    ensures HasWord(Wanting(k, AcquireBuffer(k.t, Slot(op), k.cur), HoldBuffer(i0, op)), i, at)
  {
  }

  lemma HoldRemains(k: K, i0: nat, body: Body, t: nat, i: nat, at: nat)
    requires Inv(k) && i0 < NINODE && t <= MAX_FILE_SIZE && k.loc[k.cur] == HoldInode(i0, body) && HasWord(k, i, at) && !(body == Deleting(false) && i0 == i)
    ensures HasWord(WithInode(k, i0, body, t), i, at)
  {
    hide Inv, LocOk, OpOk, FileOk, BlocksDistinct, SlotOk, DeviceOk, Woken, FirstFree;
    HoldsInode(k, k.cur);
  }

  lemma TouchRemains(k: K, i0: nat, op: Op, i: nat, at: nat)
    requires Inv(k) && k.loc[k.cur] == Access(i0, op) && HasWord(k, i, at)
    ensures HasWord(Touch(k, i0, op), i, at)
  {
    hide Inv, LocOk, OpOk, FileOk, BlocksDistinct, SlotOk, DeviceOk, Woken;
    HoldsInode(k, k.cur);
  }

  /** The writer that ends has its word below the size. */
  lemma FinishRemains(k: K, i0: nat, op: Op, i: nat, at: nat)
    requires Inv(k) && k.loc[k.cur] == EndInode(i0, op) && i0 < NINODE && HasWord(k, i, at)
    ensures HasWord(Finish(k, i0, op), i, at)
    ensures op.put.Store? ==> op.at < Finish(k, i0, op).size[i0]
  {
    hide LocOk, FileOk, BlocksDistinct, SlotOk, DeviceOk, Woken, InodeLockOk;
    assert ProcOk(k, k.cur);
  }

  lemma WriterIsEnding(k: K, e: Event)
    requires Inv(k) && Enabled(k, e) && WritesWord(k, e)
    ensures var l := k.loc[k.cur]; l.i < NINODE && HasWord(After(k, e), l.i, l.op.at)
  {
    hide LocOk, FileOk, BlocksDistinct, SlotOk, DeviceOk, Woken, InodeLockOk;
    assert ProcOk(k, k.cur);
  }

  lemma StepRecords(k: K, e: Event, f: Files)
    requires Inv(k) && Enabled(k, e) && OnlyWords(k, f)
    ensures OnlyWords(After(k, e), Recorded(k, e, f))
  {
    hide Inv, After, Enabled, HasWord;
    forall i: nat, at: nat | i < NINODE && at in Recorded(k, e, f)[i] ensures HasWord(After(k, e), i, at) {
      if WritesWord(k, e) && k.loc[k.cur].i == i && k.loc[k.cur].op.at == at {
        WriterIsEnding(k, e);
      } else {
        WordsRemain(k, e, i, at);
      }
    }
  }

  // ---- whole runs

  /** The files as the disk has them at boot. */
  ghost function OnDisk(k: K): Files
    requires Booted(k)
  {
    seq(NINODE, i requires 0 <= i < NINODE => map at: nat | at < MAX_FILE_SIZE && at < k.size[i] && 0 <= k.blocks[i][at / 512] < NBLOCK :: k.disk[k.blocks[i][at / 512]][at % 512])
  }

  lemma BootHoldsFiles(k: K)
    requires Booted(k)
    ensures FilesHold(k, OnDisk(k))
  {
    hide BlocksDistinct, FileOk, Content;
    BootHolds(k);
    forall i: nat, at: nat | HasWord(k, i, at) ensures WordIs(k, i, at, OnDisk(k)) {
      PositionOwned(k, i, at);
      BootIsClean(k, k.blocks[i][at / 512]);
    }
  }

  lemma BootRecords(k: K)
    requires Booted(k)
    ensures OnlyWords(k, OnDisk(k))
  {
    hide BlocksDistinct, FileOk;
  }

  lemma {:induction false} RunRecords(k: K, es: seq<Event>, f: Files)
    requires Inv(k) && OnlyWords(k, f) && Possible(k, es)
    ensures OnlyWords(Outcome(k, es), Records(k, es, f))
    decreases |es|
  {
    hide Inv, After, Enabled, OnlyWords, Recorded;
    if es != [] {
      StepKeeps(k, es[0]);
      StepRecords(k, es[0], f);
      RunRecords(After(k, es[0]), es[1..], Recorded(k, es[0], f));
    }
  }

  lemma {:induction false} RunHolds(k: K, es: seq<Event>, f: Files)
    requires Inv(k) && OwnedFresh(k) && FilesHold(k, f) && Possible(k, es)
    ensures FilesHold(Outcome(k, es), Records(k, es, f))
    decreases |es|
  {
    hide Inv, After, Enabled, OwnedFresh, FilesHold, Recorded;
    if es != [] {
      StepKeeps(k, es[0]);
      StepFresh(k, es[0]);
      StepHolds(k, es[0], f);
      RunHolds(After(k, es[0]), es[1..], Recorded(k, es[0], f));
    }
  }

  /** After every run from boot, with deletion and re-use of blocks, each file holds at
      every position below its size the word last written there since the file was made,
      or the disk's word of boot. */
  lemma FilesHoldWrites(k: K, es: seq<Event>, i: nat, at: nat)
    requires Booted(k) && Possible(k, es) && i < NINODE && at < Outcome(k, es).size[i]
    ensures WordIs(Outcome(k, es), i, at, Records(k, es, OnDisk(k)))
  {
    hide Booted, WordIs, Inv, OwnedFresh;
    BootHolds(k);
    BootFresh(k);
    BootHoldsFiles(k);
    RunHolds(k, es, OnDisk(k));
    assert HasWord(Outcome(k, es), i, at);
  }

  /** A position of a file has been written, or was there at boot, if and only if it lies
      below the size or its writer is about to set the size. */
  lemma RecordedIffWord(k: K, es: seq<Event>, i: nat, at: nat)
    requires Booted(k) && Possible(k, es) && i < NINODE
    ensures at in Records(k, es, OnDisk(k))[i] <==> HasWord(Outcome(k, es), i, at)
  {
    hide Booted, WordIs, Inv, OwnedFresh, HasWord;
    BootHolds(k);
    BootFresh(k);
    BootHoldsFiles(k);
    BootRecords(k);
    RunHolds(k, es, OnDisk(k));
    RunRecords(k, es, OnDisk(k));
    if HasWord(Outcome(k, es), i, at) {
      assert WordIs(Outcome(k, es), i, at, Records(k, es, OnDisk(k)));
      WordIsRecorded(Outcome(k, es), i, at, Records(k, es, OnDisk(k)));
    }
  }

  lemma WordIsRecorded(k: K, i: nat, at: nat, f: Files)
    requires Shape(k) && i < NINODE && WordIs(k, i, at, f)
    ensures at in f[i]
  {
  }

  /** So while no write to the file is ending, its size is the number of positions written
      since it was made: the writes of every completed call count, and nothing else. */
  lemma SizeIsWritten(k: K, es: seq<Event>, i: nat)
    requires Booted(k) && Possible(k, es) && i < NINODE && forall at: nat :: !Ending(Outcome(k, es), i, at)
    ensures var k1, f := Outcome(k, es), Records(k, es, OnDisk(k))[i];
            (forall at: nat :: at in f <==> at < k1.size[i]) && |f| == if k1.size[i] > 0 then k1.size[i] else 0
  {
    hide Booted, Inv, Ending;
    BootHolds(k);
    var k1, f := Outcome(k, es), Records(k, es, OnDisk(k))[i];
    forall at: nat ensures at in f <==> at < k1.size[i] { RecordedIffWord(k, es, i, at); }
    Count(k1.size[i], f.Keys);
  }

  lemma {:induction false} Count(n: int, s: set<nat>)
    requires forall at: nat :: at in s <==> at < n
    ensures |s| == if n > 0 then n else 0
    decreases n
  {
    if n <= 0 {
      assert s == {};
    } else {
      Count(n - 1, s - {n - 1});
    }
  }

  /** A read system call delivers the word last written at its position. */
  lemma ReadDeliversLastWrite(k: K, es: seq<Event>, t: nat)
    requires Booted(k) && Possible(k, es) && Enabled(Outcome(k, es), Turn(t))
    requires var l := Outcome(k, es).loc[Outcome(k, es).cur]; l.Access? && l.op.put.Nothing?
    ensures var k1, f := Outcome(k, es), Records(k, es, OnDisk(k)); var l := k1.loc[k1.cur];
            l.i < NINODE && l.op.at in f[l.i] && After(k1, Turn(t)).got[k1.cur] == f[l.i][l.op.at]
  {
    hide Inv, After, Enabled, OwnedFresh, Content;
    BootHolds(k);
    RunKeeps(k, es);
    var k1 := Outcome(k, es);
    ReadReturnsContent(k1, t);
    ReadIsInside(k1);
    FilesHoldWrites(k, es, k1.loc[k1.cur].i, k1.loc[k1.cur].op.at);
  }

  lemma ReadIsInside(k: K)
    requires Inv(k) && k.loc[k.cur].Access? && k.loc[k.cur].op.put.Nothing?
    ensures var l := k.loc[k.cur]; l.i < NINODE && l.op.at < k.size[l.i] && l.op.at < MAX_FILE_SIZE && k.blocks[l.i][l.op.at / 512] == l.op.block
  {
    hide LocOk, InodeLockOk, SlotOk, DeviceOk, FileOk, BlocksDistinct;
    assert ProcOk(k, k.cur);
  }
}
