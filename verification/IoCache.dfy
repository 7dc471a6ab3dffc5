/** The buffer cache refines the disk: the content of a block is the buffer page while
    the block is cached, and the disk block otherwise. */
module IoCache {
  import opened Words
  import opened ResourceManager
  import opened IoKernel
  import opened IoSafety
  import opened IoLocks

  /** The slot's page is being replaced: its tag no longer says what the page holds. */
  predicate Refilling(k: K, s: nat)
    requires Shape(k) && s < NBUF
  {
    var h := k.t.bufLock[s];
    0 <= h < NPROC && (k.loc[h].WantLoad? || k.loc[h].Loading?)
  }

  predicate Cached(k: K, b: nat)
    requires Shape(k)
  {
    k.tag[b % 4] == b && !Refilling(k, b % 4)
  }

  function Content(k: K, b: nat): Page
    requires Shape(k) && b < NBLOCK
  {
    if Cached(k, b) then k.frames[BUFFER_BASE + b % 4] else k.disk[b]
  }

  /** A cached page that differs from the disk but is not marked dirty. Only the
      delete of a file makes one. */
  predicate Stale(k: K, b: nat)
    requires Shape(k) && b < NBLOCK
  {
    Cached(k, b) && !k.dirty[b % 4] && k.frames[BUFFER_BASE + b % 4] != k.disk[b]
  }

  /** The running process is about to write a word into block b. */
  predicate WritesBlock(k: K, e: Event, b: nat)
    requires Shape(k)
  {
    e.Turn? && k.loc[k.cur].Access? && k.loc[k.cur].op.put.Store? && k.loc[k.cur].op.block == b
  }

  /** The running process deletes a file that owns block b. */
  predicate Deletes(k: K, e: Event, b: nat)
    requires Shape(k)
  {
    e.Turn? && k.loc[k.cur].HoldInode? && k.loc[k.cur].body == Deleting(false) && k.loc[k.cur].i < NINODE
    && b in k.blocks[k.loc[k.cur].i]
  }

  /** The running process takes the slot of clean block b for another block. */
  predicate Evicts(k: K, e: Event, b: nat)
    requires Shape(k)
  {
    e.Turn? && k.loc[k.cur].HoldBuffer? && Slot(k.loc[k.cur].op) == b % 4 && k.loc[k.cur].op.block != b
    && k.tag[b % 4] == b && !k.dirty[b % 4]
  }

  function Written(k: K, e: Event, b: nat, page: Page): Page
    requires Shape(k)
  {
    if WritesBlock(k, e, b) then page[k.loc[k.cur].op.at % 512 := k.loc[k.cur].op.put.w] else page
  }

  // ---- which slots are being refilled

  function RefillSlot(l: Loc): (r: int)
    ensures -1 <= r < NBUF && (r >= 0 ==> BufferOf(l) == r)
  {
    match l
    case WantLoad(_, op) => Slot(op)
    case Loading(_, op) => Slot(op)
    case _ => -1
  }

  lemma RefillingIs(k: K, s: nat)
    requires Inv(k) && s < NBUF
    ensures Refilling(k, s) <==> exists p :: 0 <= p < NPROC && RefillSlot(k.loc[p]) == s
  {
    hide LocOk, OpOk, FileOk, BlocksDistinct, InodeLockOk, DeviceOk, InodeOf;
    assert SlotOk(k, s);
    forall p | 0 <= p < NPROC && RefillSlot(k.loc[p]) == s ensures Refilling(k, s) {
      assert ProcOk(k, p);
    }
  }

  ghost predicate SameRefills(k: K, k2: K)
    requires Shape(k) && Shape(k2)
  {
    forall s | 0 <= s < NBUF :: Refilling(k2, s) == Refilling(k, s)
  }

  lemma RefillsStay(k: K, k2: K)
    requires Inv(k) && Inv(k2) && forall p | 0 <= p < NPROC :: RefillSlot(k2.loc[p]) == RefillSlot(k.loc[p])
    ensures SameRefills(k, k2)
  {
    hide Inv, Refilling, RefillSlot;
    forall s | 0 <= s < NBUF ensures Refilling(k2, s) == Refilling(k, s) {
      RefillingIs(k, s);
      RefillingIs(k2, s);
    }
  }

  lemma RefillsBut(k: K, k2: K, c: nat, s: nat)
    requires Inv(k) && Inv(k2) && c < NPROC && s < NBUF && forall p | 0 <= p < NPROC && p != c :: k2.loc[p] == k.loc[p]
    requires RefillSlot(k.loc[c]) == -1 || RefillSlot(k.loc[c]) == s
    requires RefillSlot(k2.loc[c]) == -1 || RefillSlot(k2.loc[c]) == s
    ensures forall r | 0 <= r < NBUF && r != s :: Refilling(k2, r) == Refilling(k, r)
  {
    hide Inv, Refilling, RefillSlot;
    forall r | 0 <= r < NBUF && r != s ensures Refilling(k2, r) == Refilling(k, r) {
      RefillingIs(k, r);
      RefillingIs(k2, r);
    }
  }

  // ---- one step

  /** The content follows the writes, and only a delete makes a block stale. */
  ghost predicate Follows(k: K, k2: K, e: Event, b: nat)
    requires Shape(k) && Shape(k2) && b < NBLOCK
  {
    && (!(Stale(k, b) && Evicts(k, e, b)) ==> Content(k2, b) == Written(k, e, b, Content(k, b)))
    && (Stale(k2, b) ==> Stale(k, b) || Deletes(k, e, b))
    && (WritesBlock(k, e, b) ==> !Stale(k2, b))
    && (Stale(k, b) && Evicts(k, e, b) ==> Content(k2, b) == k.disk[b])
  }

  lemma NothingMoves(k: K, k2: K, e: Event, b: nat)
    requires Shape(k) && Shape(k2) && b < NBLOCK && SameRefills(k, k2)
    requires k2.tag == k.tag && k2.dirty == k.dirty && k2.frames == k.frames && k2.disk == k.disk
    requires !WritesBlock(k, e, b) && !Evicts(k, e, b)
    ensures Follows(k, k2, e, b)
  {
  }

  lemma FollowsHoldBuffer(k: K, i: nat, op: Op, at: nat, b: nat)
    requires Inv(k) && Enabled(k, Turn(at)) && k.loc[k.cur] == HoldBuffer(i, op) && b < NBLOCK
    ensures Follows(k, WithBuffer(k, i, op), Turn(at), b)
  {
    hide Inv, Refilling, LocOk, OpOk, FileOk, BlocksDistinct, InodeLockOk, DeviceOk, InodeOf;
    var k2 := WithBuffer(k, i, op);
    StepHoldBuffer(k, i, op);
    if k2.loc[k.cur].WantLoad? {
      RefillsBut(k, k2, k.cur, Slot(op));
      RefillingIs(k2, Slot(op));
      assert RefillSlot(k2.loc[k.cur]) == Slot(op);
      NotRefilling(k, k.cur, Slot(op));
    } else {
      RefillsStay(k, k2);
      NothingMoves(k, k2, Turn(at), b);
    }
  }

  /** A slot that a process holds and does not refill is not being refilled. */
  lemma NotRefilling(k: K, p: nat, s: nat)
    requires Inv(k) && p < NPROC && s < NBUF && BufferOf(k.loc[p]) == s && RefillSlot(k.loc[p]) == -1
    ensures !Refilling(k, s)
  {
    hide LocOk, OpOk, FileOk, BlocksDistinct, InodeLockOk, DeviceOk, InodeOf;
    assert ProcOk(k, p);
  }

  lemma FollowsStoring(k: K, i: nat, op: Op, x: int, at: nat, b: nat)
    requires Inv(k) && k.t.st[k.cur] == Running && k.loc[k.cur] == Storing(i, op, x) && b < NBLOCK
    ensures Follows(k, At(k.(dirty := k.dirty[Slot(op) := false]), WantLoad(i, op)), Turn(at), b)
  {
    hide Refilling, OpOk, FileOk, BlocksDistinct, InodeLockOk, DeviceOk, InodeOf, SlotOk;
    var k2 := At(k.(dirty := k.dirty[Slot(op) := false]), WantLoad(i, op));
    StepStoring(k, i, op, x);
    assert ProcOk(k, k.cur);
    RefillsBut(k, k2, k.cur, Slot(op));
    RefillingIs(k2, Slot(op));
    assert RefillSlot(k2.loc[k.cur]) == Slot(op);
    NotRefilling(k, k.cur, Slot(op));
  }

  lemma FollowsLoading(k: K, i: nat, op: Op, at: nat, b: nat)
    requires Inv(k) && k.t.st[k.cur] == Running && k.loc[k.cur] == Loading(i, op) && b < NBLOCK
    ensures Follows(k, At(k.(tag := k.tag[Slot(op) := op.block]), Access(i, op)), Turn(at), b)
  {
    hide Refilling, OpOk, FileOk, BlocksDistinct, InodeLockOk, DeviceOk, InodeOf, SlotOk;
    var k2 := At(k.(tag := k.tag[Slot(op) := op.block]), Access(i, op));
    StepLoading(k, i, op);
    assert ProcOk(k, k.cur);
    RefillsBut(k, k2, k.cur, Slot(op));
    RefillingIs(k, Slot(op));
    assert RefillSlot(k.loc[k.cur]) == Slot(op);
    NotRefilling(k2, k.cur, Slot(op));
  }

  lemma FollowsAccess(k: K, i: nat, op: Op, at: nat, b: nat)
    requires Inv(k) && k.t.st[k.cur] == Running && k.loc[k.cur] == Access(i, op) && b < NBLOCK
    ensures Follows(k, Touch(k, i, op), Turn(at), b)
  {
    hide Refilling, OpOk, FileOk, BlocksDistinct, InodeLockOk, DeviceOk, InodeOf, SlotOk;
    var k2 := Touch(k, i, op);
    StepAccess(k, i, op);
    assert ProcOk(k, k.cur);
    RefillsStay(k, k2);
    NotRefilling(k, k.cur, Slot(op));
  }

  lemma FollowsDelete(k: K, i: nat, at: nat, b: nat)
    requires Inv(k) && k.t.st[k.cur] == Running && k.loc[k.cur] == HoldInode(i, Deleting(false)) && b < NBLOCK && i < NINODE
    ensures Follows(k, LeaveInode(Deleted(k, i), i), Turn(at), b)
  {
    hide Inv, Refilling, Woken;
    StepDelete(k, i);
    RefillsStay(k, LeaveInode(Deleted(k, i), i));
  }

  lemma FollowsDiskDone(k: K, b: nat)
    requires Inv(k) && Enabled(k, DiskDone) && b < NBLOCK
    ensures Follows(k, After(k, DiskDone), DiskDone, b)
  {
    hide Refilling, OpOk, FileOk, BlocksDistinct, InodeLockOk, SlotOk, InodeOf, Woken;
    var k2 := After(k, DiskDone);
    StepDiskDone(k);
    RefillsStay(k, k2);
    var o := k.t.diskOwner;
    assert ProcOk(k, o);
    if k.loc[o].Storing? {
      NotRefilling(k, o, Slot(k.loc[o].op));
      RequestInSlot(k, o);
    } else if k.loc[o].Loading? {
      RefillingIs(k, Slot(k.loc[o].op));
      assert RefillSlot(k.loc[o]) == Slot(k.loc[o].op);
    }
  }

  lemma FollowsTurn(k: K, at: nat, b: nat)
    requires Inv(k) && Enabled(k, Turn(at)) && b < NBLOCK
    ensures Follows(k, Turned(k, at), Turn(at), b)
  {
    hide Inv, Follows, WithBuffer, Touch, FirstFree, Woken, Deleted, Finish, RefillSlot;
    StepTurn(k, at);
    var l := k.loc[k.cur];
    if l.HoldBuffer? {
      FollowsHoldBuffer(k, l.i, l.op, at, b);
    } else if l.Storing? {
      FollowsStoring(k, l.i, l.op, l.tagged, at, b);
    } else if l.Loading? {
      FollowsLoading(k, l.i, l.op, at, b);
    } else if l.Access? {
      FollowsAccess(k, l.i, l.op, at, b);
    } else if l.HoldInode? && l.body == Deleting(false) {
      FollowsDelete(k, l.i, at, b);
    } else {
      QuietTurn(k, at);
      NothingMoves(k, Turned(k, at), Turn(at), b);
    }
  }

  predicate TouchesCache(l: Loc) {
    l.HoldBuffer? || l.Storing? || l.Loading? || l.Access? || (l.HoldInode? && l.body == Deleting(false))
  }

  /** Other turns leave the cache and the disk alone. */
  lemma QuietTurn(k: K, at: nat)
    requires Inv(k) && Enabled(k, Turn(at)) && Inv(Turned(k, at)) && !TouchesCache(k.loc[k.cur])
    ensures SameRefills(k, Turned(k, at))
    ensures var k2 := Turned(k, at); k2.tag == k.tag && k2.dirty == k.dirty && k2.frames == k.frames && k2.disk == k.disk
  {
    hide Inv, SameRefills, FirstFree, Woken, Touch, WithBuffer, WithInode, Finish;
    var k2 := Turned(k, at);
    TurnMovesOne(k, at);
    match k.loc[k.cur] {
      case HoldInode(i, body) => QuietInode(k, i, body, at);
      case EndInode(i, op) => FinishGoesTo(k, i, op); QuietFinish(k, i, op);
      case _ =>
    }
    assert RefillSlot(k2.loc[k.cur]) == RefillSlot(k.loc[k.cur]);
    RefillsStay(k, k2);
  }

  lemma QuietInode(k: K, i: nat, body: Body, at: nat)
    requires Shape(k) && i < NINODE && at <= MAX_FILE_SIZE && body != Deleting(false) && k.loc[k.cur] == HoldInode(i, body)
    ensures var k2 := WithInode(k, i, body, at);
            k2.tag == k.tag && k2.dirty == k.dirty && k2.frames == k.frames && k2.disk == k.disk && RefillSlot(k2.loc[k.cur]) == -1
  {
    hide FirstFree, Woken;
  }

  lemma QuietFinish(k: K, i: nat, op: Op)
    requires Shape(k) && i < NINODE
    ensures var k2 := Finish(k, i, op); k2.tag == k.tag && k2.dirty == k.dirty && k2.frames == k.frames && k2.disk == k.disk
  {
    hide Woken;
  }

  /** Every step changes the content of a block only by the word that a write puts
      there, unless it evicts a stale block: then the content falls back to the disk. */
  lemma StepFollows(k: K, e: Event, b: nat)
    requires Inv(k) && Enabled(k, e) && b < NBLOCK
    ensures Follows(k, After(k, e), e, b)
  {
    hide Inv, Follows, Turned, Completed, RefillSlot;
    if e.Turn? {
      FollowsTurn(k, e.at, b);
    } else if e.DiskDone? {
      FollowsDiskDone(k, b);
    } else {
      StepKeeps(k, e);
      OthersRefillNothing(k, e);
      RefillsStay(k, After(k, e));
      NothingMoves(k, After(k, e), e, b);
    }
  }

  lemma OthersRefillNothing(k: K, e: Event)
    requires Shape(k) && Enabled(k, e) && !e.Turn? && !e.DiskDone?
    ensures forall p | 0 <= p < NPROC :: RefillSlot(After(k, e).loc[p]) == RefillSlot(k.loc[p])
  {
    hide Woken;
  }

  // ---- whole runs

  /** The page after the writes that a run makes to block b, in the order of the run. */
  ghost function Replay(k: K, es: seq<Event>, b: nat, page: Page): Page
    requires Shape(k) && Possible(k, es)
    decreases |es|
  {
    if es == [] then page else Replay(After(k, es[0]), es[1..], b, Written(k, es[0], b, page))
  }

  ghost predicate NeverDeleted(k: K, es: seq<Event>, b: nat)
    requires Shape(k) && Possible(k, es)
    decreases |es|
  {
    es == [] || (!Deletes(k, es[0], b) && NeverDeleted(After(k, es[0]), es[1..], b))
  }

  /** Under every interleaving the cache and the disk together are a plain array of
      blocks, for every block whose file is not deleted meanwhile. */
  lemma {:induction false} CacheRefinesDisk(k: K, es: seq<Event>, b: nat)
    requires Inv(k) && Possible(k, es) && b < NBLOCK && !Stale(k, b) && NeverDeleted(k, es, b)
    ensures Content(Outcome(k, es), b) == Replay(k, es, b, Content(k, b))
    ensures !Stale(Outcome(k, es), b)
    decreases |es|
  {
    hide Inv, After, Enabled, Content, Stale, Deletes, Evicts, Written, WritesBlock;
    if es != [] {
      StepKeeps(k, es[0]);
      StepFollows(k, es[0], b);
      CacheRefinesDisk(After(k, es[0]), es[1..], b);
    }
  }

  /** From boot nothing is stale, and a block holds what the disk holds. */
  lemma BootIsClean(k: K, b: nat)
    requires Booted(k) && b < NBLOCK
    ensures !Stale(k, b) && Content(k, b) == k.disk[b]
  {
    hide FileOk, BlocksDistinct;
  }

  /** A buffered read delivers the word that the block's content has at that moment. */
  lemma ReadReturnsContent(k: K, at: nat)
    requires Inv(k) && Enabled(k, Turn(at)) && k.loc[k.cur].Access? && k.loc[k.cur].op.put.Nothing?
    ensures var op := k.loc[k.cur].op;
            op.block < NBLOCK && After(k, Turn(at)).got[k.cur] == Content(k, op.block)[op.at % 512]
  {
    hide Refilling, FileOk, BlocksDistinct, InodeLockOk, DeviceOk, InodeOf, SlotOk, Woken, FirstFree, WithInode, Finish;
    assert ProcOk(k, k.cur);
    NotRefilling(k, k.cur, Slot(k.loc[k.cur].op));
  }
}
