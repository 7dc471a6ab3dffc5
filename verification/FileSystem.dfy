/** The file manager, the device manager, the delete and write system calls and the
    shutdown flush as code over the kernel's tables, each segment between two yields
    proved equal to its turn in the transition system. */
module FileSystem {
  import opened Words
  import opened ResourceManager
  import opened IoKernel
  import IoSafety
  import IoCache
  import IoLocks
  import IoFiles

  function Moved(k: K, op: Op): (r: K)
    requires Shape(k)
    ensures Shape(r)
  {
    var f := BUFFER_BASE + Slot(op);
    match op.put
    case Nothing => k.(got := k.got[k.cur := k.frames[f][op.at % 512]])
    case Store(w) => k.(frames := k.frames[f := k.frames[f][op.at % 512 := w]], dirty := k.dirty[Slot(op) := true])
  }

  /** One turn of a process that wants the terminal. */
  function Terminal(k: K, reading: bool): (r: K)
    requires Shape(k)
    ensures Shape(r)
  {
    var (t1, got) := AcquireTerminal(k.t, k.cur);
    if got.Asleep? then k.(t := t1)
    else if !reading then At(k.(t := t1), HoldTerminal)
    else At(k.(t := t1.(st := t1.st[k.cur := WaitTerminal]), console := true), TermReading)
  }

  /** What the code asks of the tables when a process holds an inode. */
  lemma InodeReady(k: K, i: nat, body: Body, at: nat)
    requires Inv(k) && Enabled(k, Turn(at)) && k.loc[k.cur] == HoldInode(i, body)
    ensures i < NINODE && at <= MAX_FILE_SIZE
    ensures i == INODE_ROOT || at == k.size[i] || (at < MAX_FILE_SIZE && 0 <= k.blocks[i][at / 512] < NBLOCK)
    ensures forall j | 0 <= j < 4 :: -1 <= k.blocks[i][j] < NBLOCK
    ensures forall s | 0 <= s < NBUF :: k.tag[s] == -1 || (k.tag[s] >= 0 && k.tag[s] % 4 == s)
    ensures body.Writing? ==> at < MAX_FILE_SIZE && (Grows(k, i, at) || k.blocks[i][at / 512] >= 0)
    ensures body.Writing? ==> IoLocks.WriteTurn(k, i, body.w, at) == WithInode(k, i, body, at)
  {
    hide ProcOk, BlocksDistinct, InodeLockOk, DeviceOk, FirstFree;
    assert FileOk(k, i);
    forall s | 0 <= s < NBUF ensures k.tag[s] == -1 || (k.tag[s] >= 0 && k.tag[s] % 4 == s) { assert SlotOk(k, s); }
    if at < k.size[i] {
      assert 512 * (at / 512) < k.size[i];
    }
  }

  lemma MovedThenReleased(k: K, i: nat, op: Op)
    requires Shape(k)
    ensures var k1 := Moved(k, op); Touch(k, i, op) == At(k1.(t := ReleaseBuffer(k1.t, Slot(op), k1.cur)), EndInode(i, op))
  {
    hide ReleaseBuffer;
  }

  class Kernel {
    const m: Manager
    const loc: array<Loc>
    const blocks: array2<int>
    const size: array<int>
    const used: array<bool>
    const tag: array<int>
    const dirty: array<bool>
    const frames: array<Page>
    const disk: array<Page>
    const got: array<Word>
    var cur: nat
    var hw: Hw
    var console: bool

    ghost predicate Valid()
      reads this, m
    {
      && m.Valid()
      && loc.Length == NPROC && got.Length == NPROC && cur < NPROC
      && blocks.Length0 == NINODE && blocks.Length1 == 4 && size.Length == NINODE && used.Length == NBLOCK
      && tag.Length == NBUF && dirty.Length == NBUF && frames.Length == NPAGE && disk.Length == NBLOCK
      && frames != disk && used != dirty && used != m.named && dirty != m.named && size != tag
      && size !in {m.wait, m.inodeLock, m.bufLock} && tag !in {m.wait, m.inodeLock, m.bufLock}
    }

    ghost function Rows(): (r: seq<seq<int>>)
      reads blocks
      requires blocks.Length0 == NINODE && blocks.Length1 == 4
      ensures |r| == NINODE && forall i | 0 <= i < NINODE :: r[i] == [blocks[i, 0], blocks[i, 1], blocks[i, 2], blocks[i, 3]]
    {
      seq(NINODE, i requires 0 <= i < NINODE && blocks.Length0 == NINODE && blocks.Length1 == 4 reads blocks => [blocks[i, 0], blocks[i, 1], blocks[i, 2], blocks[i, 3]])
    }

    ghost function Contents(): (k: K)
      reads this, m, m.st, m.wait, m.inodeLock, m.named, m.bufLock, loc, blocks, size, used, tag, dirty, frames, disk, got
      requires Valid()
      ensures Shape(k)
    {
      K(m.Contents(), loc[..], cur, Rows(), size[..], used[..], tag[..], dirty[..], hw, console, frames[..], disk[..], got[..])
    }

    /** The kernel's tables as boot leaves them, over the file tables of the disk. */
    constructor Boot(rows: array2<int>, sizes: array<int>, free: array<bool>, named: array<bool>, image: array<Page>, ram: array<Page>)
      requires rows.Length0 == NINODE && rows.Length1 == 4 && sizes.Length == NINODE && free.Length == NBLOCK
      requires named.Length == NINODE && image.Length == NBLOCK && ram.Length == NPAGE
      ensures Valid() && fresh(m) && blocks == rows && size == sizes && used == free && m.named == named && disk == image && frames == ram
      ensures (forall i | 0 <= i < NINODE :: FileOk(Contents(), i)) && BlocksDistinct(Contents()) ==> IoLocks.Booted(Contents())
    {
      hide FileOk, BlocksDistinct, Rows;
      m := new Manager.Boot(named);
      loc := new Loc[NPROC](_ => User);
      blocks, size, used, disk, frames := rows, sizes, free, image, ram;
      tag := new int[NBUF](_ => -1);
      dirty := new bool[NBUF](_ => false);
      got := new Word[NPROC](_ => Int(0));
      cur, hw, console := 0, Idle, false;
      new;
      ghost var k := Contents();
      assert forall p | 0 <= p < NPROC :: k.loc[p] == User && k.t.st[p] == m.st[p];
      assert forall i | 0 <= i < NINODE :: k.t.inodeLock[i] == -1;
      assert forall s | 0 <= s < NBUF :: k.t.bufLock[s] == -1 && k.tag[s] == -1 && !k.dirty[s];
    }

    // ---- file manager

    method HoldBuffer(i: nat, op: Op)
      requires Valid()
      modifies loc
      ensures Contents() == WithBuffer(old(Contents()), i, op)
    {
      var s := op.block % 4;
      if tag[s] != op.block {
        if dirty[s] {
          loc[cur] := WantStore(i, op, tag[s]);
        } else {
          loc[cur] := WantLoad(i, op);
        }
      } else {
        loc[cur] := Access(i, op);
      }
    }

    method Stored(i: nat, op: Op)
      requires Valid()
      modifies loc, dirty
      ensures Contents() == At(old(Contents()).(dirty := old(dirty[..])[Slot(op) := false]), WantLoad(i, op))
    {
      dirty[op.block % 4] := false;
      loc[cur] := WantLoad(i, op);
    }

    method Loaded(i: nat, op: Op)
      requires Valid()
      modifies loc, tag
      ensures Contents() == At(old(Contents()).(tag := old(tag[..])[Slot(op) := op.block]), Access(i, op))
    {
      tag[op.block % 4] := op.block;
      loc[cur] := Access(i, op);
    }

    /** The word moves between the buffer page and the caller. */
    method MoveWord(op: Op)
      requires Valid()
      modifies got, frames, dirty
      ensures Contents() == Moved(old(Contents()), op)
    {
      hide Rows;
      var s := op.block % 4;
      var f := BUFFER_BASE + s;
      match op.put {
        case Nothing => got[cur] := frames[f][op.at % 512];
        case Store(w) =>
          frames[f] := frames[f][op.at % 512 := w];
          dirty[s] := true;
      }
    }

    method EndAccess(i: nat, op: Op)
      requires Valid()
      modifies loc, m.st, m.bufLock
      ensures var k := old(Contents()); Contents() == At(k.(t := ReleaseBuffer(k.t, Slot(op), k.cur)), EndInode(i, op))
    {
      hide Rows, ReleaseBuffer;
      var r0 := m.DoReleaseBuffer(op.block % 4, cur);
      loc[cur] := EndInode(i, op);
    }

    method DoTouch(i: nat, op: Op)
      requires Valid()
      modifies loc, got, frames, dirty, m.st, m.bufLock
      ensures Contents() == Touch(old(Contents()), i, op)
    {
      hide Contents, Touch, Moved;
      MovedThenReleased(Contents(), i, op);
      MoveWord(op);
      EndAccess(i, op);
    }

    // ---- device manager

    method AskDisk() returns (turn: Got)
      requires Valid()
      modifies m`diskBusy, m`diskOwner, m.st
      ensures var k := old(Contents()); Contents() == k.(t := AcquireDisk(k.t, k.cur).0) && turn == AcquireDisk(k.t, k.cur).1
    {
      hide Rows, Sized, AcquireDisk;
      turn := m.TryAcquireDisk(cur);
    }

    /** LOAD or STORE, and the process waits for it. */
    method Begin(store: bool, page: nat, block: nat, l: Loc)
      requires Valid()
      modifies this`hw, loc, m.st
      ensures var k := old(Contents());
              Contents() == k.(t := k.t.(st := k.t.st[k.cur := WaitDisk]), hw := Issue(k, store, page, block), loc := k.loc[k.cur := l])
    {
      hide Rows, Sized;
      if !hw.Busy? {
        hw := Busy(store, page, block);
      }
      m.st[cur] := WaitDisk;
      loc[cur] := l;
    }

    method Start(store: bool, page: nat, block: nat, l: Loc)
      requires Valid()
      modifies this`hw, loc, m`diskBusy, m`diskOwner, m.st
      ensures Contents() == Transfer(old(Contents()), store, page, block, l)
    {
      hide Contents, Rows;
      var turn := AskDisk();
      if turn == Taken {
        Begin(store, page, block, l);
      }
    }

    // ---- memory manager, functions 3 and 4, and the delete system call

    method GetFreeBlock() returns (b: int)
      requires Valid()
      modifies used
      ensures b == FirstFree(old(used[..]), FREE_AREA)
      ensures used[..] == if b == -1 then old(used[..]) else old(used[..])[b := true]
    {
      b := FREE_AREA;
      while b < SWAP_AREA
        invariant FREE_AREA <= b <= SWAP_AREA && used[..] == old(used[..])
        invariant FirstFree(used[..], FREE_AREA) == FirstFree(used[..], b)
      {
        if !used[b] {
          used[b] := true;
          return;
        }
        b := b + 1;
      }
      b := -1;
    }

    method ForgetBlock(i: nat, r: nat)
      requires Valid() && i < NINODE && r < 4 && -1 <= blocks[i, r] < NBLOCK
      requires forall s | 0 <= s < NBUF :: tag[s] == -1 || (tag[s] >= 0 && tag[s] % 4 == s)
      modifies dirty, used, blocks
      ensures forall i2, j | 0 <= i2 < NINODE && 0 <= j < 4 :: blocks[i2, j] == if i2 == i && j == r then -1 else old(blocks[i2, j])
      ensures forall s | 0 <= s < NBUF :: dirty[s] == (old(dirty[s]) && !(tag[s] >= 0 && tag[s] == old(blocks[i, r])))
      ensures forall b | 0 <= b < NBLOCK :: used[b] == (old(used[b]) && b != old(blocks[i, r]))
    {
      var b := blocks[i, r];
      if b != -1 {
        if tag[b % 4] == b {
          dirty[b % 4] := false;
        }
        used[b] := false;
        blocks[i, r] := -1;
      }
    }

    /** The loop of delete over the file's blocks. */
    method ForgetBlocks(i: nat)
      requires Valid() && i < NINODE
      requires forall j | 0 <= j < 4 :: -1 <= blocks[i, j] < NBLOCK
      requires forall s | 0 <= s < NBUF :: tag[s] == -1 || (tag[s] >= 0 && tag[s] % 4 == s)
      modifies dirty, used, blocks
      ensures forall j | 0 <= j < 4 :: blocks[i, j] == -1
      ensures forall i2, j | 0 <= i2 < NINODE && 0 <= j < 4 && i2 != i :: blocks[i2, j] == old(blocks[i2, j])
      ensures forall s | 0 <= s < NBUF :: dirty[s] == (old(dirty[s]) && !(tag[s] >= 0 && tag[s] in old(Rows())[i]))
      ensures forall b | 0 <= b < NBLOCK :: used[b] == (old(used[b]) && b !in old(Rows())[i])
    {
      ghost var row := Rows()[i];
      var r := 0;
      while r < 4
        invariant 0 <= r <= 4 && forall j | 0 <= j < r :: blocks[i, j] == -1
        invariant forall i2, j | 0 <= i2 < NINODE && 0 <= j < 4 && (i2 != i || j >= r) :: blocks[i2, j] == old(blocks[i2, j])
        invariant forall s | 0 <= s < NBUF :: dirty[s] == (old(dirty[s]) && !(tag[s] >= 0 && tag[s] in row[..r]))
        invariant forall b | 0 <= b < NBLOCK :: used[b] == (old(used[b]) && b !in row[..r])
      {
        assert row[..r + 1] == row[..r] + [row[r]];
        ForgetBlock(i, r);
        r := r + 1;
      }
      assert row[..4] == row;
    }

    method DoDelete(i: nat)
      requires Valid() && i < NINODE
      requires forall j | 0 <= j < 4 :: -1 <= blocks[i, j] < NBLOCK
      requires forall s | 0 <= s < NBUF :: tag[s] == -1 || (tag[s] >= 0 && tag[s] % 4 == s)
      modifies dirty, used, blocks, size, m.named
      ensures Contents() == Deleted(old(Contents()), i)
    {
      ForgetBlocks(i);
      size[i] := -1;
      m.named[i] := false;
      ghost var k := old(Contents());
      assert Rows() == k.blocks[i := [-1, -1, -1, -1]];
      assert dirty[..] == Deleted(k, i).dirty;
      assert used[..] == Deleted(k, i).used;
    }

    // ---- the turns of the read, write and delete system calls

    method TakeInode(i: nat, body: Body)
      requires Valid() && i < NINODE
      modifies loc, m.st, m.wait, m.inodeLock
      ensures var k := old(Contents()); Contents() == Wanting(k, AcquireInode(k.t, i, k.cur), HoldInode(i, body))
    {
      hide Rows, AcquireInode;
      var turn := m.TryAcquireInode(i, cur);
      match turn {
        case Taken => loc[cur] := HoldInode(i, body);
        case Gone => loc[cur] := User;
        case Asleep =>
      }
    }

    method TakeBuffer(i: nat, op: Op)
      requires Valid()
      modifies loc, m.st, m.wait, m.bufLock
      ensures var k := old(Contents()); Contents() == Wanting(k, AcquireBuffer(k.t, Slot(op), k.cur), Loc.HoldBuffer(i, op))
    {
      hide Rows, AcquireBuffer;
      var turn := m.TryAcquireBuffer(op.block % 4, cur);
      match turn {
        case Taken => loc[cur] := Loc.HoldBuffer(i, op);
        case Gone => loc[cur] := User;
        case Asleep =>
      }
    }

    method GiveInode(i: nat)
      requires Valid() && i < NINODE
      modifies loc, m.st, m.inodeLock
      ensures Contents() == LeaveInode(old(Contents()), i)
    {
      hide Rows, ReleaseInode;
      var r0 := m.DoReleaseInode(i, cur);
      loc[cur] := User;
    }

    /** Read with the inode locked, at position at (int_6.spl:71-109). */
    method Read(i: nat, at: nat)
      requires Valid() && i < NINODE && at <= MAX_FILE_SIZE
      requires i == INODE_ROOT || at == size[i] || (at < MAX_FILE_SIZE && blocks[i, at / 512] >= 0)
      modifies loc, m.st, m.inodeLock
      ensures Contents() == WithInode(old(Contents()), i, Reading, at)
    {
      hide LeaveInode;
      if i == INODE_ROOT || at == size[i] {
        GiveInode(i);
      } else {
        loc[cur] := WantBuffer(i, Op(at, blocks[i, at / 512], Nothing));
      }
    }

    /** A file that ends at a block's start gets a block. */
    method Extend(i: nat, at: nat) returns (ok: bool)
      requires Valid() && i < NINODE && at < MAX_FILE_SIZE && Grows(Contents(), i, at)
      modifies used, blocks
      ensures Contents() == Grown(old(Contents()), i, at) && (ok <==> FirstFree(old(used[..]), FREE_AREA) != -1)
    {
      hide FirstFree;
      ghost var k := Contents();
      var b := GetFreeBlock();
      ok := b != -1;
      if ok {
        blocks[i, at / 512] := b;
        forall r | 0 <= r < NINODE ensures Rows()[r] == if r == i then k.blocks[i][at / 512 := b] else k.blocks[r] {
          assert k.blocks[r] == old([blocks[r, 0], blocks[r, 1], blocks[r, 2], blocks[r, 3]]);
        }
      }
      assert Rows() == Grown(k, i, at).blocks;
    }

    /** Write with the inode locked: a new block at a block's start, or the early returns
        (int_7.spl:87-118). */
    method Write(i: nat, w: Word, at: nat)
      requires Valid() && i < NINODE && at <= MAX_FILE_SIZE
      requires loc[cur] == HoldInode(i, Writing(w)) && (at < MAX_FILE_SIZE ==> Grows(Contents(), i, at) || blocks[i, at / 512] >= 0)
      modifies loc, used, blocks
      ensures Contents() == IoLocks.WriteTurn(old(Contents()), i, w, at)
    {
      hide FirstFree;
      var ok := at < MAX_FILE_SIZE;
      if ok && at % 512 == 0 && at == size[i] {
        ok := Extend(i, at);
      }
      if !ok {
        loc[cur] := User;
        return;
      }
      assert blocks[i, at / 512] == Rows()[i][at / 512] >= 0;
      loc[cur] := WantBuffer(i, Op(at, blocks[i, at / 512], Store(w)));
    }

    /** The end of a read or write: a word written at the end makes the file longer
        (int_7.spl:120-135). */
    method EndCall(i: nat, op: Op)
      requires Valid() && i < NINODE
      modifies loc, size, m.st, m.inodeLock
      ensures Contents() == Finish(old(Contents()), i, op)
    {
      hide Rows, LeaveInode;
      if op.put.Store? && op.at == size[i] {
        size[i] := size[i] + 1;
      }
      GiveInode(i);
    }

    // ---- terminal

    method TakeTerminal(reading: bool)
      requires Valid()
      modifies this`console, loc, m`termBusy, m`termOwner, m.st
      ensures Contents() == Terminal(old(Contents()), reading)
    {
      hide Rows, AcquireTerminal;
      var turn := m.TryAcquireTerminal(cur);
      if turn != Asleep {
        if reading {
          m.st[cur] := WaitTerminal;
          console := true;
          loc[cur] := TermReading;
        } else {
          loc[cur] := HoldTerminal;
        }
      }
    }

    method GiveTerminal()
      requires Valid()
      modifies loc, m`termBusy, m.st
      ensures var k := old(Contents()); Contents() == At(k.(t := ReleaseTerminal(k.t, k.cur)), User)
    {
      hide Rows, ReleaseTerminal;
      var r0 := m.DoReleaseTerminal(cur);
      loc[cur] := User;
    }

    // ---- any turn

    method GoTo(l: Loc)
      requires Valid()
      modifies loc
      ensures Contents() == At(old(Contents()), l)
    {
      loc[cur] := l;
    }

    method WithInodeTurn(i: nat, body: Body, at: nat)
      requires Valid() && Inv(Contents()) && Enabled(Contents(), Event.Turn(at)) && loc[cur] == HoldInode(i, body)
      modifies loc, used, blocks, dirty, size, m.st, m.inodeLock, m.named
      ensures Contents() == WithInode(old(Contents()), i, body, at)
    {
      hide Contents, LeaveInode, Deleted, Grown, FirstFree, HasRoom, Inv;
      ghost var k := Contents();
      LocIs();
      InodeReady(k, i, body, at);
      TablesAre();
      match body {
        case Plain => GiveInode(i);
        case Reading => Read(i, at);
        case Writing(w) => Write(i, w, at);
        case Deleting(open) =>
          if !open {
            DoDelete(i);
          }
          GiveInode(i);
      }
    }

    lemma LocIs()
      requires Valid()
      ensures loc[cur] == Contents().loc[Contents().cur] && cur == Contents().cur && tag[..] == Contents().tag && dirty[..] == Contents().dirty && hw == Contents().hw
    {
    }

    lemma TablesAre()
      requires Valid()
      ensures size[..] == Contents().size && tag[..] == Contents().tag
      ensures forall i, j | 0 <= i < NINODE && 0 <= j < 4 :: blocks[i, j] == Contents().blocks[i][j]
    {
    }

    /** One turn of the running process is one turn of the transition system. */
    method Turn(at: nat)
      requires Valid() && Inv(Contents()) && Enabled(Contents(), Event.Turn(at))
      modifies this`hw, this`console, loc, used, blocks, dirty, size, tag, got, frames
      modifies m`diskBusy, m`diskOwner, m`termBusy, m`termOwner, m.st, m.wait, m.inodeLock, m.bufLock, m.named
      ensures Contents() == After(old(Contents()), Event.Turn(at))
    {
      hide Contents, Inv, AcquireInode, AcquireBuffer, WithInode, Touch, Finish, Transfer, WithBuffer, ReleaseTerminal, PositionOk, Wanting, AcquireTerminal, Shape, At;
      LocIs();
      match loc[cur] {
        case WantInode(i, body) => TakeInode(i, body);
        case HoldInode(i, body) => WithInodeTurn(i, body, at);
        case WantBuffer(i, op) => TakeBuffer(i, op);
        case HoldBuffer(i, op) => HoldBuffer(i, op);
        case WantStore(i, op, b) => Start(true, BUFFER_BASE + op.block % 4, b, Storing(i, op, b));
        case Storing(i, op, b) => Stored(i, op);
        case WantLoad(i, op) => Start(false, BUFFER_BASE + op.block % 4, op.block, Loading(i, op));
        case Loading(i, op) => Loaded(i, op);
        case Access(i, op) => DoTouch(i, op);
        case EndInode(i, op) => EndCall(i, op);
        case WantTerminal(reading) => TakeTerminal(reading);
        case HoldTerminal => GiveTerminal();
        case TermReading => GoTo(User);
        case WantPage(page, block) => Start(false, page, block, LoadingPage(page, block));
        case LoadingPage(_, _) => GoTo(User);
      }
    }

    // ---- any event

    method PutState(p: nat, s: PState)
      requires Valid() && p < NPROC
      modifies m.st
      ensures Contents() == SetState(old(Contents()), p, s)
    {
      hide Rows;
      m.st[p] := s;
    }

    method TakeUp(q: nat)
      requires Valid() && q < NPROC
      modifies this`cur, m.st
      ensures Valid() && Contents() == SetState(old(Contents()), q, Running).(cur := q)
    {
      hide Rows;
      m.st[q] := Running;
      cur := q;
    }

    /** The hardware ends its transfer and the disk handler runs (code/Interrupt/disk.spl). */
    method EndTransfer()
      requires Valid() && hw.Busy? && hw.page < NPAGE && hw.block < NBLOCK
      modifies this`hw, frames, disk, m`diskBusy, m.st
      ensures Contents() == Completed(old(Contents()))
    {
      hide Rows, DiskInterrupt;
      if hw.store {
        disk[hw.block] := frames[hw.page];
      } else {
        frames[hw.page] := disk[hw.block];
      }
      hw := Idle;
      m.DiskHandler();
    }

    /** The console's word has come (code/Interrupt/console.spl). */
    method EndConsole()
      requires Valid()
      modifies this`console, m`termBusy, m.st
      ensures var k := old(Contents()); Contents() == k.(console := false, t := ReleaseTerminal(k.t, k.t.termOwner))
    {
      hide Rows, ReleaseTerminal;
      console := false;
      var r0 := m.DoReleaseTerminal(m.termOwner);
    }

    /** A free inode entry becomes an empty file (int_4.spl:51-67). */
    method MakeFile(i: nat)
      requires Valid() && i < NINODE
      modifies blocks, size, m.named
      ensures var k := old(Contents());
              Contents() == k.(t := k.t.(named := k.t.named[i := true]), size := k.size[i := 0], blocks := k.blocks[i := [-1, -1, -1, -1]])
    {
      ghost var k := Contents();
      m.named[i] := true;
      size[i] := 0;
      blocks[i, 0], blocks[i, 1], blocks[i, 2], blocks[i, 3] := -1, -1, -1, -1;
      forall r | 0 <= r < NINODE ensures Rows()[r] == if r == i then [-1, -1, -1, -1] else k.blocks[r] {
        assert k.blocks[r] == old([blocks[r, 0], blocks[r, 1], blocks[r, 2], blocks[r, 3]]);
      }
      assert Rows() == k.blocks[i := [-1, -1, -1, -1]];
    }

    /** Every event of the transition system on the tables in place. */
    method Do(e: Event)
      requires Valid() && Inv(Contents()) && Enabled(Contents(), e)
      modifies this`hw, this`console, this`cur, loc, used, blocks, dirty, size, tag, got, frames, disk
      modifies m`diskBusy, m`diskOwner, m`termBusy, m`termOwner, m.st, m.wait, m.inodeLock, m.bufLock, m.named
      ensures Valid() && Contents() == After(old(Contents()), e)
    {
      hide Contents, Inv, Turned, Completed, SetState, ReleaseTerminal, PositionOk, At;
      LocIs();
      match e {
        case Call(l) => GoTo(l);
        case Turn(at) => Turn(at);
        case Preempt => PutState(cur, Ready);
        case Dispatch(q) => TakeUp(q);
        case DiskDone => EndTransfer();
        case ConsoleDone => EndConsole();
        case Create(i) => MakeFile(i);
        case Fork(c) => PutState(c, Created);
        case Exit => PutState(cur, Terminated);
      }
    }

    // ---- shutdown (int_15)

    /** Every dirty buffer is stored. Afterwards the disk alone has the content of every
        block but the stale ones, and so of every block that an inode owns. */
    method Flush()
      requires Valid() && IoSafety.TablesOk(Contents())
      requires forall s | 0 <= s < NBUF :: m.bufLock[s] == -1
      modifies disk
      ensures (Inv(old(Contents())) && IoFiles.OwnedFresh(old(Contents())) && !old(loc[cur]).WantBuffer?) ==>
                forall b: nat | IoFiles.Owned(old(Contents()), b) :: b < NBLOCK && disk[b] == IoCache.Content(old(Contents()), b)
      ensures forall b | 0 <= b < NBLOCK && !IoCache.Stale(old(Contents()), b) :: disk[b] == IoCache.Content(old(Contents()), b)
      ensures forall b | 0 <= b < NBLOCK && IoCache.Stale(old(Contents()), b) :: disk[b] == old(disk[b])
    {
      ghost var k := Contents();
      var r := 0;
      while r < 4
        invariant 0 <= r <= 4
        invariant forall b | 0 <= b < NBLOCK ::
            disk[b] == if b % 4 < r && tag[b % 4] == b && dirty[b % 4] then frames[BUFFER_BASE + b % 4] else old(disk[b])
      {
        assert SlotOk(k, r);
        if dirty[r] {
          disk[tag[r]] := frames[BUFFER_BASE + r];
        }
        r := r + 1;
      }
      if Inv(k) && IoFiles.OwnedFresh(k) && !k.loc[k.cur].WantBuffer? {
        forall b: nat | IoFiles.Owned(k, b) ensures b < NBLOCK && !IoCache.Stale(k, b) { IoFiles.FreeSlotsAreFresh(k, b); }
      }
    }
  }
}
