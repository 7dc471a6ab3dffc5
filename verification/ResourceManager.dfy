/** The kernel's lock tables and the resource manager (code/Modules/resource_manager.spl).
    Kernel code is atomic between calls of the scheduler, so an acquiring loop is
    modelled turn by turn: one turn either takes the lock or puts the process to
    sleep. */
module ResourceManager {
  import Scheduler

  datatype PState =
    | Ready | Running | Created | Terminated
    | WaitDisk | WaitFile | WaitBuffer | WaitTerminal

  /** The process states with the word they wait on, and the lock words. -1 is a
      free lock; inode and buffer locks otherwise hold their owner's pid. */
  datatype Tables = Tables(
    st: seq<PState>,
    wait: seq<int>,
    inodeLock: seq<int>,
    named: seq<bool>,
    bufLock: seq<int>,
    diskBusy: bool,
    diskOwner: int,
    termBusy: bool,
    termOwner: int)

  const NPROC := Scheduler.NPROC
  const NINODE := 60
  const NBUF := 4

  predicate Sized(t: Tables) {
    |t.st| == NPROC && |t.wait| == NPROC && |t.inodeLock| == NINODE && |t.named| == NINODE && |t.bufLock| == NBUF
  }

  /** All processes but the idle one that wait in state w (on word x, unless any
      word will do) become ready. */
  function Woken(st: seq<PState>, wait: seq<int>, w: PState, any: bool, x: int): (r: seq<PState>)
    requires |st| == |wait|
    ensures |r| == |st|
    ensures forall p | 0 <= p < |st| :: r[p] == if p >= 1 && st[p] == w && (any || wait[p] == x) then Ready else st[p]
  {
    seq(|st|, p requires 0 <= p < |st| => if p >= 1 && st[p] == w && (any || wait[p] == x) then Ready else st[p])
  }

  function Sleep(t: Tables, p: nat, w: PState, x: int): Tables
    requires Sized(t) && p < NPROC
  {
    t.(st := t.st[p := w], wait := t.wait[p := x])
  }

  datatype Got = Taken | Asleep | Gone

  function AcquireBuffer(t: Tables, s: nat, p: nat): (r: (Tables, Got))
    requires Sized(t) && s < NBUF && p < NPROC
    ensures Sized(r.0)
  {
    if t.bufLock[s] != -1 then (Sleep(t, p, WaitBuffer, s), Asleep)
    else (t.(bufLock := t.bufLock[s := p]), Taken)
  }

  function ReleaseBuffer(t: Tables, s: nat, p: nat): (r: Tables)
    requires Sized(t) && s < NBUF && p < NPROC
    ensures Sized(r)
  {
    if t.bufLock[s] != p then t
    else t.(bufLock := t.bufLock[s := -1], st := Woken(t.st, t.wait, WaitBuffer, false, s))
  }

  function AcquireDisk(t: Tables, p: nat): (r: (Tables, Got))
    requires Sized(t) && p < NPROC
    ensures Sized(r.0)
  {
    if t.diskBusy then (t.(st := t.st[p := WaitDisk]), Asleep) else (t.(diskBusy := true, diskOwner := p), Taken)
  }

  /** The completion handler (code/Interrupt/disk.spl). */
  function DiskInterrupt(t: Tables): (r: Tables)
    requires Sized(t)
    ensures Sized(r)
  {
    t.(diskBusy := false, st := Woken(t.st, t.wait, WaitDisk, true, 0))
  }

  /** A file deleted before its lock came free makes the caller give up. */
  function AcquireInode(t: Tables, i: nat, p: nat): (r: (Tables, Got))
    requires Sized(t) && i < NINODE && p < NPROC
    ensures Sized(r.0)
  {
    if t.inodeLock[i] != -1 then (Sleep(t, p, WaitFile, i), Asleep)
    else if !t.named[i] then (t, Gone)
    else (t.(inodeLock := t.inodeLock[i := p]), Taken)
  }

  function ReleaseInode(t: Tables, i: nat, p: nat): (r: Tables)
    requires Sized(t) && i < NINODE && p < NPROC
    ensures Sized(r)
  {
    if t.inodeLock[i] != p then t
    else t.(inodeLock := t.inodeLock[i := -1], st := Woken(t.st, t.wait, WaitFile, false, i))
  }

  function AcquireTerminal(t: Tables, p: nat): (r: (Tables, Got))
    requires Sized(t) && p < NPROC
    ensures Sized(r.0)
  {
    if t.termBusy then (t.(st := t.st[p := WaitTerminal]), Asleep) else (t.(termBusy := true, termOwner := p), Taken)
  }

  function ReleaseTerminal(t: Tables, p: int): (r: Tables)
    requires Sized(t)
    ensures Sized(r)
  {
    if t.termOwner != p then t
    else t.(termBusy := false, st := Woken(t.st, t.wait, WaitTerminal, true, 0))
  }

  /** The tables in the kernel's memory and the module's code over them. */
  class Manager {
    const st: array<PState>
    const wait: array<int>
    const inodeLock: array<int>
    const named: array<bool>
    const bufLock: array<int>
    var diskBusy: bool
    var diskOwner: int
    var termBusy: bool
    var termOwner: int

    ghost predicate Valid()
      reads this
    {
      && st.Length == NPROC && wait.Length == NPROC && inodeLock.Length == NINODE
      && named.Length == NINODE && bufLock.Length == NBUF
      && wait != inodeLock && wait != bufLock && inodeLock != bufLock
    }

    ghost function Contents(): (t: Tables)
      reads this, st, wait, inodeLock, named, bufLock
      requires Valid()
      ensures Sized(t)
    {
      Tables(st[..], wait[..], inodeLock[..], named[..], bufLock[..], diskBusy, diskOwner, termBusy, termOwner)
    }

    /** The lock words as boot leaves them: the idle process runs and init is created. */
    constructor Boot(names: array<bool>)
      requires names.Length == NINODE
      ensures Valid() && named == names && fresh(st) && fresh(wait) && fresh(inodeLock) && fresh(bufLock)
      ensures forall p | 0 <= p < NPROC :: st[p] == if p == 0 then Running else if p == 1 then Created else Terminated
      ensures (forall i | 0 <= i < NINODE :: inodeLock[i] == -1) && (forall s | 0 <= s < NBUF :: bufLock[s] == -1)
      ensures !diskBusy && !termBusy
    {
      st := new PState[NPROC](p => if p == 0 then Running else if p == 1 then Created else Terminated);
      wait := new int[NPROC](_ => -1);
      inodeLock := new int[NINODE](_ => -1);
      bufLock := new int[NBUF](_ => -1);
      named := names;
      diskBusy, diskOwner, termBusy, termOwner := false, 0, false, 0;
    }

    /** The wake loops of the release functions and of the disk handler. */
    method Wake(w: PState, any: bool, x: int)
      requires Valid() && w != Ready
      modifies st
      ensures st[..] == Woken(old(st[..]), wait[..], w, any, x)
    {
      var r := 1;
      while r < 16
        invariant 1 <= r <= 16
        invariant forall p | 0 <= p < NPROC :: st[p] == old(if 1 <= p < r && st[p] == w && (any || wait[p] == x) then Ready else st[p])
      {
        if st[r] == w && (any || wait[r] == x) {
          st[r] := Ready;
        }
        r := r + 1;
      }
    }

    /** One turn of the loop of function 1: false when the caller must yield. */
    method TryAcquireBuffer(s: nat, p: nat) returns (got: Got)
      requires Valid() && s < NBUF && p < NPROC
      modifies st, wait, bufLock
      ensures (Contents(), got) == AcquireBuffer(old(Contents()), s, p)
    {
      if bufLock[s] != -1 {
        st[p] := WaitBuffer;
        wait[p] := s;
        return Asleep;
      }
      bufLock[s] := p;
      return Taken;
    }

    method DoReleaseBuffer(s: nat, p: nat) returns (r0: int)
      requires Valid() && s < NBUF && p < NPROC
      modifies st, bufLock
      ensures Contents() == ReleaseBuffer(old(Contents()), s, p)
      ensures r0 == if old(bufLock[s]) == p then 0 else -1
    {
      if bufLock[s] != p {
        return -1;
      }
      bufLock[s] := -1;
      Wake(WaitBuffer, false, s);
      return 0;
    }

    method TryAcquireDisk(p: nat) returns (got: Got)
      requires Valid() && p < NPROC
      modifies this`diskBusy, this`diskOwner, st
      ensures (Contents(), got) == AcquireDisk(old(Contents()), p)
    {
      if diskBusy {
        st[p] := WaitDisk;
        return Asleep;
      }
      diskBusy, diskOwner := true, p;
      return Taken;
    }

    method DiskHandler()
      requires Valid()
      modifies this`diskBusy, st
      ensures Contents() == DiskInterrupt(old(Contents()))
    {
      diskBusy := false;
      Wake(WaitDisk, true, 0);
    }

    method TryAcquireInode(i: nat, p: nat) returns (got: Got)
      requires Valid() && i < NINODE && p < NPROC
      modifies st, wait, inodeLock
      ensures (Contents(), got) == AcquireInode(old(Contents()), i, p)
    {
      if inodeLock[i] != -1 {
        st[p] := WaitFile;
        wait[p] := i;
        return Asleep;
      }
      if !named[i] {
        return Gone;
      }
      inodeLock[i] := p;
      return Taken;
    }

    method DoReleaseInode(i: nat, p: nat) returns (r0: int)
      requires Valid() && i < NINODE && p < NPROC
      modifies st, inodeLock
      ensures Contents() == ReleaseInode(old(Contents()), i, p)
      ensures r0 == if old(inodeLock[i]) == p then 0 else -1
    {
      if inodeLock[i] != p {
        return -1;
      }
      inodeLock[i] := -1;
      Wake(WaitFile, false, i);
      return 0;
    }

    method TryAcquireTerminal(p: nat) returns (got: Got)
      requires Valid() && p < NPROC
      modifies this`termBusy, this`termOwner, st
      ensures (Contents(), got) == AcquireTerminal(old(Contents()), p)
    {
      if termBusy {
        st[p] := WaitTerminal;
        return Asleep;
      }
      termBusy, termOwner := true, p;
      return Taken;
    }

    method DoReleaseTerminal(p: int) returns (r0: int)
      requires Valid()
      modifies this`termBusy, st
      ensures Contents() == ReleaseTerminal(old(Contents()), p)
      ensures r0 == if termOwner == p then 0 else -1
    {
      if termOwner != p {
        return -1;
      }
      termBusy := false;
      Wake(WaitTerminal, true, 0);
      return 0;
    }
  }
}
