/** Round-robin dispatch in the transition system of the kernel: the search always
    ends, and no ready process is passed over for long. */
module IoFair {
  import opened Words
  import opened ResourceManager
  import opened IoKernel
  import opened IoSafety
  import opened IoLocks
  import Scheduler

  function StatusOf(s: PState): Scheduler.Status {
    match s
    case Ready => Scheduler.Ready
    case Created => Scheduler.Created
    case Running => Scheduler.Running
    case _ => Scheduler.NotRunnable
  }

  function Statuses(k: K): (r: seq<Scheduler.Status>)
    requires Shape(k)
    ensures |r| == NPROC
  {
    seq(NPROC, p requires 0 <= p < NPROC => StatusOf(k.t.st[p]))
  }

  /** Every dispatch takes the process that the scheduler's search finds. */
  ghost predicate RoundRobin(k: K, es: seq<Event>)
    requires Shape(k) && Possible(k, es)
    decreases |es|
  {
    es == [] || ((es[0].Dispatch? ==> Scheduler.FirstFrom(Statuses(k), Scheduler.Succ(k.cur), es[0].q)) && RoundRobin(After(k, es[0]), es[1..]))
  }

  function Dispatches(es: seq<Event>): nat {
    if es == [] then 0 else (if es[0].Dispatch? then 1 else 0) + Dispatches(es[1..])
  }

  /** Whenever the scheduler is called some process is runnable: the idle process is
      ready when it does not run. So the search ends. */
  lemma SearchAlwaysEnds(k: K)
    requires Inv(k) && k.t.st[k.cur] != Running
    ensures Scheduler.Some(Statuses(k))
  {
    hide LocOk, OpOk, FileOk, BlocksDistinct, InodeLockOk, SlotOk, DeviceOk;
    assert ProcOk(k, 0);
    assert Scheduler.Runnable(Statuses(k)[0]);
  }

  /** A ready process stays ready until it is dispatched. */
  lemma ReadyStays(k: K, e: Event, p: nat)
    requires Inv(k) && Enabled(k, e) && p < NPROC && k.t.st[p] == Ready && e != Dispatch(p)
    ensures After(k, e).t.st[p] == Ready
  {
    hide Inv, FirstFree, WithInode, Touch, Finish, Wanting, Grown, Transfer;
    if e.Turn? {
      TurnKeepsReady(k, e.at, p);
    }
  }

  ghost predicate KeepsReady(k: K, k2: K, p: nat)
    requires Shape(k) && Shape(k2) && p < NPROC
  {
    k2.t.st[p] == Ready
  }

  lemma TurnKeepsReady(k: K, at: nat, p: nat)
    requires Shape(k) && Enabled(k, Turn(at)) && p < NPROC && k.t.st[p] == Ready
    ensures KeepsReady(k, Turned(k, at), p)
  {
    hide FirstFree, WithInode, Touch, Finish, Wanting, Grown, Transfer, Woken, AcquireInode, AcquireBuffer, ReleaseTerminal;
    var l := k.loc[k.cur];
    match l {
      case WantInode(i, body) => InodeAsks(k, i, body, p);
      case WantBuffer(i, op) => BufferAsks(k, i, op, p);
      case HoldInode(i, body) => InodeKeepsReady(k, i, body, at, p);
      case Access(i, op) => TouchKeepsReady(k, i, op, p);
      case EndInode(i, op) => FinishKeepsReady(k, i, op, p);
      case WantStore(i, op, b) => TransferKeepsReady(k, true, BUFFER_BASE + Slot(op), b, Storing(i, op, b), p);
      case WantLoad(i, op) => TransferKeepsReady(k, false, BUFFER_BASE + Slot(op), op.block, Loading(i, op), p);
      case WantPage(page, block) => TransferKeepsReady(k, false, page, block, LoadingPage(page, block), p);
      case HoldTerminal => TerminalKeepsReady(k, p);
      case _ =>
    }
  }

  lemma InodeAsks(k: K, i: nat, body: Body, p: nat)
    requires Shape(k) && p < NPROC && p != k.cur && k.t.st[p] == Ready && i < NINODE
    ensures KeepsReady(k, Wanting(k, AcquireInode(k.t, i, k.cur), HoldInode(i, body)), p)
  {
  }

  lemma BufferAsks(k: K, i: nat, op: Op, p: nat)
    requires Shape(k) && p < NPROC && p != k.cur && k.t.st[p] == Ready
    ensures KeepsReady(k, Wanting(k, AcquireBuffer(k.t, Slot(op), k.cur), HoldBuffer(i, op)), p)
  {
  }

  lemma InodeKeepsReady(k: K, i: nat, body: Body, at: nat, p: nat)
    requires Shape(k) && i < NINODE && at <= MAX_FILE_SIZE && p < NPROC && k.t.st[p] == Ready
    ensures KeepsReady(k, WithInode(k, i, body, at), p)
  {
    hide FirstFree;
  }

  lemma TouchKeepsReady(k: K, i: nat, op: Op, p: nat)
    requires Shape(k) && p < NPROC && k.t.st[p] == Ready
    ensures KeepsReady(k, Touch(k, i, op), p)
  {
  }

  lemma FinishKeepsReady(k: K, i: nat, op: Op, p: nat)
    requires Shape(k) && i < NINODE && p < NPROC && k.t.st[p] == Ready
    ensures KeepsReady(k, Finish(k, i, op), p)
  {
  }

  lemma TransferKeepsReady(k: K, store: bool, page: nat, block: nat, l: Loc, p: nat)
    requires Shape(k) && p < NPROC && p != k.cur && k.t.st[p] == Ready
    ensures KeepsReady(k, Transfer(k, store, page, block, l), p)
  {
  }

  lemma TerminalKeepsReady(k: K, p: nat)
    requires Shape(k) && p < NPROC && k.t.st[p] == Ready
    ensures KeepsReady(k, At(k.(t := ReleaseTerminal(k.t, k.cur)), User), p)
  {
  }

  /** No starvation: in every run of the kernel a ready process is dispatched by one of
      the next 16 calls of the scheduler, by its falling cyclic distance. */
  lemma {:induction false} ReadyIsDispatched(k: K, es: seq<Event>, p: nat)
    requires Inv(k) && Possible(k, es) && RoundRobin(k, es) && p < NPROC && k.t.st[p] == Ready
    requires Dispatches(es) >= Scheduler.Distance(k.cur, p)
    ensures exists i :: 0 <= i < |es| && es[i] == Dispatch(p) && Dispatches(es[..i + 1]) <= Scheduler.Distance(k.cur, p) <= 16
    decreases |es|
  {
    hide Inv, Enabled, StatusOf, Scheduler.FirstFrom;
    var e := es[0];
    assert Scheduler.Runnable(Statuses(k)[p]) by { ReadyIsRunnable(k, p); }
    var k1 := After(k, e);
    if e == Dispatch(p) {
      assert es[..1] == [e] && es[..1][1..] == [];
      assert 1 <= Scheduler.Distance(k.cur, p) <= 16;
      assert Dispatches(es[..0 + 1]) == 1;
    } else {
      StepKeeps(k, e);
      ReadyStays(k, e, p);
      if e.Dispatch? {
        Scheduler.DistanceFalls(Statuses(k), k.cur, e.q, p);
        assert k1.cur == e.q;
      } else {
        OthersKeepCur(k, e);
      }
      ReadyIsDispatched(k1, es[1..], p);
      var i :| 0 <= i < |es[1..]| && es[1..][i] == Dispatch(p) && Dispatches(es[1..][..i + 1]) <= Scheduler.Distance(k1.cur, p) <= 16;
      assert es[..i + 2][1..] == es[1..][..i + 1];
      assert es[i + 1] == Dispatch(p) && Dispatches(es[..i + 1 + 1]) == (if e.Dispatch? then 1 else 0) + Dispatches(es[1..][..i + 1]);
    }
  }

  lemma ReadyIsRunnable(k: K, p: nat)
    requires Shape(k) && p < NPROC && k.t.st[p] == Ready
    ensures Scheduler.Runnable(Statuses(k)[p])
  {
  }

  lemma OthersKeepCur(k: K, e: Event)
    requires Shape(k) && Enabled(k, e) && !e.Dispatch?
    ensures After(k, e).cur == k.cur
  {
    hide Turned;
    if e.Turn? {
      TurnMovesOne(k, e.at);
    }
  }
}
