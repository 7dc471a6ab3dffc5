/** The timer, disk and console of the machine: counters that every instruction
    completed in user mode decrements, and one interrupt at most per completion
    (machine_post_execute, xsm/machine.c). */
module Devices {

  datatype Options = Options(timer: int, disk: int, console: int)

  /** What parse_options can leave (xsm/simulator.c:39-130): a timer that is off or fires
      every 2 to 1025 completions, waits of 20 to 1025. */
  predicate Allowed(o: Options) {
    (o.timer == 0 || 2 <= o.timer <= 1025) && 20 <= o.disk <= 1025 && 20 <= o.console <= 1025
  }

  datatype Op = Op(store: bool, page: int, block: int)

  /** A device is busy with an operation and a wait, or idle. The counters of an idle
      device are kept, as the source keeps them. */
  datatype Dev = Dev(timer: int, diskBusy: bool, diskWait: int, diskOp: Op, consoleBusy: bool, consoleWait: int)

  datatype Fired = Nothing | Timer | Disk(op: Op) | Console

  function Started(o: Options): Dev {
    Dev(o.timer, false, 0, Op(false, 0, 0), false, 0)
  }

  function Tick(n: int): int {
    if n > 0 then n - 1 else n
  }

  function Completed(d: Dev, o: Options): (Dev, Fired) {
    var d1 := d.(timer := if d.timer >= 0 then d.timer - 1 else d.timer, diskWait := Tick(d.diskWait), consoleWait := Tick(d.consoleWait));
    if d1.timer == 0 then (d1.(timer := o.timer), Timer)
    else if d1.diskBusy then
      if d1.diskWait == 0 then (d1.(diskBusy := false), Disk(d1.diskOp)) else (d1, Nothing)
    else if d1.consoleBusy && d1.consoleWait == 0 then (d1.(consoleBusy := false), Console)
    else (d1, Nothing)
  }

  function AskDisk(d: Dev, op: Op, o: Options): Dev {
    if d.diskBusy then d else d.(diskBusy := true, diskWait := o.disk, diskOp := op)
  }

  function AskConsole(d: Dev, o: Options): Dev {
    if d.consoleBusy then d else d.(consoleBusy := true, consoleWait := o.console)
  }

  /** A user-mode completion, or a request that the kernel makes between two of them. */
  datatype Step = Complete | RequestDisk(op: Op) | RequestConsole

  function After(d: Dev, s: Step, o: Options): (Dev, Fired) {
    match s
    case Complete => Completed(d, o)
    case RequestDisk(op) => (AskDisk(d, op, o), Nothing)
    case RequestConsole => (AskConsole(d, o), Nothing)
  }

  function Run(d: Dev, ss: seq<Step>, o: Options): Dev
    decreases |ss|
  {
    if ss == [] then d else Run(After(d, ss[0], o).0, ss[1..], o)
  }

  /** The interrupts of a run, one entry for each completion. */
  function Fires(d: Dev, ss: seq<Step>, o: Options): seq<Fired>
    decreases |ss|
  {
    if ss == [] then []
    else
      var (d1, f) := After(d, ss[0], o);
      (if ss[0].Complete? then [f] else []) + Fires(d1, ss[1..], o)
  }

  function Completions(ss: seq<Step>): nat {
    if ss == [] then 0 else (if ss[0].Complete? then 1 else 0) + Completions(ss[1..])
  }

  lemma {:induction false} FiresLength(d: Dev, ss: seq<Step>, o: Options)
    ensures |Fires(d, ss, o)| == Completions(ss)
    decreases |ss|
  {
    hide After;
    if ss != [] {
      FiresLength(After(d, ss[0], o).0, ss[1..], o);
    }
  }

  // ---- timer

  /** Completions until the timer fires next: 1 to the period. */
  predicate TimerOk(d: Dev, o: Options) {
    if o.timer == 0 then d.timer <= 0 else 1 <= d.timer <= o.timer
  }

  /** An enabled timer fires at exactly the completions whose number, counted from the
      last time it fired, is a multiple of the period; a disabled one never fires. The
      devices and the kernel's requests make no difference. */
  lemma {:induction false} TimerIsPeriodic(d: Dev, ss: seq<Step>, o: Options, i: nat)
    requires Allowed(o) && TimerOk(d, o) && i < Completions(ss)
    ensures i < |Fires(d, ss, o)|
    ensures Fires(d, ss, o)[i] == Timer <==> o.timer != 0 && (i + 1 + o.timer - d.timer) % o.timer == 0
    decreases |ss|
  {
    FiresLength(d, ss, o);
    var (d1, f) := After(d, ss[0], o);
    if ss[0].Complete? {
      if i == 0 {
        if o.timer != 0 { PeriodStart(d.timer, o.timer); }
      } else {
        TimerIsPeriodic(d1, ss[1..], o, i - 1);
        if d.timer == 1 && o.timer != 0 { PeriodShift(i, o.timer); }
      }
    } else {
      TimerIsPeriodic(d1, ss[1..], o, i);
    }
  }

  lemma PeriodStart(t: int, period: int)
    requires 1 <= t <= period
    ensures (1 + period - t) % period == 0 <==> t == 1
  {
    if t > 1 {
      Remainder(1 + period - t, period, 0, 1 + period - t);
    } else {
      Remainder(period, period, 1, 0);
    }
  }

  lemma PeriodShift(i: nat, period: int)
    requires period >= 1
    ensures (i + period) % period == i % period
  {
    Remainder(i + period, period, i / period + 1, i % period);
  }

  lemma Remainder(a: int, p: int, q: int, r: int)
    requires p >= 1 && a == q * p + r && 0 <= r < p
    ensures a % p == r
  {
    var d := q - a / p;
    assert d * p == a % p - r;
    Multiple(d, p);
  }

  lemma Multiple(d: int, p: int)
    requires p >= 1
    ensures (d >= 1 ==> d * p >= p) && (d <= -1 ==> d * p <= -p)
  {
    if d >= 1 {
      assert d * p == p + (d - 1) * p;
    } else if d <= -1 {
      assert d * p == -p + (d + 1) * p;
    }
  }

  // ---- disk

  /** A disk request with wait w left is in progress. */
  predicate DiskPending(d: Dev, op: Op, w: int) {
    d.diskBusy && d.diskOp == op && d.diskWait == w
  }

  /** The request ends at completion w, or at the one after when the timer fires at w.
      No earlier completion is the disk's, and requests made meanwhile are ignored. */
  lemma {:induction false} DiskEndsOnTime(d: Dev, ss: seq<Step>, o: Options, op: Op, w: nat)
    requires Allowed(o) && TimerOk(d, o) && DiskPending(d, op, w) && w >= 1 && Completions(ss) >= w + 1
    ensures var fs := Fires(d, ss, o);
      && |fs| >= w + 1
      && (forall i | 0 <= i < w - 1 :: !fs[i].Disk?)
      && (if fs[w - 1] == Timer then fs[w] == Disk(op) else fs[w - 1] == Disk(op) && !fs[w].Disk?)
    decreases |ss|
  {
    FiresLength(d, ss, o);
    var (d1, f) := After(d, ss[0], o);
    var rest := Fires(d1, ss[1..], o);
    if !ss[0].Complete? {
      DiskEndsOnTime(d1, ss[1..], o, op, w);
    } else if w > 1 {
      DiskEndsOnTime(d1, ss[1..], o, op, w - 1);
      assert Fires(d, ss, o) == [f] + rest;
    } else if f == Timer {
      DelayedOnce(d1, ss[1..], o, op);
      assert Fires(d, ss, o) == [f] + rest;
    } else {
      FiresLength(d1, ss[1..], o);
      NotAtOnce(d1, ss[1..], o);
      assert Fires(d, ss, o) == [f] + rest;
    }
  }

  /** After a disk interrupt the next completion has none, whatever is requested: a new
      request waits for more than one completion. */
  lemma {:induction false} NotAtOnce(d: Dev, ss: seq<Step>, o: Options)
    requires Allowed(o) && (d.diskBusy ==> d.diskWait >= 2) && Completions(ss) >= 1
    ensures var fs := Fires(d, ss, o); |fs| >= 1 && !fs[0].Disk?
    decreases |ss|
  {
    FiresLength(d, ss, o);
    if !ss[0].Complete? {
      NotAtOnce(After(d, ss[0], o).0, ss[1..], o);
    }
  }

  /** A wait that has run out ends at the next completion when the timer does not fire
      there; the timer does not fire twice in a row. */
  lemma {:induction false} DelayedOnce(d: Dev, ss: seq<Step>, o: Options, op: Op)
    requires Allowed(o) && DiskPending(d, op, 0) && d.timer != 1 && Completions(ss) >= 1
    ensures var fs := Fires(d, ss, o); |fs| >= 1 && fs[0] == Disk(op)
    decreases |ss|
  {
    FiresLength(d, ss, o);
    if !ss[0].Complete? {
      DelayedOnce(After(d, ss[0], o).0, ss[1..], o, op);
    }
  }

  /** The whole of a request made to an idle disk: exactly one disk interrupt among the
      first N + 1 completions, for that request, at the N-th or the one after it. */
  lemma RequestCompletesOnce(d: Dev, ss: seq<Step>, o: Options, op: Op)
    requires Allowed(o) && TimerOk(d, o) && !d.diskBusy && Completions(ss) >= o.disk + 1
    ensures var fs := Fires(AskDisk(d, op, o), ss, o); var n := o.disk;
      && |fs| >= n + 1
      && (forall i | 0 <= i < n - 1 :: !fs[i].Disk?)
      && ((fs[n - 1] == Disk(op) && !fs[n].Disk?) || (fs[n - 1] == Timer && fs[n] == Disk(op)))
  {
    DiskEndsOnTime(AskDisk(d, op, o), ss, o, op, o.disk);
  }

  /** With the disk idle no disk interrupt comes out of the blue. */
  lemma {:induction false} IdleDiskIsQuiet(d: Dev, ss: seq<Step>, o: Options, i: nat)
    requires !d.diskBusy && forall k | 0 <= k < |ss| :: !ss[k].RequestDisk?
    requires i < |Fires(d, ss, o)|
    ensures !Fires(d, ss, o)[i].Disk?
    decreases |ss|
  {
    var d1 := After(d, ss[0], o).0;
    assert forall k | 0 <= k < |ss[1..]| :: ss[1..][k] == ss[k + 1];
    if !ss[0].Complete? {
      IdleDiskIsQuiet(d1, ss[1..], o, i);
    } else if i > 0 {
      IdleDiskIsQuiet(d1, ss[1..], o, i - 1);
    }
  }

  // ---- console

  /** n disk transfers in a row, each requested before the completion that follows the
      interrupt of the one before. */
  function BackToBack(op: Op, n: nat, w: nat): seq<Step> {
    if n == 0 then [] else [RequestDisk(op)] + Waiting(w) + BackToBack(op, n - 1, w)
  }

  function Waiting(w: nat): (r: seq<Step>)
    ensures |r| == w && forall i | 0 <= i < w :: r[i] == Complete
  {
    seq(w, _ => Complete)
  }

  /** The console has no bound: with the timer off, disk transfers that follow each other
      without a pause keep its interrupt away however long they go on. A kernel gets there
      by requesting the next transfer inside the disk's interrupt; the handler of
      code/Interrupt/disk.spl does not, and its IRET is a completion with the disk idle. The
      schedule with that one completion is ConsoleDelay.BeatsStarve. */
  lemma {:induction false} ConsoleStarves(d: Dev, o: Options, op: Op, n: nat, i: nat)
    requires Allowed(o) && o.timer == 0 && d.timer < 0 && !d.diskBusy && i < |Fires(d, BackToBack(op, n, o.disk), o)|
    ensures Fires(d, BackToBack(op, n, o.disk), o)[i] != Console
    decreases n
  {
    if n > 0 {
      var d1 := AskDisk(d, op, o);
      var rest := BackToBack(op, n - 1, o.disk);
      var ss := Waiting(o.disk) + rest;
      assert BackToBack(op, n, o.disk) == [RequestDisk(op)] + ss;
      assert ([RequestDisk(op)] + ss)[1..] == ss;
      assert Fires(d, BackToBack(op, n, o.disk), o) == Fires(d1, ss, o);
      OneTransfer(d1, o, op, o.disk, rest);
      if i >= o.disk {
        var d2 := Run(d1, Waiting(o.disk), o);
        ConsoleStarves(d2, o, op, n - 1, i - o.disk);
      }
    }
  }

  /** The completions of one transfer, and then the rest of the run. */
  lemma {:induction false} OneTransfer(d: Dev, o: Options, op: Op, w: nat, rest: seq<Step>)
    requires Allowed(o) && o.timer == 0 && d.timer < 0 && DiskPending(d, op, w) && w >= 1
    ensures var d2 := Run(d, Waiting(w), o);
            var fs := Fires(d, Waiting(w) + rest, o);
         && !d2.diskBusy && d2.timer < 0 && |fs| == w + |Fires(d2, rest, o)| && (forall i | 0 <= i < w :: fs[i] != Console)
         && forall i | w <= i < |fs| :: fs[i] == Fires(d2, rest, o)[i - w]
    decreases w
  {
    var (d1, f) := Completed(d, o);
    assert Waiting(w)[0] == Complete && Waiting(w)[1..] == Waiting(w - 1);
    assert (Waiting(w) + rest)[0] == Complete && (Waiting(w) + rest)[1..] == Waiting(w - 1) + rest;
    assert Fires(d, Waiting(w) + rest, o) == [f] + Fires(d1, Waiting(w - 1) + rest, o);
    if w > 1 {
      OneTransfer(d1, o, op, w - 1, rest);
    } else {
      assert Waiting(0) + rest == rest && Waiting(0) == [];
    }
  }

  // ---- the code

  /** The counters of the machine's cpu structure and the function that steps them. */
  class Clock {
    var timer: int
    var diskBusy: bool
    var diskWait: int
    var diskOp: Op
    var consoleBusy: bool
    var consoleWait: int
    const o: Options

    constructor (options: Options)
      ensures Contents() == Started(options) && o == options
    {
      o := options;
      timer, diskBusy, diskWait, diskOp, consoleBusy, consoleWait := options.timer, false, 0, Op(false, 0, 0), false, 0;
    }

    ghost function Contents(): Dev
      reads this
    {
      Dev(timer, diskBusy, diskWait, diskOp, consoleBusy, consoleWait)
    }

    method PostExecute() returns (f: Fired)
      modifies this
      ensures (Contents(), f) == Completed(old(Contents()), o)
    {
      f := Nothing;
      if timer >= 0 {
        timer := timer - 1;
      }
      if diskWait > 0 {
        diskWait := diskWait - 1;
      }
      if consoleWait > 0 {
        consoleWait := consoleWait - 1;
      }
      if timer == 0 {
        f := Timer;
        timer := o.timer;
      } else if diskBusy {
        if diskWait == 0 {
          f := Disk(diskOp);
          diskBusy := false;
        }
      } else if consoleBusy {
        if consoleWait == 0 {
          f := Console;
          consoleBusy := false;
        }
      }
    }

    method ScheduleDisk(op: Op)
      modifies this
      ensures Contents() == AskDisk(old(Contents()), op, o)
    {
      if diskBusy {
        return;
      }
      diskBusy, diskWait, diskOp := true, o.disk, op;
    }

    method ScheduleIn() returns (ok: bool)
      modifies this
      ensures Contents() == AskConsole(old(Contents()), o) && ok == !old(consoleBusy)
    {
      if consoleBusy {
        return false;
      }
      consoleBusy, consoleWait := true, o.console;
      return true;
    }
  }
}
