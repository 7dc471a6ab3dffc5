/** How long a console request waits: the console interrupt comes after the timer's and
    the disk's (machine_post_execute, xsm/machine.c), so its delay depends on how the
    kernel spaces its disk requests. */
module ConsoleDelay {
  import opened Devices

  /** The devices just before completion number i of a run. */
  function Before(d: Dev, ss: seq<Step>, o: Options, i: nat): Dev
    requires i < Completions(ss)
    decreases |ss|
  {
    var d1 := After(d, ss[0], o).0;
    if !ss[0].Complete? then Before(d1, ss[1..], o, i) else if i == 0 then d else Before(d1, ss[1..], o, i - 1)
  }

  /** At completion i the timer does not fire and no disk request is pending. */
  predicate Quiet(d: Dev, ss: seq<Step>, o: Options, i: nat)
    requires i < Completions(ss)
  {
    Before(d, ss, o, i).timer != 1 && !Before(d, ss, o, i).diskBusy
  }

  /** The timer fires at completion i exactly when its counter stands at 1 before it. */
  lemma {:induction false} TimerAt(d: Dev, ss: seq<Step>, o: Options, i: nat)
    requires i < Completions(ss)
    ensures i < |Fires(d, ss, o)| && (Fires(d, ss, o)[i] == Timer <==> Before(d, ss, o, i).timer == 1)
    decreases |ss|
  {
    FiresLength(d, ss, o);
    var d1 := After(d, ss[0], o).0;
    if !ss[0].Complete? {
      TimerAt(d1, ss[1..], o, i);
    } else if i > 0 {
      TimerAt(d1, ss[1..], o, i - 1);
    }
  }

  /** A request is no completion. */
  lemma RequestsFireNothing(d: Dev, ss: seq<Step>, o: Options)
    requires ss != [] && !ss[0].Complete?
    ensures var d1 := After(d, ss[0], o).0; Fires(d, ss, o) == Fires(d1, ss[1..], o) && Completions(ss) == Completions(ss[1..])
  {
  }

  predicate FirstConsole(fs: seq<Fired>, i: nat) {
    i < |fs| && fs[i] == Console && forall j | 0 <= j < i :: fs[j] != Console
  }

  /** Completion i is the first at or after the w-th that is quiet. */
  predicate FirstQuiet(d: Dev, ss: seq<Step>, o: Options, w: int, i: nat)
    requires i < Completions(ss)
  {
    i + 1 >= w && Quiet(d, ss, o, i) && forall j: nat | j < i && j + 1 >= w :: !Quiet(d, ss, o, j)
  }

  /** In every run from a pending console request of wait w the console interrupt comes at
      completion i if and only if i is the first completion, at or after the w-th, where
      the timer does not fire and no disk request is pending. */
  lemma {:induction false} ConsoleFiresIff(d: Dev, ss: seq<Step>, o: Options, i: nat)
    requires d.consoleBusy && d.consoleWait >= 0 && i < Completions(ss)
    ensures FirstConsole(Fires(d, ss, o), i) <==> FirstQuiet(d, ss, o, d.consoleWait, i)
    decreases |ss|
  {
    FiresLength(d, ss, o);
    var (d1, f) := After(d, ss[0], o);
    var fs, rest := Fires(d, ss, o), Fires(d1, ss[1..], o);
    if !ss[0].Complete? {
      RequestsFireNothing(d, ss, o);
      ConsoleFiresIff(d1, ss[1..], o, i);
      assert forall j: nat | j <= i :: Quiet(d, ss, o, j) == Quiet(d1, ss[1..], o, j);
    } else {
      assert fs == [f] + rest;
      assert f == Console <==> d.consoleWait <= 1 && Quiet(d, ss, o, 0);
      if i > 0 && f != Console {
        ConsoleFiresIff(d1, ss[1..], o, i - 1);
        LaterConsole(d, ss, o, i);
      } else if i > 0 {
        var first: nat := 0;
        assert fs[first] == Console && Quiet(d, ss, o, first);
      }
    }
  }

  /** Both sides seen from the state after a first completion without the interrupt. */
  lemma LaterConsole(d: Dev, ss: seq<Step>, o: Options, i: nat)
    requires d.consoleWait >= 0 && 0 < i < Completions(ss) && ss[0].Complete?
    requires d.consoleWait <= 1 ==> !Quiet(d, ss, o, 0)
    requires var (d1, f) := Completed(d, o); f != Console
    ensures var (d1, f) := Completed(d, o);
            && (FirstConsole(Fires(d, ss, o), i) <==> FirstConsole(Fires(d1, ss[1..], o), i - 1))
            && (FirstQuiet(d, ss, o, d.consoleWait, i) <==> FirstQuiet(d1, ss[1..], o, Tick(d.consoleWait), i - 1))
  {
    hide Completed;
    var (d1, f) := Completed(d, o);
    var fs, rest := Fires(d, ss, o), Fires(d1, ss[1..], o);
    assert fs == [f] + rest;
    assert forall j: nat | j + 1 < Completions(ss) :: Quiet(d, ss, o, j + 1) == Quiet(d1, ss[1..], o, j);
    if FirstQuiet(d, ss, o, d.consoleWait, i) {
      forall j: nat | j < i - 1 && j + 1 >= Tick(d.consoleWait) ensures !Quiet(d1, ss[1..], o, j) {
        assert !Quiet(d, ss, o, j + 1);
      }
    }
    if FirstQuiet(d1, ss[1..], o, Tick(d.consoleWait), i - 1) {
      forall j: nat | j < i && j + 1 >= d.consoleWait ensures !Quiet(d, ss, o, j) {
        if j > 0 { assert !Quiet(d1, ss[1..], o, j - 1); }
      }
    }
    if FirstConsole(fs, i) {
      assert forall j | 0 <= j < i - 1 :: rest[j] == fs[j + 1];
    }
  }

  // ---- spacing disk requests

  /** How many completions the disk has been idle for. */
  function IdleFor(d: Dev, s: Step, d1: Dev, c: nat): nat {
    if d1.diskBusy || (s.Complete? && d.diskBusy) then 0 else if s.Complete? then c + 1 else c
  }

  /** The kernel leaves the disk idle for g completions before it hands it a request; it
      has been idle for c at the start. */
  predicate Gaps(d: Dev, ss: seq<Step>, o: Options, g: nat, c: nat)
    decreases |ss|
  {
    ss == [] ||
    (var d1 := After(d, ss[0], o).0;
     (ss[0].RequestDisk? && !d.diskBusy ==> c >= g) && Gaps(d1, ss[1..], o, g, IdleFor(d, ss[0], d1, c)))
  }

  predicate DiskOk(d: Dev, o: Options) {
    d.diskBusy ==> 0 <= d.diskWait <= o.disk
  }

  /** How many completions a console request whose wait has run out still needs at most. */
  function Rank(d: Dev, o: Options, c: nat): int {
    if d.diskBusy then (if d.diskWait >= 1 then d.diskWait + 3 else if d.timer == 1 then 4 else 3)
    else if c == 0 then (if d.timer == 1 then 2 else 1)
    else if d.timer == 1 then o.disk + 4
    else if c == 1 then 1
    else o.disk + 3
  }

  predicate HasConsole(fs: seq<Fired>, n: int) {
    exists i :: 0 <= i < n && i < |fs| && fs[i] == Console
  }

  lemma Earlier(fs: seq<Fired>, f: Fired, n: int)
    requires HasConsole(fs, n)
    ensures HasConsole([f] + fs, n + 1)
  {
    var i :| 0 <= i < n && i < |fs| && fs[i] == Console;
    assert ([f] + fs)[i + 1] == Console;
  }

  /** Every completion without the console interrupt brings the rank down. */
  lemma RankFalls(d: Dev, o: Options, c: nat)
    requires Allowed(o) && TimerOk(d, o) && DiskOk(d, o) && d.consoleBusy && 0 <= d.consoleWait <= 1
    ensures var (d1, f) := Completed(d, o);
            && Rank(d, o, c) >= 1 && TimerOk(d1, o) && DiskOk(d1, o)
            && (f == Console || (d1.consoleBusy && d1.consoleWait == 0 && Rank(d1, o, IdleFor(d, Complete, d1, c)) < Rank(d, o, c)))
  {
  }

  lemma {:induction false} ConsoleInTime(d: Dev, ss: seq<Step>, o: Options, g: nat, c: nat)
    requires Allowed(o) && TimerOk(d, o) && DiskOk(d, o) && d.consoleBusy && 0 <= d.consoleWait <= 1
    requires g >= 2 && Gaps(d, ss, o, g, c) && Completions(ss) >= Rank(d, o, c)
    ensures HasConsole(Fires(d, ss, o), Rank(d, o, c))
    decreases |ss|
  {
    FiresLength(d, ss, o);
    RankFalls(d, o, c);
    var (d1, f) := After(d, ss[0], o);
    var rest := Fires(d1, ss[1..], o);
    if !ss[0].Complete? {
      RequestsFireNothing(d, ss, o);
      ConsoleInTime(d1, ss[1..], o, g, IdleFor(d, ss[0], d1, c));
      Longer(rest, Rank(d1, o, IdleFor(d, ss[0], d1, c)), Rank(d, o, c));
    } else {
      assert Fires(d, ss, o) == [f] + rest;
      if f == Console {
        assert Fires(d, ss, o)[0] == Console;
      } else {
        ConsoleInTime(d1, ss[1..], o, g, IdleFor(d, ss[0], d1, c));
        Earlier(rest, f, Rank(d1, o, IdleFor(d, ss[0], d1, c)));
        Longer([f] + rest, Rank(d1, o, IdleFor(d, ss[0], d1, c)) + 1, Rank(d, o, c));
      }
    }
  }

  lemma Longer(fs: seq<Fired>, n: int, m: int)
    requires HasConsole(fs, n) && n <= m
    ensures HasConsole(fs, m)
  {
    var i :| 0 <= i < n && i < |fs| && fs[i] == Console;
    assert 0 <= i < m;
  }

  /** If the kernel leaves two completions between disk transfers, a console request of
      wait w is served within w + N + 4 completions, N being the disk's wait. */
  lemma {:induction false} ConsoleIsBounded(d: Dev, ss: seq<Step>, o: Options, g: nat, c: nat)
    requires Allowed(o) && TimerOk(d, o) && DiskOk(d, o) && d.consoleBusy && d.consoleWait >= 0
    requires g >= 2 && Gaps(d, ss, o, g, c) && Completions(ss) >= d.consoleWait + o.disk + 4
    ensures HasConsole(Fires(d, ss, o), d.consoleWait + o.disk + 4)
    decreases |ss|
  {
    FiresLength(d, ss, o);
    if d.consoleWait <= 1 {
      assert Rank(d, o, c) <= o.disk + 4;
      ConsoleInTime(d, ss, o, g, c);
      Longer(Fires(d, ss, o), Rank(d, o, c), d.consoleWait + o.disk + 4);
    } else {
      var (d1, f) := After(d, ss[0], o);
      ConsoleIsBounded(d1, ss[1..], o, g, IdleFor(d, ss[0], d1, c));
      if ss[0].Complete? {
        assert Fires(d, ss, o) == [f] + Fires(d1, ss[1..], o);
        Earlier(Fires(d1, ss[1..], o), f, d1.consoleWait + o.disk + 4);
      } else {
        RequestsFireNothing(d, ss, o);
      }
    }
  }

  // ---- one completion is not enough

  /** A timer that fires at every 21st completion and a disk that takes 20. */
  const Unlucky := Options(21, 20, 20)

  /** n transfers, each followed by one idle completion, at which the timer fires. */
  function Beats(op: Op, n: nat): seq<Step> {
    if n == 0 then [] else [RequestDisk(op)] + (Waiting(21) + Beats(op, n - 1))
  }

  /** The 20 completions of a transfer and the idle one; w are left of the former. */
  lemma {:induction false} OneBeat(d: Dev, op: Op, w: nat, rest: seq<Step>)
    requires DiskPending(d, op, w) && w >= 1 && d.timer == w + 1 && d.consoleBusy && d.consoleWait >= 0
    ensures var d2 := Run(d, Waiting(w + 1), Unlucky);
            var fs := Fires(d, Waiting(w + 1) + rest, Unlucky);
            && !d2.diskBusy && d2.timer == 21 && d2.consoleBusy && d2.consoleWait >= 0
            && |fs| == w + 1 + |Fires(d2, rest, Unlucky)|
            && (forall i | 0 <= i < w + 1 :: fs[i] != Console)
            && (forall i | w + 1 <= i < |fs| :: fs[i] == Fires(d2, rest, Unlucky)[i - (w + 1)])
            && Completions(Waiting(w + 1) + rest) == w + 1 + Completions(rest)
            && (Gaps(d2, rest, Unlucky, 1, 1) ==> Gaps(d, Waiting(w + 1) + rest, Unlucky, 1, 0))
    decreases w
  {
    var o := Unlucky;
    var (d1, f) := Completed(d, o);
    WaitingStep(w, rest);
    assert Fires(d, Waiting(w + 1) + rest, o) == [f] + Fires(d1, Waiting(w) + rest, o);
    assert Run(d, Waiting(w + 1), o) == Run(d1, Waiting(w), o);
    if w > 1 {
      OneBeat(d1, op, w - 1, rest);
    } else {
      var (d2, f2) := Completed(d1, o);
      WaitingStep(0, rest);
      assert Waiting(0) == [] && Waiting(0) + rest == rest;
      assert Fires(d1, Waiting(1) + rest, o) == [f2] + Fires(d2, rest, o);
      assert Run(d1, Waiting(1), o) == d2;
      assert f == Disk(op) && f2 == Timer;
      assert IdleFor(d, Complete, d1, 0) == 0 && IdleFor(d1, Complete, d2, 0) == 1;
    }
  }

  lemma WaitingStep(w: nat, rest: seq<Step>)
    ensures Waiting(w + 1)[0] == Complete && Waiting(w + 1)[1..] == Waiting(w)
    ensures (Waiting(w + 1) + rest)[0] == Complete && (Waiting(w + 1) + rest)[1..] == Waiting(w) + rest
    ensures Completions(Waiting(w + 1) + rest) == 1 + Completions(Waiting(w) + rest)
  {
    assert (Waiting(w + 1) + rest)[1..] == Waiting(w) + rest;
  }

  lemma {:induction false} BeatsStarve(d: Dev, op: Op, n: nat)
    requires !d.diskBusy && d.timer == 21 && d.consoleBusy && d.consoleWait >= 0
    ensures var ss := Beats(op, n);
            Completions(ss) == 21 * n && Gaps(d, ss, Unlucky, 1, 1) && forall i | 0 <= i < |Fires(d, ss, Unlucky)| :: Fires(d, ss, Unlucky)[i] != Console
    decreases n
  {
    if n > 0 {
      var d1 := AskDisk(d, op, Unlucky);
      var rest := Beats(op, n - 1);
      var ss := Waiting(21) + rest;
      assert Beats(op, n) == [RequestDisk(op)] + ss;
      assert Beats(op, n)[1..] == ss;
      OneBeat(d1, op, 20, rest);
      var d2 := Run(d1, Waiting(21), Unlucky);
      BeatsStarve(d2, op, n - 1);
      assert Fires(d, Beats(op, n), Unlucky) == Fires(d1, ss, Unlucky);
    }
  }

  lemma {:induction false} WiderGaps(d: Dev, ss: seq<Step>, o: Options, g: nat, h: nat, c: nat)
    requires Gaps(d, ss, o, g, c) && h <= g
    ensures Gaps(d, ss, o, h, c)
    decreases |ss|
  {
    hide After, IdleFor;
    if ss != [] {
      var d1 := After(d, ss[0], o).0;
      WiderGaps(d1, ss[1..], o, g, h, IdleFor(d, ss[0], d1, c));
    }
  }

  /** With gaps of g completions every pending console request is served within n. */
  ghost predicate Served(g: nat, n: nat) {
    forall d, ss, o, c: nat |
      Gaps(d, ss, o, g, c) && Allowed(o) && TimerOk(d, o) && DiskOk(d, o) && d.consoleBusy && 0 <= d.consoleWait <= o.console && Completions(ss) >= n ::
      HasConsole(Fires(d, ss, o), n)
  }

  /** A console request has a bounded delay if and only if the kernel leaves at least two
      completions between disk transfers: at one of them the timer may fire. */
  lemma GapIsExact(g: nat)
    ensures (exists n: nat :: Served(g, n)) <==> g >= 2
  {
    if g >= 2 {
      forall d, ss, o, c: nat |
        Gaps(d, ss, o, g, c) && Allowed(o) && TimerOk(d, o) && DiskOk(d, o) && d.consoleBusy && 0 <= d.consoleWait <= o.console && Completions(ss) >= 2054
        ensures HasConsole(Fires(d, ss, o), 2054)
      {
        ConsoleIsBounded(d, ss, o, g, c);
        Longer(Fires(d, ss, o), d.consoleWait + o.disk + 4, 2054);
      }
      assert Served(g, 2054);
    } else if n: nat :| Served(g, n) {
      NeverServed(g, n);
    }
  }

  lemma NeverServed(g: nat, n: nat)
    requires g <= 1
    ensures !Served(g, n)
  {
    var d := Dev(21, false, 0, Op(false, 0, 0), true, 20);
    var ss := Beats(Op(false, 0, 0), n);
    BeatsStarve(d, Op(false, 0, 0), n);
    WiderGaps(d, ss, Unlucky, 1, g, 1);
    assert !HasConsole(Fires(d, ss, Unlucky), n);
  }
}
