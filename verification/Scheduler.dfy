/** The round-robin search of code/Modules/scheduler.spl. */
module Scheduler {

  const NPROC := 16

  datatype Status = Ready | Created | Running | NotRunnable

  predicate Runnable(s: Status) {
    s == Ready || s == Created
  }

  ghost predicate Some(st: seq<Status>) {
    exists q :: 0 <= q < |st| && Runnable(st[q])
  }

  /** Steps from c to p going up and around: 0 when they are the same. */
  function Ahead(c: nat, p: nat): nat
    requires c < NPROC && p < NPROC
  {
    if p >= c then p - c else p + NPROC - c
  }

  function Succ(c: nat): (r: nat)
    requires c < NPROC
    ensures r < NPROC && r == if c == NPROC - 1 then 0 else c + 1
  {
    (c + 1) % NPROC
  }

  /** The process that the search reaches n steps after c, if it is the first runnable. */
  ghost predicate FirstFrom(st: seq<Status>, c: nat, q: nat)
    requires |st| == NPROC && c < NPROC
  {
    && q < NPROC && Runnable(st[q])
    && forall p | 0 <= p < NPROC && Runnable(st[p]) :: Ahead(c, q) <= Ahead(c, p)
  }

  /** The search loop. It ends because some process, possibly the caller itself, is
      runnable, at the first one in cyclic order after the caller. */
  method Search(st: array<Status>, cur: nat) returns (c: nat)
    requires st.Length == NPROC && cur < NPROC && Some(st[..])
    ensures FirstFrom(st[..], Succ(cur), c)
  {
    var start := Succ(cur);
    ghost var q :| 0 <= q < NPROC && Runnable(st[q]);
    c := start;
    while st[c] != Ready && st[c] != Created
      invariant c < NPROC && Ahead(start, c) <= Ahead(start, q)
      invariant forall p | 0 <= p < NPROC && Runnable(st[p]) :: Ahead(start, c) <= Ahead(start, p)
      decreases Ahead(start, q) - Ahead(start, c)
    {
      c := Succ(c);
    }
  }

  /** The process after n turns of the loop. */
  function Visited(start: nat, n: nat): nat {
    (start + n) % NPROC
  }

  /** Without a runnable process the loop never ends, and with one it does: the guard
      fails after some number of turns exactly when some process is runnable. */
  lemma EndsIffRunnable(st: seq<Status>, start: nat)
    requires |st| == NPROC && start < NPROC
    ensures (exists n: nat :: Runnable(st[Visited(start, n)])) <==> Some(st)
  {
    if q :| 0 <= q < NPROC && Runnable(st[q]) {
      assert Visited(start, Ahead(start, q)) == q;
    }
    if n: nat :| Runnable(st[Visited(start, n)]) {
      assert Some(st);
    }
  }

  /** How many calls of the scheduler process p is away when c runs: 1 to 16. */
  function Distance(c: nat, p: nat): nat
    requires c < NPROC && p < NPROC
  {
    1 + Ahead(Succ(c), p)
  }

  /** Every call brings a ready process strictly nearer, or dispatches it. */
  lemma DistanceFalls(st: seq<Status>, cur: nat, q: nat, p: nat)
    requires |st| == NPROC && cur < NPROC && p < NPROC && Runnable(st[p]) && FirstFrom(st, Succ(cur), q)
    ensures q == p || Distance(q, p) < Distance(cur, p)
    ensures 1 <= Distance(cur, p) <= NPROC
  {
  }

  /** Calls of the scheduler with the states found at each: cur[i + 1] is what call i
      dispatches. */
  ghost predicate Calls(st: seq<seq<Status>>, cur: seq<nat>) {
    && |cur| == |st| + 1
    && (forall i | 0 <= i < |cur| :: cur[i] < NPROC)
    && forall i | 0 <= i < |st| :: |st[i]| == NPROC && FirstFrom(st[i], Succ(cur[i]), cur[i + 1])
  }

  /** A process that is ready, and stays so until it is dispatched, is dispatched by one
      of the next 16 calls, whatever the other processes do in between. */
  lemma {:induction false} DispatchedWithin16(st: seq<seq<Status>>, cur: seq<nat>, p: nat)
    requires Calls(st, cur) && p < NPROC && |st| >= Distance(cur[0], p)
    requires forall i | 0 <= i < |st| && (forall j | 1 <= j <= i :: cur[j] != p) :: Runnable(st[i][p])
    ensures exists i :: 1 <= i <= Distance(cur[0], p) && cur[i] == p
    decreases |st|
  {
    assert Runnable(st[0][p]);
    DistanceFalls(st[0], cur[0], cur[1], p);
    if cur[1] != p {
      var st1, cur1 := st[1..], cur[1..];
      forall i | 0 <= i < |st1| && (forall j | 1 <= j <= i :: cur1[j] != p) ensures Runnable(st1[i][p]) {
        assert forall j | 1 <= j <= i + 1 :: cur[j] != p by {
          forall j | 1 <= j <= i + 1 ensures cur[j] != p {
            if j > 1 { assert cur[j] == cur1[j - 1]; }
          }
        }
      }
      DispatchedWithin16(st1, cur1, p);
      var i :| 1 <= i <= Distance(cur1[0], p) && cur1[i] == p;
      assert cur[i + 1] == p;
    }
  }
}
