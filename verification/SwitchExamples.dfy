/** Runs from the state in which boot leaves idle and init, up to one in which a process
    loses a register, and what a process that ended leaves to a new one. */
module SwitchExamples {
  import opened Words
  import opened ContextSwitch
  import Scheduler

  // ---- what boot leaves (os_startup.spl, boot.spl)

  function Area(p: nat): int {
    if p == 0 then 82 else 80
  }

  function StackPage(p: nat): int {
    if p == 0 then 81 else 76
  }

  function Table(p: nat): int {
    29696 + 20 * p
  }

  predicate InPage(a: int, page: int) {
    512 * page <= a < 512 * page + 512
  }

  function OwnerOf(a: int): int {
    if InPage(a, 82) || InPage(a, 81) || 29696 <= a < 29716 then 0
    else if InPage(a, 80) || InPage(a, 76) || 29716 <= a < 29736 then 1
    else -1
  }

  /** The page table entry of the first stack page. */
  predicate HasStack(mem: seq<Word>, p: nat)
    requires |mem| == NWORDS && p < 2
  {
    mem[Table(p) + 16] == Int(StackPage(p)) && mem[Table(p) + 17] == Str("0110")
  }

  ghost predicate Booted(s: Sys) {
    && Sized(s) && s.user && s.cur == 0 && s.cpu.sp == 4095 && s.cpu.ptbr == Table(0) && s.cpu.ptlr == 10
    && s.rows[0] == Row(82, 0, 4096, Table(0), 10) && s.rows[1] == Row(80, 0, 4096, Table(1), 10)
    && (forall p | 0 <= p < NPROC :: s.st[p] == if p == 0 then Scheduler.Running else if p == 1 then Scheduler.Created else Scheduler.NotRunnable)
    && HasStack(s.mem, 0) && HasStack(s.mem, 1) && forall a | 0 <= a < NWORDS :: s.owner[a] == OwnerOf(a)
  }

  const NoneKept: seq<Kept> := seq(NPROC, _ => Nothing)

  /** Every boot state is where the runs of PreemptedResumes may start. */
  lemma BootIsGood(s: Sys)
    requires Booted(s)
    ensures Good(s, NoneKept) && Stage(s, NoneKept)
  {
  }

  lemma SomeBoot() returns (s: Sys)
    ensures Booted(s)
  {
    var mem := seq(NWORDS, _ => Int(0))[29712 := Int(81)][29713 := Str("0110")][29732 := Int(76)][29733 := Str("0110")];
    var row := Row(0, 0, 0, 0, 0);
    s := Sys(Cpu(seq(NREG, _ => Int(0)), Int(0), 4095, 0, Table(0), 10), true, mem,
             seq(NPROC, p => if p == 0 then Row(82, 0, 4096, Table(0), 10) else if p == 1 then Row(80, 0, 4096, Table(1), 10) else row),
             seq(NPROC, p => if p == 0 then Scheduler.Running else if p == 1 then Scheduler.Created else Scheduler.NotRunnable),
             0, seq(NWORDS, a => OwnerOf(a)));
  }

  // ---- idle and init in turn

  /** The other of the two processes is new, or was preempted with its stack empty. */
  ghost predicate Waits(s: Sys, kept: seq<Kept>, p: nat)
    requires Sized(s) && |kept| == NPROC && p < 2
  {
    if s.st[p] == Scheduler.Created then s.rows[p] == Row(Area(p), 0, 4096, Table(p), 10) && kept[p] == Nothing
    else s.st[p] == Scheduler.Ready && kept[p].AtUser? && kept[p].c.sp == 4095 && kept[p].c.ptbr == Table(p) && kept[p].c.ptlr == 10
  }

  ghost predicate Stage(s: Sys, kept: seq<Kept>)
  {
    && Sized(s) && |kept| == NPROC && s.user && s.cur < 2 && s.cpu.sp == 4095 && s.cpu.ptbr == Table(s.cur) && s.cpu.ptlr == 10
    && s.rows[0].area == 82 && s.rows[1].area == 80 && Waits(s, kept, 1 - s.cur)
    && (forall p | 2 <= p < NPROC :: s.st[p] == Scheduler.NotRunnable)
    && HasStack(s.mem, 0) && HasStack(s.mem, 1) && forall a | 0 <= a < NWORDS :: s.owner[a] == OwnerOf(a)
  }

  lemma StackTop(s: Sys, p: nat)
    requires Sized(s) && p < 2 && HasStack(s.mem, p)
    ensures Translate(s.mem, Table(p), 10, 4096, true) == 512 * StackPage(p)
  {
  }

  lemma Owns(s: Sys, p: nat)
    requires Sized(s) && p < 2 && s.rows[p].area == Area(p) && forall a | 0 <= a < NWORDS :: s.owner[a] == OwnerOf(a)
    ensures Private(s, p, Table(p), 10)
  {
  }

  lemma TimerTakesOther(s: Sys, kept: seq<Kept>, junk: Regs)
    requires Stage(s, kept)
    ensures Enabled(s, kept, Timer(1 - s.cur, junk))
  {
    hide Translate, Private;
    StackTop(s, s.cur);
    Owns(s, s.cur);
    var st := Preempted(s).st;
    assert st[s.cur] == Scheduler.Ready && st[1 - s.cur] == s.st[1 - s.cur];
  }

  lemma LeavingKeeps(s: Sys, kept: seq<Kept>)
    requires Stage(s, kept) && UserTop(s) >= 0
    ensures var s1 := Preempted(s);
            && HasStack(s1.mem, 0) && HasStack(s1.mem, 1) && s1.owner == s.owner && s1.cur == s.cur
            && s1.rows[0].area == 82 && s1.rows[1].area == 80 && s1.rows[1 - s.cur] == s.rows[1 - s.cur]
            && s1.st == s.st[s.cur := Scheduler.Ready]
  {
    hide Translate, Waits;
    StackTop(s, s.cur);
  }

  /** A new process starts with the stack pointer and page table of its row. */
  lemma NewStarts(s: Sys, q: nat, junk: Regs)
    requires Sized(s) && q < NPROC && s.st[q] == Scheduler.Created
    ensures var c := Dispatched(s, q, junk).cpu; var row := s.rows[q];
            c.r == junk && c.sp == row.usp - 1 && c.ptbr == row.ptbr && c.ptlr == row.ptlr && Dispatched(s, q, junk).user
  {
    hide Translate;
  }

  /** One turn: the running process is preempted and the other one taken up. */
  lemma TurnAbout(s: Sys, kept: seq<Kept>, junk: Regs) returns (s2: Sys, kept2: seq<Kept>)
    requires Good(s, kept) && Stage(s, kept)
    ensures Enabled(s, kept, Timer(1 - s.cur, junk))
    ensures (s2, kept2) == Next(s, kept, Timer(1 - s.cur, junk)) && s2 == After(s, kept, Timer(1 - s.cur, junk)) && Good(s2, kept2) && Stage(s2, kept2)
    ensures s2.cur == 1 - s.cur && s2.user && s2.st[1 - s2.cur] == Scheduler.Ready
    ensures s.st[1 - s.cur] == Scheduler.Created ==> s2.cpu.r == junk
  {
    hide Translate, Private, Good, Intact, Preempted, Dispatched, HasStack, OwnerOf;
    TimerTakesOther(s, kept, junk);
    var e := Timer(1 - s.cur, junk);
    SwitchResumes(s, kept, e);
    s2, kept2 := After(s, kept, e), KeptAfter(s, kept, e);
    LeavingKeeps(s, kept);
    DispatchChanges(Preempted(s), 1 - s.cur, junk);
    if s.st[1 - s.cur] == Scheduler.Created {
      NewStarts(Preempted(s), 1 - s.cur, junk);
    }
  }

  lemma OneEvent(s: Sys, kept: seq<Kept>, e: Event)
    requires Good(s, kept) && Enabled(s, kept, e)
    ensures Possible(s, kept, [e]) && Outcome(s, kept, [e]) == Next(s, kept, e)
  {
    hide Enabled, Next;
    var (s1, kept1) := Next(s, kept, e);
    assert [e][1..] == [] && Possible(s1, kept1, []);
  }

  lemma TwoEvents(s: Sys, kept: seq<Kept>, e: Event, e2: Event)
    requires Good(s, kept) && Enabled(s, kept, e) && var (s1, kept1) := Next(s, kept, e); Enabled(s1, kept1, e2)
    ensures Possible(s, kept, [e, e2]) && var (s1, kept1) := Next(s, kept, e); Outcome(s, kept, [e, e2]) == Next(s1, kept1, e2)
  {
    hide Enabled, Next;
    var (s1, kept1) := Next(s, kept, e);
    assert [e, e2][1..] == [e2];
    OneEvent(s1, kept1, e2);
  }

  /** The process that runs is preempted, and resumes after one turn of the other. */
  lemma ThereAndBack(s: Sys, kept: seq<Kept>, junk: Regs) returns (s2: Sys, kept2: seq<Kept>)
    requires Good(s, kept) && Stage(s, kept) && s.cur == 1
    ensures Possible(s, kept, [Timer(0, junk), Timer(1, junk)])
    ensures Outcome(s, kept, [Timer(0, junk), Timer(1, junk)]) == (s2, kept2)
    ensures s2.user && s2.cur == 1 && s2.cpu.r[..16] == s.cpu.r[..16] && s2.cpu.r[16..] == HandlerValues(1)
  {
    hide Good, Enabled, Intact, Stage, Dispatched, Preempted;
    var s1, kept1 := TurnAbout(s, kept, junk);
    s2, kept2 := TurnAbout(s1, kept1, junk);
    TwoEvents(s, kept, Timer(0, junk), Timer(1, junk));
    PreemptedResumes(s, kept, Timer(0, junk), [], Timer(1, junk));
    PreemptedLosesScratch(s, kept, Timer(0, junk), [], Timer(1, junk));
  }

  /** From boot: init starts, is preempted with 5 in R16, and resumes without it. */
  lemma RegisterIsLost() returns (boot: Sys, junk: Regs)
    ensures Booted(boot) && Good(boot, NoneKept) && Possible(boot, NoneKept, [Timer(1, junk)])
    ensures var (s, kept) := Outcome(boot, NoneKept, [Timer(1, junk)]);
            && s.user && s.cur == 1 && s.cpu.r[16] == Int(5) && Possible(s, kept, [Timer(0, junk), Timer(1, junk)])
            && var (s2, _) := Outcome(s, kept, [Timer(0, junk), Timer(1, junk)]);
            s2.user && s2.cur == 1 && s2.cpu.r[..16] == s.cpu.r[..16] && s2.cpu.r[16] != Int(5)
  {
    hide Good, Enabled, Intact, Next, Stage, Possible, Outcome;
    boot := SomeBoot();
    BootIsGood(boot);
    junk := seq(NREG, i => if i == 16 then Int(5) else Int(0));
    assert boot.st[1] == Scheduler.Created;
    var s, kept := TurnAbout(boot, NoneKept, junk);
    OneEvent(boot, NoneKept, Timer(1, junk));
    var s2, kept2 := ThereAndBack(s, kept, junk);
    assert s2.cpu.r[16] == s2.cpu.r[16..][0] == HandlerValues(1)[0];
  }

  // ---- after a process has ended

  /** What a new process may get from p: its table row, its words and those of nobody,
      and the state of a process that can be taken up. */
  function Reused(s: Sys, p: nat, row: Row, mem: seq<Word>, owner: seq<int>): (r: Sys)
    requires Sized(s) && p < NPROC && |mem| == NWORDS && |owner| == NWORDS
    ensures Sized(r)
  {
    s.(rows := s.rows[p := row], st := s.st[p := Scheduler.Created], mem := mem, owner := owner)
  }

  /** Once a process has ended, whoever runs next may make a new one of its row and pages,
      in any way that leaves the other processes' words alone. */
  lemma EndedIsReused(s: Sys, kept: seq<Kept>, e: Event, row: Row, mem: seq<Word>, owner: seq<int>)
    requires Good(s, kept) && e.End? && Enabled(s, kept, e) && e.q != s.cur && |mem| == NWORDS && |owner| == NWORDS
    requires var s1 := After(s, kept, e);
             forall a | 0 <= a < NWORDS && s1.owner[a] !in {s.cur as int, e.q as int, -1} :: mem[a] == s1.mem[a] && owner[a] == s1.owner[a]
    ensures Possible(s, kept, [e, Work(Reused(After(s, kept, e), s.cur, row, mem, owner))])
  {
    hide Intact, Translate, Private, Yielded;
    StepGood(s, kept, e);
    LeavesCur(s, kept, e);
    TwoEvents(s, kept, e, Work(Reused(After(s, kept, e), s.cur, row, mem, owner)));
  }
}
