/** Preemption and dispatch: the timer handler and the scheduler saving a process in
    its kernel stack page and its process table row, and taking it up again
    (code/Interrupt/timer.spl, code/Modules/scheduler.spl, xsm/machine.c). */
module ContextSwitch {
  import opened Words
  import Scheduler

  const NPROC := Scheduler.NPROC
  const NREG := 20
  const NWORDS := 65536
  const PROCESS_TABLE := 28672

  /** The address after the scheduler call in the timer handler, where RESTORE is. */
  const TIMER_RETURN := 2112

  type Regs = r: seq<Word> | |r| == 20 witness seq(20, _ => Int(0))

  /** R0 to R19 and the registers that a switch has to carry over. */
  datatype Cpu = Cpu(r: Regs, bp: Word, sp: int, ip: int, ptbr: int, ptlr: int)

  /** Process table words 11 to 15: user area page, kernel stack offset, user stack
      pointer, page table base and length. */
  datatype Row = Row(area: int, kptr: int, usp: int, ptbr: int, ptlr: int)

  /** owner[a] is the process whose private word a is, -1 when it is nobody's. */
  datatype Sys = Sys(cpu: Cpu, user: bool, mem: seq<Word>, rows: seq<Row>, st: seq<Scheduler.Status>, cur: nat, owner: seq<int>)

  predicate Sized(s: Sys) {
    |s.mem| == NWORDS && |s.rows| == NPROC && |s.st| == NPROC && s.cur < NPROC && |s.owner| == NWORDS
  }

  // ---- the machine

  /** memory_translate_address: -1 stands for any fault. */
  function Translate(mem: seq<Word>, ptbr: int, ptlr: int, v: int, write: bool): (r: int)
    ensures -1 <= r < |mem|
  {
    if v < 0 || v / 512 >= ptlr then -1
    else
      var e := ptbr + 2 * (v / 512);
      if !(0 <= e && e + 1 < |mem|) then -1
      else
        var info := Text(mem[e + 1]);
        var a := 512 * ToInt(mem[e]) + v % 512;
        if |info| < 3 || info[1] == '0' || (write && info[2] == '0') || !(0 <= a < |mem|) then -1 else a
  }

  /** Page p of the address space is in memory frame f, with the rights asked for. */
  predicate Mapped(mem: seq<Word>, ptbr: int, ptlr: int, p: int, f: int, write: bool) {
    && 0 <= p < ptlr && 0 <= ptbr + 2 * p && ptbr + 2 * p + 1 < |mem| && ToInt(mem[ptbr + 2 * p]) == f
    && var info := Text(mem[ptbr + 2 * p + 1]); |info| >= 3 && info[1] != '0' && (write ==> info[2] != '0')
  }

  /** Translation takes the 512 addresses of page p to the 512 words of frame f, in order. */
  ghost predicate TakesPage(mem: seq<Word>, ptbr: int, ptlr: int, p: int, f: int, write: bool) {
    forall v | 512 * p <= v < 512 * p + 512 :: Translate(mem, ptbr, ptlr, v, write) == 512 * f + (v - 512 * p)
  }

  lemma TranslatesPages(mem: seq<Word>, ptbr: int, ptlr: int, p: int, f: nat, write: bool)
    requires 512 * f + 512 <= |mem|
    ensures TakesPage(mem, ptbr, ptlr, p, f, write) <==> Mapped(mem, ptbr, ptlr, p, f, write)
  {
    forall v | 512 * p <= v < 512 * p + 512 ensures v / 512 == p && v % 512 == v - 512 * p {
    }
    if TakesPage(mem, ptbr, ptlr, p, f, write) {
      assert Translate(mem, ptbr, ptlr, 512 * p, write) == 512 * f;
    }
  }

  /** Every other address faults: it lies outside the table, or its page is not in memory or
      not to be written. */
  lemma TranslatesNothingElse(mem: seq<Word>, ptbr: int, ptlr: int, v: int, write: bool)
    ensures Translate(mem, ptbr, ptlr, v, write) >= 0 ==>
              var p := v / 512; Mapped(mem, ptbr, ptlr, p, Translate(mem, ptbr, ptlr, v, write) / 512, write)
  {
  }

  /** Consecutive pushes: the words at a, a + 1, ... */
  function Stacked(mem: seq<Word>, a: nat, ws: seq<Word>): (r: seq<Word>)
    requires a + |ws| <= |mem|
    ensures |r| == |mem|
    ensures forall i | 0 <= i < |mem| :: r[i] == if a <= i < a + |ws| then ws[i - a] else mem[i]
  {
    mem[..a] + ws + mem[a + |ws|..]
  }

  // ---- leaving a process

  /** The interrupt pushes IP on the user stack, at this physical address. */
  function UserTop(s: Sys): int
    requires Sized(s)
  {
    Translate(s.mem, s.cpu.ptbr, s.cpu.ptlr, s.cpu.sp + 1, true)
  }

  predicate AreaFits(area: int) {
    1 <= area < 128
  }

  /** What the timer handler and the scheduler push from the first word of the kernel
      stack on: BACKUP's BP and R0 to R19, where R16 to R19 are the handler's own
      scratch values by then, the return address and BP again. */
  function TimerFrame(s: Sys): (ws: seq<Word>)
    requires Sized(s)
    ensures |ws| == 23
  {
    var a := s.rows[s.cur].area;
    [s.cpu.bp] + s.cpu.r[..16] + [Int(512 * a), Int(a), Int(16 * s.cur), Int(s.cur)] + [Int(TIMER_RETURN), s.cpu.bp]
  }

  /** timer.spl:4-11 and scheduler.spl:4-11. */
  function Preempted(s: Sys): (r: Sys)
    requires Sized(s) && UserTop(s) >= 0 && AreaFits(s.rows[s.cur].area)
    ensures Sized(r)
  {
    var row := s.rows[s.cur];
    s.(mem := Stacked(s.mem[UserTop(s) := Int(s.cpu.ip)], 512 * row.area + 1, TimerFrame(s)),
       rows := s.rows[s.cur := Row(row.area, 23, s.cpu.sp + 1, s.cpu.ptbr, s.cpu.ptlr)],
       st := s.st[s.cur := Scheduler.Ready])
  }

  /** The kernel stack pointer stays in the user area page over two more pushes. */
  predicate StackFits(s: Sys)
    requires Sized(s)
  {
    var a := s.rows[s.cur].area;
    AreaFits(a) && 512 * a <= s.cpu.sp + 1 && s.cpu.sp + 2 < 512 * a + 512
  }

  /** A call of the scheduler from kernel code that returns to address ret. */
  function Yielded(s: Sys, ret: int, st: Scheduler.Status): (r: Sys)
    requires Sized(s) && StackFits(s)
    ensures Sized(r)
  {
    var row := s.rows[s.cur];
    s.(mem := Stacked(s.mem, s.cpu.sp + 1, [Int(ret), s.cpu.bp]),
       rows := s.rows[s.cur := row.(kptr := TruncMod(s.cpu.sp + 2, 512), ptbr := s.cpu.ptbr, ptlr := s.cpu.ptlr)],
       st := s.st[s.cur := st])
  }

  // ---- taking a process up

  function WordAt(mem: seq<Word>, a: int): Word {
    if 0 <= a < |mem| then mem[a] else Int(0)
  }

  /** IRET in the address space of row: the user's stack pointer and instruction pointer. */
  function Returned(mem: seq<Word>, row: Row): (int, int) {
    (row.usp - 1, ToInt(WordAt(mem, Translate(mem, row.ptbr, row.ptlr, row.usp, false))))
  }

  /** RESTORE at stack pointer sp, R19 first, and then the scratch registers that the
      rest of the handler leaves. */
  function Restored(mem: seq<Word>, sp: int, q: nat): (r: Regs)
    requires q < NPROC
    ensures forall i | 0 <= i < 16 || i == 19 :: r[i] == WordAt(mem, sp - 19 + i)
    ensures r[16] == Int(PROCESS_TABLE + 16 * q + 9) && r[17] == Int(16 * q) && r[18] == Int(q)
  {
    var r := seq(NREG, i => WordAt(mem, sp - 19 + i));
    r[16 := Int(PROCESS_TABLE + 16 * q + 9)][17 := Int(16 * q)][18 := Int(q)]
  }

  /** scheduler.spl:23-41 and, for a preempted process, timer.spl:13-18. The registers
      that a dispatch does not set are left as they come, in junk. */
  function Dispatched(s: Sys, q: nat, junk: Regs): (r: Sys)
    requires Sized(s) && q < NPROC
    ensures Sized(r)
  {
    var row := s.rows[q];
    var s1 := s.(cur := q, st := s.st[q := Scheduler.Running]);
    if s.st[q] == Scheduler.Created then
      var (sp, ip) := Returned(s.mem, row);
      s1.(cpu := Cpu(junk, WordAt(s.mem, 512 * row.area), sp, ip, row.ptbr, row.ptlr), user := true)
    else
      var ksp := 512 * row.area + row.kptr;
      var ret := ToInt(WordAt(s.mem, ksp - 1));
      if ret == TIMER_RETURN then
        var (sp, ip) := Returned(s.mem, row);
        s1.(cpu := Cpu(Restored(s.mem, ksp - 2, q), WordAt(s.mem, ksp - 22), sp, ip, row.ptbr, row.ptlr), user := true)
      else s1.(cpu := Cpu(junk, WordAt(s.mem, ksp), ksp - 2, ret, row.ptbr, row.ptlr), user := false)
  }

  // ---- what is kept for a process

  datatype Kept = Nothing | AtUser(c: Cpu) | AtKernel(sp: int, bp: Word, ret: int, ptbr: int, ptlr: int)

  /** The words that process p alone may change: its user area page, its page table. */
  ghost predicate Private(s: Sys, p: nat, ptbr: int, ptlr: int)
    requires Sized(s) && p < NPROC
  {
    var a := s.rows[p].area;
    && AreaFits(a) && (forall i | 512 * a <= i < 512 * a + 512 :: s.owner[i] == p)
    && 0 <= ptbr && 0 <= ptlr && ptbr + 2 * ptlr <= NWORDS && forall i | ptbr <= i < ptbr + 2 * ptlr :: s.owner[i] == p
  }

  /** Memory and the process table hold what it takes to resume process p. */
  ghost predicate Intact(s: Sys, p: nat, kept: Kept)
    requires Sized(s) && p < NPROC
  {
    var row := s.rows[p];
    var base := 512 * row.area;
    match kept
    case Nothing => true
    case AtUser(c) =>
      && Private(s, p, c.ptbr, c.ptlr) && row == Row(row.area, 23, c.sp + 1, c.ptbr, c.ptlr)
      && s.mem[base + 1] == c.bp && (forall i | 0 <= i < 16 :: s.mem[base + 2 + i] == c.r[i])
      && s.mem[base + 21] == Int(p) && s.mem[base + 22] == Int(TIMER_RETURN) && s.mem[base + 23] == c.bp
      && var top := Translate(s.mem, c.ptbr, c.ptlr, c.sp + 1, false);
         top >= 0 && s.owner[top] == p && s.mem[top] == Int(c.ip)
    case AtKernel(sp, bp, ret, ptbr, ptlr) =>
      && Private(s, p, ptbr, ptlr) && row == row.(kptr := row.kptr, ptbr := ptbr, ptlr := ptlr)
      && base <= sp + 1 && sp + 2 < base + 512 && base + row.kptr == sp + 2 && ret != TIMER_RETURN
      && s.mem[sp + 1] == Int(ret) && s.mem[sp + 2] == bp
  }

  /** Resuming gives back what was kept. R16 to R19 are the compiler's scratch
      registers and are not kept. */
  ghost predicate Resumes(s: Sys, kept: Kept) {
    match kept
    case Nothing => true
    case AtUser(c) =>
      && s.user && s.cpu.r[..16] == c.r[..16] && s.cpu.bp == c.bp && s.cpu.sp == c.sp && s.cpu.ip == c.ip
      && s.cpu.ptbr == c.ptbr && s.cpu.ptlr == c.ptlr
    case AtKernel(sp, bp, ret, ptbr, ptlr) =>
      !s.user && s.cpu.sp == sp && s.cpu.bp == bp && s.cpu.ip == ret && s.cpu.ptbr == ptbr && s.cpu.ptlr == ptlr
  }

  lemma DispatchResumes(s: Sys, q: nat, kept: Kept, junk: Regs)
    requires Sized(s) && q < NPROC && s.st[q] == Scheduler.Ready && Intact(s, q, kept)
    ensures Resumes(Dispatched(s, q, junk), kept)
  {
    hide Translate, Private;
    if kept.AtUser? {
      assert Private(s, q, kept.c.ptbr, kept.c.ptlr);
      AreaInMemory(s, q, kept.c.ptbr, kept.c.ptlr);
      var base := 512 * s.rows[q].area;
      var s2 := Dispatched(s, q, junk);
      forall i | 0 <= i < 16 ensures s2.cpu.r[i] == kept.c.r[i] {
        assert s2.cpu.r[i] == WordAt(s.mem, base + 21 - 19 + i) == s.mem[base + 2 + i];
      }
      assert s2.cpu.r[..16] == kept.c.r[..16];
    } else if kept.AtKernel? {
      AreaInMemory(s, q, kept.ptbr, kept.ptlr);
    }
  }

  lemma AreaInMemory(s: Sys, p: nat, ptbr: int, ptlr: int)
    requires Sized(s) && p < NPROC && Private(s, p, ptbr, ptlr)
    ensures 512 <= 512 * s.rows[p].area <= NWORDS - 512
  {
  }

  // ---- runs

  /** Timer: the running process is preempted. Yield: kernel code of the running process
      calls the scheduler, in state st. End: it calls the scheduler as a process that has
      ended and given back its pages. Kill: it ends process p. Work: anything else that the
      running process, in user mode or in the kernel, does meanwhile. */
  datatype Event =
    | Work(s2: Sys)
    | Timer(q: nat, junk: Regs)
    | Yield(ret: int, st: Scheduler.Status, q: nat, junk: Regs)
    | End(ret: int, q: nat, junk: Regs)
    | Kill(p: nat)

  /** The event is a call of the scheduler. */
  predicate Switches(e: Event) {
    e.Timer? || e.Yield? || e.End?
  }

  /** Work of the running process leaves alone what is private to a process that is
      kept: its words, its process table row, its page frames. It may wake it. The row and
      the words of a process that has ended may go to a new one. */
  ghost predicate LeavesAlone(s: Sys, s2: Sys, kept: seq<Kept>)
    requires Sized(s) && Sized(s2) && |kept| == NPROC
  {
    && s2.cur == s.cur
    && forall p | 0 <= p < NPROC && p != s.cur ::
      && (kept[p] != Nothing ==>
            && s2.rows[p] == s.rows[p] && (s2.st[p] == s.st[p] || s2.st[p] == Scheduler.Ready)
            && forall a | 0 <= a < NWORDS && s.owner[a] == p :: s2.owner[a] == p && s2.mem[a] == s.mem[a])
      && (kept[p] == Nothing ==> s2.st[p] != Scheduler.Ready)
  }

  ghost function Enabled(s: Sys, kept: seq<Kept>, e: Event): (r: bool)
    requires Sized(s) && |kept| == NPROC
    ensures r && Switches(e) ==> e.q < NPROC && AreaFits(s.rows[s.cur].area)
    ensures r && e.Kill? ==> e.p < NPROC && e.p != s.cur
  {
    match e
    case Work(s2) => Sized(s2) && LeavesAlone(s, s2, kept)
    case Timer(q, _) =>
      && s.user && Private(s, s.cur, s.cpu.ptbr, s.cpu.ptlr) && UserTop(s) >= 0 && s.owner[UserTop(s)] == s.cur
      && !(512 * s.rows[s.cur].area <= UserTop(s) < 512 * s.rows[s.cur].area + 512)
      && !(s.cpu.ptbr <= UserTop(s) < s.cpu.ptbr + 2 * s.cpu.ptlr)
      && !Overlaps(s.cpu.ptbr, s.cpu.ptlr, s.rows[s.cur].area)
      && Scheduler.FirstFrom(Preempted(s).st, Scheduler.Succ(s.cur), q)
    case Yield(ret, st, q, _) =>
      && !s.user && Private(s, s.cur, s.cpu.ptbr, s.cpu.ptlr) && StackFits(s) && ret != TIMER_RETURN && st != Scheduler.Created
      && Scheduler.FirstFrom(Yielded(s, ret, st).st, Scheduler.Succ(s.cur), q)
    case End(ret, q, _) =>
      && !s.user && StackFits(s) && s.owner[s.cpu.sp + 1] in {-1, s.cur as int} && s.owner[s.cpu.sp + 2] in {-1, s.cur as int}
      && Scheduler.FirstFrom(Yielded(s, ret, Scheduler.NotRunnable).st, Scheduler.Succ(s.cur), q)
    case Kill(p) => !s.user && p < NPROC && p != s.cur
  }

  /** The page table lies in the user area page. */
  predicate Overlaps(ptbr: int, ptlr: int, area: int) {
    ptbr < 512 * area + 512 && 512 * area < ptbr + 2 * ptlr
  }

  function Left(s: Sys, e: Event): (r: Sys)
    requires Sized(s)
    requires e.Timer? ==> UserTop(s) >= 0 && AreaFits(s.rows[s.cur].area)
    requires e.Yield? || e.End? ==> StackFits(s)
    requires Switches(e)
    ensures Sized(r)
  {
    if e.Timer? then Preempted(s) else Yielded(s, e.ret, if e.Yield? then e.st else Scheduler.NotRunnable)
  }

  /** A process that ends is owed nothing. */
  function KeptOf(s: Sys, e: Event): Kept
    requires Switches(e)
  {
    if e.Timer? then AtUser(s.cpu)
    else if e.Yield? then AtKernel(s.cpu.sp, s.cpu.bp, e.ret, s.cpu.ptbr, s.cpu.ptlr)
    else Nothing
  }

  ghost function After(s: Sys, kept: seq<Kept>, e: Event): (r: Sys)
    requires Sized(s) && |kept| == NPROC && Enabled(s, kept, e)
    ensures Sized(r)
  {
    match e
    case Work(s2) => s2
    case Timer(q, junk) => Dispatched(Left(s, e), q, junk)
    case Yield(_, _, q, junk) => Dispatched(Left(s, e), q, junk)
    case End(_, q, junk) => Dispatched(Left(s, e), q, junk)
    case Kill(p) => s.(st := s.st[p := Scheduler.NotRunnable])
  }

  /** What each process is owed: set when it leaves, cleared when it is taken up or ends. */
  function KeptAfter(s: Sys, kept: seq<Kept>, e: Event): (r: seq<Kept>)
    requires Sized(s) && |kept| == NPROC && (Switches(e) ==> e.q < NPROC) && (e.Kill? ==> e.p < NPROC)
    ensures |r| == NPROC
  {
    if e.Work? then kept else if e.Kill? then kept[e.p := Nothing] else kept[s.cur := KeptOf(s, e)][e.q := Nothing]
  }

  ghost function Good(s: Sys, kept: seq<Kept>): (r: bool)
    ensures r ==> Sized(s) && |kept| == NPROC
  {
    && Sized(s) && |kept| == NPROC && kept[s.cur] == Nothing
    && forall p | 0 <= p < NPROC && p != s.cur ::
      Intact(s, p, kept[p]) && (s.st[p] == Scheduler.Ready ==> kept[p] != Nothing) && (s.st[p] == Scheduler.Created ==> kept[p] == Nothing)
  }

  /** What is private to a process and unchanged stays intact. */
  lemma StaysIntact(s: Sys, s2: Sys, p: nat, kept: Kept)
    requires Sized(s) && Sized(s2) && p < NPROC && Intact(s, p, kept) && s2.rows[p] == s.rows[p]
    requires forall a | 0 <= a < NWORDS && s.owner[a] == p :: s2.owner[a] == p && s2.mem[a] == s.mem[a]
    ensures Intact(s2, p, kept)
  {
    hide Translate;
    if kept.AtUser? {
      var c := kept.c;
      AreaInMemory(s, p, c.ptbr, c.ptlr);
      SameTranslation(s, s2, p, c.ptbr, c.ptlr, c.sp + 1, false);
    } else if kept.AtKernel? {
      AreaInMemory(s, p, kept.ptbr, kept.ptlr);
    }
  }

  lemma SameTranslation(s: Sys, s2: Sys, p: nat, ptbr: int, ptlr: int, v: int, write: bool)
    requires Sized(s) && Sized(s2) && 0 <= ptbr && 0 <= ptlr && ptbr + 2 * ptlr <= NWORDS
    requires forall i | ptbr <= i < ptbr + 2 * ptlr :: s2.mem[i] == s.mem[i]
    ensures Translate(s2.mem, ptbr, ptlr, v, write) == Translate(s.mem, ptbr, ptlr, v, write)
  {
  }

  /** Leaving keeps the process that leaves. */
  lemma TimerKeeps(s: Sys, kept: seq<Kept>, e: Event)
    requires Good(s, kept) && e.Timer? && Enabled(s, kept, e)
    ensures Intact(Preempted(s), s.cur, AtUser(s.cpu))
  {
    hide Translate;
    var s2 := Preempted(s);
    var a := s.rows[s.cur].area;
    AreaInMemory(s, s.cur, s.cpu.ptbr, s.cpu.ptlr);
    SameTranslation(s, s2, s.cur, s.cpu.ptbr, s.cpu.ptlr, s.cpu.sp + 1, false);
    ReadableToo(s.mem, s.cpu.ptbr, s.cpu.ptlr, s.cpu.sp + 1);
    var frame := TimerFrame(s);
    forall i | 0 <= i < 16 ensures s2.mem[512 * a + 2 + i] == s.cpu.r[i] {
      assert frame[1 + i] == s.cpu.r[i];
    }
    assert frame[20] == Int(s.cur) && frame[21] == Int(TIMER_RETURN) && frame[22] == s.cpu.bp;
  }

  lemma ReadableToo(mem: seq<Word>, ptbr: int, ptlr: int, v: int)
    requires Translate(mem, ptbr, ptlr, v, true) >= 0
    ensures Translate(mem, ptbr, ptlr, v, false) == Translate(mem, ptbr, ptlr, v, true)
  {
  }

  lemma YieldKeeps(s: Sys, kept: seq<Kept>, e: Event)
    requires Good(s, kept) && e.Yield? && Enabled(s, kept, e)
    ensures Intact(Yielded(s, e.ret, e.st), s.cur, KeptOf(s, e))
  {
    hide Translate, TruncMod;
    var a := s.rows[s.cur].area;
    AreaInMemory(s, s.cur, s.cpu.ptbr, s.cpu.ptlr);
    KernelStackComesBack(a, s.cpu.sp + 2);
  }

  /** 512 * page + SP % 512 gives SP back exactly while the stack is in its page. */
  lemma KernelStackComesBack(area: int, sp: int)
    requires area >= 0 && sp >= 0
    ensures 512 * area + TruncMod(sp, 512) == sp <==> 512 * area <= sp < 512 * area + 512
  {
  }

  /** A call of the scheduler fits exactly when its first push stays in the user area page
      and SP comes back from its offset. */
  lemma FitsIffComesBack(s: Sys)
    requires Sized(s) && AreaFits(s.rows[s.cur].area) && s.cpu.sp >= 0
    ensures var a := s.rows[s.cur].area;
            StackFits(s) <==> s.cpu.sp + 1 >= 512 * a && 512 * a + TruncMod(s.cpu.sp + 2, 512) == s.cpu.sp + 2
  {
    hide TruncMod;
    KernelStackComesBack(s.rows[s.cur].area, s.cpu.sp + 2);
  }

  /** The words that leaving writes belong to the process that leaves. */
  lemma LeavingIsPrivate(s: Sys, kept: seq<Kept>, e: Event, p: nat)
    requires Good(s, kept) && Switches(e) && Enabled(s, kept, e) && p < NPROC && p != s.cur
    ensures Left(s, e).rows[p] == s.rows[p] && Left(s, e).st[p] == s.st[p] && Left(s, e).owner == s.owner
    ensures forall a | 0 <= a < NWORDS && s.owner[a] == p :: Left(s, e).mem[a] == s.mem[a]
  {
    hide Translate, TruncMod, Intact;
    if !e.End? {
      AreaInMemory(s, s.cur, s.cpu.ptbr, s.cpu.ptlr);
    }
  }

  /** A switch keeps what every process is owed and resumes the process it takes up
      exactly where that process left. */
  lemma SwitchResumes(s: Sys, kept: seq<Kept>, e: Event)
    requires Good(s, kept) && Switches(e) && Enabled(s, kept, e)
    ensures e.q < NPROC && Good(After(s, kept, e), KeptAfter(s, kept, e))
    ensures var owed := kept[s.cur := KeptOf(s, e)][e.q];
            owed != Nothing ==> Resumes(After(s, kept, e), owed)
  {
    hide Translate, TruncMod, Intact, Private, Preempted, Yielded, Dispatched, Resumes;
    var s1 := Left(s, e);
    assert Intact(s1, s.cur, KeptOf(s, e)) by {
      if e.Timer? { TimerKeeps(s, kept, e); } else if e.Yield? { YieldKeeps(s, kept, e); } else { OwesNothing(s1, s.cur); }
    }
    assert e.q < NPROC && Scheduler.Runnable(s1.st[e.q]);
    var owed := kept[s.cur := KeptOf(s, e)];
    LeavingChanges(s, e);
    forall p | 0 <= p < NPROC ensures Intact(s1, p, owed[p]) {
      if p != s.cur {
        LeavingIsPrivate(s, kept, e, p);
        StaysIntact(s, s1, p, kept[p]);
      }
    }
    var s2 := After(s, kept, e);
    DispatchChanges(s1, e.q, e.junk);
    forall p | 0 <= p < NPROC && p != e.q ensures Intact(s2, p, owed[p]) {
      StaysIntact(s1, s2, p, owed[p]);
    }
    if owed[e.q] != Nothing {
      assert s1.st[e.q] == Scheduler.Ready by {
        if e.q != s.cur { LeavingIsPrivate(s, kept, e, e.q); }
      }
      DispatchResumes(s1, e.q, owed[e.q], e.junk);
    }
    forall p | 0 <= p < NPROC && p != e.q
      ensures (s2.st[p] == Scheduler.Ready ==> owed[p] != Nothing) && (s2.st[p] == Scheduler.Created ==> owed[p] == Nothing) {
      if p != s.cur { LeavingIsPrivate(s, kept, e, p); }
    }
  }

  lemma LeavingChanges(s: Sys, e: Event)
    requires Sized(s) && Switches(e) && (e.Timer? ==> UserTop(s) >= 0 && AreaFits(s.rows[s.cur].area)) && (e.Yield? || e.End? ==> StackFits(s))
    ensures Left(s, e).cur == s.cur
    ensures Left(s, e).st[s.cur] == if e.Timer? then Scheduler.Ready else if e.Yield? then e.st else Scheduler.NotRunnable
  {
    hide Translate, TruncMod;
  }

  lemma DispatchChanges(s: Sys, q: nat, junk: Regs)
    requires Sized(s) && q < NPROC
    ensures var s2 := Dispatched(s, q, junk);
            s2.mem == s.mem && s2.rows == s.rows && s2.owner == s.owner && s2.cur == q && s2.st == s.st[q := Scheduler.Running]
  {
    hide Translate;
  }

  lemma StepGood(s: Sys, kept: seq<Kept>, e: Event)
    requires Good(s, kept) && Enabled(s, kept, e)
    ensures (Switches(e) ==> e.q < NPROC) && (e.Kill? ==> e.p < NPROC) && Good(After(s, kept, e), KeptAfter(s, kept, e))
  {
    hide Intact;
    if e.Work? {
      forall p | 0 <= p < NPROC && p != s.cur ensures Intact(e.s2, p, kept[p]) {
        if kept[p] != Nothing {
          StaysIntact(s, e.s2, p, kept[p]);
        } else {
          OwesNothing(e.s2, p);
        }
      }
    } else if e.Kill? {
      var s2 := After(s, kept, e);
      forall p | 0 <= p < NPROC && p != s.cur ensures Intact(s2, p, KeptAfter(s, kept, e)[p]) {
        if p == e.p {
          OwesNothing(s2, p);
        } else {
          StaysIntact(s, s2, p, kept[p]);
        }
      }
    } else {
      SwitchResumes(s, kept, e);
    }
  }

  lemma OwesNothing(s: Sys, p: nat)
    requires Sized(s) && p < NPROC
    ensures Intact(s, p, Nothing)
  {
  }

  ghost function Next(s: Sys, kept: seq<Kept>, e: Event): (r: (Sys, seq<Kept>))
    requires Good(s, kept) && Enabled(s, kept, e)
    ensures Good(r.0, r.1)
  {
    StepGood(s, kept, e);
    (After(s, kept, e), KeptAfter(s, kept, e))
  }

  ghost predicate Possible(s: Sys, kept: seq<Kept>, es: seq<Event>)
    requires Good(s, kept)
    decreases |es|
  {
    es == [] || (Enabled(s, kept, es[0]) && var (s1, kept1) := Next(s, kept, es[0]); Possible(s1, kept1, es[1..]))
  }

  ghost function Outcome(s: Sys, kept: seq<Kept>, es: seq<Event>): (r: (Sys, seq<Kept>))
    requires Good(s, kept) && Possible(s, kept, es)
    ensures Good(r.0, r.1)
    decreases |es|
  {
    if es == [] then (s, kept)
    else
      var (s1, kept1) := Next(s, kept, es[0]);
      Outcome(s1, kept1, es[1..])
  }

  /** Process p is neither taken up nor ended during the events. */
  ghost predicate StaysAway(es: seq<Event>, p: nat) {
    forall i | 0 <= i < |es| :: (Switches(es[i]) ==> es[i].q != p) && es[i] != Kill(p)
  }

  lemma {:induction false} OwedMeanwhile(s: Sys, kept: seq<Kept>, es: seq<Event>, p: nat)
    requires Good(s, kept) && Possible(s, kept, es) && p < NPROC && p != s.cur && StaysAway(es, p)
    ensures Outcome(s, kept, es).1[p] == kept[p] && Outcome(s, kept, es).0.cur != p
    decreases |es|
  {
    hide Good, Enabled, Intact, KeptOf;
    if es != [] {
      StepGood(s, kept, es[0]);
      assert After(s, kept, es[0]).cur != p && KeptAfter(s, kept, es[0])[p] == kept[p] by { StepCur(s, kept, es[0], p); }
      OwedMeanwhile(After(s, kept, es[0]), KeptAfter(s, kept, es[0]), es[1..], p);
    }
  }

  lemma StepCur(s: Sys, kept: seq<Kept>, e: Event, p: nat)
    requires Good(s, kept) && Enabled(s, kept, e) && p < NPROC && p != s.cur && (Switches(e) ==> e.q != p) && e != Kill(p)
    ensures After(s, kept, e).cur != p && KeptAfter(s, kept, e)[p] == kept[p]
  {
    hide Intact, Translate;
    if Switches(e) {
      DispatchChanges(Left(s, e), e.q, e.junk);
    }
  }

  /** A process preempted by the timer, or that yielded in the kernel, resumes with the
      same registers after any run in which others work, are switched, end, are killed and
      leave their table rows and pages to new processes. */
  lemma PreemptedResumes(s: Sys, kept: seq<Kept>, leave: Event, es: seq<Event>, back: Event)
    requires Good(s, kept) && (leave.Timer? || leave.Yield?) && Enabled(s, kept, leave) && leave.q != s.cur
    requires var (s1, kept1) := Next(s, kept, leave);
             Possible(s1, kept1, es) && StaysAway(es, s.cur)
             && var (s2, kept2) := Outcome(s1, kept1, es);
             Enabled(s2, kept2, back) && Switches(back) && back.q == s.cur
    ensures var (s1, kept1) := Next(s, kept, leave);
            var (s2, kept2) := Outcome(s1, kept1, es);
            Resumes(After(s2, kept2, back), KeptOf(s, leave))
  {
    hide Good, Enabled, Intact, KeptOf, Resumes, Dispatched, Preempted, Yielded;
    var (s1, kept1) := Next(s, kept, leave);
    LeavesCur(s, kept, leave);
    OwedMeanwhile(s1, kept1, es, s.cur);
    var (s2, kept2) := Outcome(s1, kept1, es);
    SwitchResumes(s2, kept2, back);
    KeptIsSomething(s, leave);
  }

  lemma KeptIsSomething(s: Sys, e: Event)
    requires e.Timer? || e.Yield?
    ensures KeptOf(s, e) != Nothing
  {
  }

  lemma LeavesCur(s: Sys, kept: seq<Kept>, e: Event)
    requires Good(s, kept) && Enabled(s, kept, e) && Switches(e) && e.q < NPROC
    ensures After(s, kept, e).cur == e.q
  {
    hide Intact, Translate;
    DispatchChanges(Left(s, e), e.q, e.junk);
  }

  /** What the timer handler leaves in R16 to R19 when it resumes process p. */
  function HandlerValues(p: nat): seq<Word> {
    [Int(PROCESS_TABLE + 16 * p + 9), Int(16 * p), Int(p), Int(p)]
  }

  /** The handler computes in R16 to R19 before BACKUP and in R16 to R18 after RESTORE, so
      a preempted process gets these four back only if they held the handler's values. */
  lemma ScratchIsLost(s: Sys, q: nat, c: Cpu, junk: Regs)
    requires Sized(s) && q < NPROC && s.st[q] == Scheduler.Ready && Intact(s, q, AtUser(c))
    ensures Dispatched(s, q, junk).cpu.r[16..] == HandlerValues(q)
  {
    hide Translate;
    AreaInMemory(s, q, c.ptbr, c.ptlr);
    var r := Dispatched(s, q, junk).cpu.r;
    assert r[16] == Int(PROCESS_TABLE + 16 * q + 9) && r[17] == Int(16 * q) && r[18] == Int(q);
    assert r[19] == s.mem[512 * s.rows[q].area + 21] == Int(q);
    assert r[16..] == [r[16], r[17], r[18], r[19]];
  }

  lemma ScratchAfterSwitch(s: Sys, kept: seq<Kept>, e: Event)
    requires Good(s, kept) && Switches(e) && Enabled(s, kept, e) && e.q != s.cur && kept[e.q].AtUser?
    ensures After(s, kept, e).cpu.r[16..] == HandlerValues(e.q)
  {
    hide Intact, Translate, Private, Dispatched, Preempted, Yielded;
    LeavingIsPrivate(s, kept, e, e.q);
    StaysIntact(s, Left(s, e), e.q, kept[e.q]);
    assert Scheduler.Runnable(Left(s, e).st[e.q]);
    ScratchIsLost(Left(s, e), e.q, kept[e.q].c, e.junk);
  }

  /** After any run of others a preempted process has R16 to R19 back if and only if they
      held the handler's values when it was preempted. */
  lemma PreemptedLosesScratch(s: Sys, kept: seq<Kept>, leave: Event, es: seq<Event>, back: Event)
    requires Good(s, kept) && leave.Timer? && Enabled(s, kept, leave) && leave.q != s.cur
    requires var (s1, kept1) := Next(s, kept, leave);
             Possible(s1, kept1, es) && StaysAway(es, s.cur)
             && var (s2, kept2) := Outcome(s1, kept1, es);
             Enabled(s2, kept2, back) && Switches(back) && back.q == s.cur
    ensures var (s1, kept1) := Next(s, kept, leave);
            var (s2, kept2) := Outcome(s1, kept1, es);
            var r := After(s2, kept2, back).cpu.r;
            r[16..] == HandlerValues(s.cur) && (r[16..] == s.cpu.r[16..] <==> s.cpu.r[16..] == HandlerValues(s.cur))
  {
    hide Enabled, Intact, Dispatched, Preempted, Yielded;
    var (s1, kept1) := Next(s, kept, leave);
    LeavesCur(s, kept, leave);
    OwedMeanwhile(s1, kept1, es, s.cur);
    var (s2, kept2) := Outcome(s1, kept1, es);
    ScratchAfterSwitch(s2, kept2, back);
  }

  lemma StackedTwice(mem: seq<Word>, a: nat, v: seq<Word>, w: seq<Word>)
    requires a + |v| + |w| <= |mem|
    ensures Stacked(Stacked(mem, a, v), a + |v|, w) == Stacked(mem, a, v + w)
  {
  }

  lemma KernelStackOffset(area: int, k: int)
    requires area >= 0 && 0 <= k < 512
    ensures TruncMod(512 * area + k, 512) == k
  {
  }

  // ---- the code

  class Machine {
    const r: array<Word>
    const mem: array<Word>
    const rows: array<Row>
    const st: array<Scheduler.Status>
    var bp: Word
    var sp: int
    var ip: int
    var ptbr: int
    var ptlr: int
    var user: bool
    var cur: nat

    constructor (words: array<Word>, table: array<Row>, states: array<Scheduler.Status>)
      requires words.Length == NWORDS && table.Length == NPROC && states.Length == NPROC
      ensures Valid() && mem == words && rows == table && st == states && fresh(r)
    {
      r := new Word[NREG](_ => Int(0));
      mem, rows, st := words, table, states;
      bp, sp, ip, ptbr, ptlr, user, cur := Int(0), 0, 0, 0, 0, false, 0;
    }

    ghost predicate Valid()
      reads this
    {
      r.Length == NREG && mem.Length == NWORDS && rows.Length == NPROC && st.Length == NPROC && cur < NPROC && r != mem
    }

    ghost function Contents(owner: seq<int>): (s: Sys)
      requires Valid() && |owner| == NWORDS
      reads this, r, mem, rows, st
      ensures Sized(s)
    {
      Sys(Cpu(r[..], bp, sp, ip, ptbr, ptlr), user, mem[..], rows[..], st[..], cur, owner)
    }

    /** The page's auxiliary word has its three flags. */
    ghost predicate HasInfo(page: int)
      reads this, mem
      requires Valid()
    {
      0 <= ptbr + 2 * page + 1 < NWORDS && |Text(mem[ptbr + 2 * page + 1])| >= 3
    }

    /** memory_addr_page, memory_translate_page and memory_translate_address, with
        memory_get_word's test of the result. */
    method TranslateAddress(v: int, write: bool) returns (a: int)
      requires Valid() && 0 <= ptbr && 0 <= ptlr && ptbr + 2 * ptlr <= NWORDS
      requires forall p | 0 <= p < ptlr :: HasInfo(p)
      ensures a == Translate(mem[..], ptbr, ptlr, v, write)
    {
      var page := if v < 0 then -1 else v / 512;
      if page < 0 || page >= ptlr {
        return -1;
      }
      assert HasInfo(page);
      var entry := page * 2 + ptbr;
      var info := Text(mem[entry + 1]);
      if info[1] == '0' {
        return -1;
      }
      if write && info[2] == '0' {
        return -1;
      }
      a := ToInt(mem[entry]) * 512 + v % 512;
      if !(0 <= a < NWORDS) {
        a := -1;
      }
    }

    /** BACKUP: BP, then R0 to R19. */
    method Backup()
      requires Valid() && 0 <= sp + 1 && sp + 22 <= NWORDS
      modifies this`sp, mem
      ensures sp == old(sp) + 21 && mem[..] == Stacked(old(mem[..]), old(sp) + 1, [bp] + r[..])
    {
      sp := sp + 1;
      mem[sp] := bp;
      var i := 0;
      while i < NREG
        invariant 0 <= i <= NREG && sp == old(sp) + 1 + i
        invariant mem[..] == Stacked(old(mem[..]), old(sp) + 1, [bp] + r[..i])
      {
        sp := sp + 1;
        mem[sp] := r[i];
        i := i + 1;
      }
      assert r[..NREG] == r[..];
    }

    /** RESTORE: R19 down to R0, then BP. */
    method Restore()
      requires Valid() && 20 <= sp < NWORDS
      modifies this`sp, this`bp, r
      ensures sp == old(sp) - 21 && bp == mem[old(sp) - 20]
      ensures forall i | 0 <= i < NREG :: r[i] == mem[old(sp) - 19 + i]
    {
      var i := NREG;
      while i > 0
        invariant 0 <= i <= NREG && sp == old(sp) - NREG + i
        invariant forall k | i <= k < NREG :: r[k] == mem[old(sp) - 19 + k]
      {
        i := i - 1;
        r[i] := mem[sp];
        sp := sp - 1;
      }
      bp := mem[sp];
      sp := sp - 1;
    }

    method Push(w: Word)
      requires Valid() && 0 <= sp + 1 < NWORDS
      modifies this`sp, mem
      ensures sp == old(sp) + 1 && mem[..] == Stacked(old(mem[..]), sp, [w])
    {
      sp := sp + 1;
      mem[sp] := w;
    }

    /** What is pushed on the kernel stack of the page area. */
    method PushFrame(area: int)
      requires Valid() && AreaFits(area)
      modifies this`sp, r, mem
      ensures sp == 512 * area + 23
      ensures mem[..] == Stacked(old(mem[..]), 512 * area + 1,
                                 [bp] + old(r[..16]) + [Int(512 * area), Int(area), Int(16 * cur), Int(cur)] + [Int(TIMER_RETURN), bp])
    {
      sp := 512 * area;
      r[16], r[17], r[18], r[19] := Int(512 * area), Int(area), Int(16 * cur), Int(cur);
      ghost var m, regs := mem[..], [bp] + old(r[..16]) + [Int(512 * area), Int(area), Int(16 * cur), Int(cur)];
      assert [bp] + r[..] == regs;
      Backup();
      Push(Int(TIMER_RETURN));
      StackedTwice(m, 512 * area + 1, regs, [Int(TIMER_RETURN)]);
      Push(bp);
      StackedTwice(m, 512 * area + 1, regs + [Int(TIMER_RETURN)], [bp]);
      assert regs + [Int(TIMER_RETURN)] + [bp] == regs + [Int(TIMER_RETURN), bp];
    }

    /** The interrupt, the timer handler up to its call, and the scheduler's saving. */
    method Preempt(ghost owner: seq<int>)
      requires Valid() && |owner| == NWORDS && UserTop(Contents(owner)) >= 0 && AreaFits(rows[cur].area)
      modifies this`sp, r, mem, rows, st
      ensures var s := Preempted(old(Contents(owner)));
              mem[..] == s.mem && rows[..] == s.rows && st[..] == s.st
    {
      var row := rows[cur];
      sp := sp + 1;
      mem[Translate(mem[..], ptbr, ptlr, sp, true)] := Int(ip);
      rows[cur] := row.(usp := sp);
      PushFrame(row.area);
      st[cur] := Scheduler.Ready;
      rows[cur] := rows[cur].(kptr := TruncMod(sp, 512), ptbr := ptbr, ptlr := ptlr);
      KernelStackOffset(row.area, 23);
    }

    /** Pops BP and the return address at stack pointer top, then what BACKUP pushed. */
    method PopFrame(top: int, q: nat)
      requires Valid() && 22 <= top < NWORDS && q < NPROC
      modifies this`sp, this`bp, this`ip, r
      ensures r[..] == Restored(mem[..], top - 2, q) && bp == mem[top - 22]
    {
      sp := top;
      bp := mem[sp];
      sp := sp - 1;
      ip := ToInt(mem[sp]);
      sp := sp - 1;
      Restore();
      r[16], r[17], r[18] := Int(PROCESS_TABLE + 16 * q + 9), Int(16 * q), Int(q);
      assert r[..] == Restored(mem[..], top - 2, q);
    }

    /** The scheduler's loading and the rest of the timer handler, for a process that the
        timer preempted. */
    method Resume(q: nat, ghost owner: seq<int>)
      requires Valid() && |owner| == NWORDS && q < NPROC && st[q] == Scheduler.Ready && AreaFits(rows[q].area)
      requires rows[q].kptr == 23 && ToInt(mem[512 * rows[q].area + 22]) == TIMER_RETURN
      requires Translate(mem[..], rows[q].ptbr, rows[q].ptlr, rows[q].usp, false) >= 0
      modifies this, r, st
      ensures Valid() && Contents(owner) == Dispatched(old(Contents(owner)), q, old(r[..]))
    {
      var row := rows[q];
      ptbr, ptlr, cur := row.ptbr, row.ptlr, q;
      st[q] := Scheduler.Running;
      PopFrame(512 * row.area + row.kptr, q);
      sp := row.usp;
      user := true;
      ip := ToInt(mem[Translate(mem[..], ptbr, ptlr, sp, false)]);
      sp := sp - 1;
    }

    /** A call of the scheduler from kernel code, up to the search (scheduler.spl:1-11). */
    method Leave(ret: int, state: Scheduler.Status, ghost owner: seq<int>)
      requires Valid() && |owner| == NWORDS && StackFits(Contents(owner))
      modifies this`sp, mem, rows, st
      ensures var s := Yielded(old(Contents(owner)), ret, state);
              mem[..] == s.mem && rows[..] == s.rows && st[..] == s.st
    {
      ghost var m := mem[..];
      Push(Int(ret));
      Push(bp);
      StackedTwice(m, old(sp) + 1, [Int(ret)], [bp]);
      assert [Int(ret)] + [bp] == [Int(ret), bp];
      rows[cur] := rows[cur].(kptr := TruncMod(sp, 512), ptbr := ptbr, ptlr := ptlr);
      st[cur] := state;
    }

    /** The scheduler's loading for a process that yielded in the kernel: BP and the return
        address come off its stack (scheduler.spl:23-29, 39-41). */
    method ReturnTo(q: nat, ghost owner: seq<int>)
      requires Valid() && |owner| == NWORDS && q < NPROC && st[q] != Scheduler.Created
      requires 1 <= 512 * rows[q].area + rows[q].kptr < NWORDS && ToInt(mem[512 * rows[q].area + rows[q].kptr - 1]) != TIMER_RETURN
      modifies this, st
      ensures Valid() && Contents(owner) == Dispatched(old(Contents(owner)), q, old(r[..]))
    {
      var row := rows[q];
      sp := 512 * row.area + row.kptr;
      ptbr, ptlr, cur := row.ptbr, row.ptlr, q;
      st[q] := Scheduler.Running;
      bp := mem[sp];
      sp := sp - 1;
      ip := ToInt(mem[sp]);
      sp := sp - 1;
      user := false;
    }

    /** The scheduler's start of a created process: BP from the first word of its kernel
        stack, and IRET to the address on its user stack (scheduler.spl:31-37). */
    method StartNew(q: nat, ghost owner: seq<int>)
      requires Valid() && |owner| == NWORDS && q < NPROC && st[q] == Scheduler.Created && AreaFits(rows[q].area)
      requires Translate(mem[..], rows[q].ptbr, rows[q].ptlr, rows[q].usp, false) >= 0
      modifies this, st
      ensures Valid() && Contents(owner) == Dispatched(old(Contents(owner)), q, old(r[..]))
    {
      var row := rows[q];
      ptbr, ptlr, cur := row.ptbr, row.ptlr, q;
      sp := row.usp;
      bp := mem[512 * row.area];
      st[q] := Scheduler.Running;
      user := true;
      ip := ToInt(mem[Translate(mem[..], ptbr, ptlr, sp, false)]);
      sp := sp - 1;
    }
  }
}
