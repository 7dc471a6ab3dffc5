# The eXpOS stack in Dafny

A model, with proofs, of the parts of this repository that have to agree with each other for the
system to work: the SPL compiler, the label resolver and the XSM machine; the eXpOS kernel with its
locks, buffer cache, memory pages and scheduler; the machine's device timing; the ExpL code
generator; and the two allocators, the library heap and the XFS disk tables.

`dafny verify dfyconfig.toml` checks everything. Each module opens with a line on what it models.

## How the parts are modelled

**Compilers and machine.** `Words` and `Xsm` give the machine's words (text that may read as a
number), its registers, flat memory and a step function over code kept apart from data; `Xsm.Cpu` is
the simulator that updates registers and memory in place and is proved to take exactly that step.
`XsmMeaning` says what the instructions do in terms of numbers, texts and memory alone, and `XsmText` that the
machine's lexer reads back the instructions that the compilers print.
`Spl` is the syntax tree of SPL with a big-step meaning; `SplCode` has the emitted lines as functions
and `SplCode.CodeGen` as the code generator with its register count, label counter and stack of loops.
`Assembly` resolves labels on instruction lists, `Labels` does it on text in two passes as
`xfs-interface/labels.c` does, and `AssemblyText` proves that both give the same file. `SplExpr`,
`SplStmt` and `SplProgram` lead to compiler correctness. `Expl`, `ExplCode`, `ExplBlocks`, `ExplSteps`,
`ExplRuns` and `ExplProgram` do the same for ExpL, down to calls and stack frames, and `ExplFrames` proves
the frame convention by itself, whatever words the code reads.

**Kernel.** The machine takes interrupts in user mode only, so kernel code is atomic between calls of
the scheduler. `IoKernel` cuts the file, disk and terminal code at those calls into locations and turns;
an event is a system call, one turn, a preemption, a dispatch, a device interrupt, a file creation, a
fork or an exit. `IoSafety` proves that every event keeps the invariant; `IoLocks` draws the conclusions
about locks and waiting, `IoCache` about cache and disk, `IoFiles` about the words of files under
deletion and re-use of blocks; `IoFair` adds round-robin dispatch, and `IoExamples` has runs from boot
that show where a promise ends. `ResourceManager.Manager` and `FileSystem.Kernel` are the imperative
code over the tables; each of their segments is proved equal to its turn. `MemoryKernel`, `MemorySafety`
and `MemoryTables` do the same for page reference counts over fork, exec, exit and wait; `MemoryCode`
adds what the code pages hold. `Scheduler` and `ContextSwitch` treat dispatch and the save and restore
of a process while others run, end and make room for new ones, with runs from boot in `SwitchExamples`.
`Devices` has the counters that step at every user-mode completion, `SimulatorOptions` the command line
that sets their periods, and `ConsoleDelay` the delay of a console request over whole runs.

**Allocators.** `Heap` is the eight-word free-list heap of `expl/library.lib`; `Xfs` is the disk free
list, the inode table and the root file of `xfs-interface`.

## Where the code falls short of the property

Some promises hold only under a condition. Each is proved with its exact condition, and with an input
that fails it:

- `!` in SPL is `1 - x`, so it is right exactly when its operand has value at most 1; `!(a || b)` counts
  as true when both sides hold (`Spl.NegationTruth`, `Spl.NegatedOrFails`).
- The resolver reads lines in pieces and counts an instruction once per piece. In the first pass a label
  is right if and only if every instruction before it has at most 32 characters, in the second pass each
  instruction gives one line if and only if all have at most 99, and a whole file is resolved right if and
  only if this holds for the labels jumped to and all of these are defined (`Labels.LabelPlacedIff`,
  `Labels.OneLineEachIff`, `Labels.ResolutionExact`, `Labels.LongLineMisplaces`).
- Deleting a file clears the dirty bit of its cached blocks but leaves their tags. Eviction keeps the
  content of every block that an inode owns, but a block without an owner can lose what its buffer holds
  (`IoExamples.EvictionKeepsOwned`, `IoExamples.FreedBlockIsLost`). A block given to another file meanwhile
  differs from the disk until its first word is written: buffer and disk agree for block j of a file with
  512 * j < size, and need not at 512 * j = size (`IoFiles.LiveIsFresh`, `IoExamples.GivenBlockIsStale`).
- A write that finds the file or the disk full returns with the inode locked for good
  (`IoLocks.WriteKeepsIffRoom`, `IoLocks.LeakIsForever`, `IoExamples.FullFileLeaks`).
- Exec shares the page of a process whose disk map names the block it wants. Boot writes the disk map of
  init only, so the idle process has in its own whatever memory held; exec loads the right program in every
  run if and only if idle's map names no block of a file for its two code pages
  (`MemoryCode.ExecRunsIffMapClear`, `MemoryCode.IdleIsShared`).
- The timer handler computes addresses in R16 to R19 around BACKUP and RESTORE, so these registers do not
  survive a preemption unless they held the handler's own values, although ExpL code may use R16
  (`ContextSwitch.PreemptedLosesScratch`, `SwitchExamples.RegisterIsLost`).
- The console interrupt comes at the first completion, once the wait has run out, where the timer does not
  fire and no disk request is pending. Its delay is bounded for all option sets if and only if the kernel
  leaves the disk idle for at least two completions before each disk request
  (`ConsoleDelay.ConsoleFiresIff`, `ConsoleDelay.GapIsExact`, `Devices.ConsoleStarves`).
- Freeing a heap block that is not allocated always breaks the list (`Heap.FreeKeepsIffAllocated`).
- A file whose name reads as the number -1 marks its own entry as free (`Xfs.LoadKeepsIffNamed`; "-1.dat"
  in `Xfs.MinusOneIsLost`).

## Model

| member | source | states |
|---|---|---|
| Words.FlipExchanges | spl/spl.c:226-476 | `reg < e` emitted as `e > reg` gives the same word, for numbers and for strings, for all six comparisons |
| Words.TruncModRange | xsm/machine.c:675-698 | quotient and remainder of truncating division recompose to the dividend; the remainder is smaller than the divisor and has the dividend's sign |
| Words.IntTextRoundTrip | xsm/word.c:29-48 | an integer stored as text reads back as the same integer, and counts as numeric |
| XsmMeaning.AddSubMul | xsm/machine.c:675-687 | ADD, SUB and MUL leave the sum, the difference and the product of what their operands read as, and nothing else |
| XsmMeaning.DivAndMod | xsm/machine.c:689-698 | DIV leaves the q and MOD the m with l = r * q + m, m smaller than r and zero or of the sign of l (section 6.5.5 of ISO C11) |
| XsmMeaning.TruncatedOnce | xsm/machine.c:689-698 | there is only one such pair, so no other division will do |
| XsmMeaning.ArithFaults | xsm/machine.c:649-704 | arithmetic faults if and only if an operand is IP or the divisor of DIV or MOD is zero, and changes nothing then |
| XsmMeaning.ComparesNumbers | xsm/machine.c:789-820 | of two words without a string, each of the six comparisons leaves 1 exactly when the built-in operator of its name holds, 0 otherwise |
| XsmMeaning.ComparesTexts | xsm/machine.c:757-788 | with a string on either side EQ is equality of the texts, and LT holds exactly when the left one is a proper prefix or smaller at the first difference; the other four follow |
| XsmMeaning.StrcmpIsOrder | xsm/machine.c:757-788 | of two different texts exactly one comes first |
| XsmMeaning.AtoiReads | xsm/word.c:28-33 | text counts as the number that its sign and the places of its first digits say, whatever follows |
| XsmMeaning.JumpsOnZero | xsm/machine.c:827-861 | JZ jumps exactly on a word that is no string and reads as zero, JNZ exactly on the others |
| XsmMeaning.StoreThenLoad | xsm/machine.c:592-647 | a word stored at an address is loaded back from it, and every other word of memory stays |
| XsmMeaning.ThroughRegister | xsm/machine.c:592-647 | an address in a register is the number its word reads as |
| XsmMeaning.PushThenPop | xsm/machine.c:890-925 | POP into any register gives the pushed word and SP as it was |
| XsmMeaning.CallThenRet | xsm/machine.c:943-1000 | RET after CALL goes on behind the call with SP as it was |
| XsmMeaning.StackFaults | xsm/machine.c:890-1000 | stack instructions fault exactly when the word they touch lies outside memory |
| XsmMeaning.StepExecutes | xsm/machine.c:181-233 | a running machine takes the instruction at IP with IP two words further, so all of this is about its steps |
| XsmText.ReadsBack | xsm/parse.l:23-67 | the text of an instruction, as the compilers and the resolver write it, is read by the machine's lexer and operand rules as that very instruction |
| Xsm.RunUnique | xsm/machine.c:181-233 | two runs that both come to rest end in the same state |
| Xsm.Cpu.constructor | xsm/machine.c:55-90 | the processor starts running at the first instruction of its code, on the memory it is given |
| Xsm.Cpu.ExecuteMov | xsm/machine.c:592-647 | MOV finds its destination before it reads its source, and faults, leaving registers and memory alone, on an address outside memory or on IP |
| Xsm.Cpu.ExecuteArith | xsm/machine.c:649-704 | arithmetic in place, by a switch of its own, is the instruction of AddSubMul, DivAndMod and ArithFaults |
| Xsm.Cpu.ExecuteLogical | xsm/machine.c:734-823 | comparison in place is the instruction of ComparesNumbers and ComparesTexts |
| Xsm.Cpu.ExecuteJump | xsm/machine.c:827-861 | JZ jumps on zero, JNZ otherwise, a string counts as true; nothing but IP changes |
| Xsm.Cpu.PushDo | xsm/machine.c:890-906 | SP moves first and the pushed register is read after it, so PUSH SP pushes the new SP; on a full stack SP has moved when it faults |
| Xsm.Cpu.PopDo | xsm/machine.c:909-925 | the word at SP goes to the register and SP falls by one, in the order that makes POP SP keep the decremented SP |
| Xsm.Cpu.CallDo | xsm/machine.c:943-963 | the return address is pushed and control goes to the target; a full stack faults with SP moved |
| Xsm.Cpu.RetDo | xsm/machine.c:982-1000 | control goes to the popped address |
| Xsm.Cpu.StepOnce | xsm/machine.c:181-233 | one turn of the machine's loop is the step that StepExecutes and all the theorems about compiled code are about |
| Spl.ConditionTruth | spl/spl.c:478-560 | with conjunction emitted as a product and disjunction as a sum, a condition of comparisons without ! is non-zero exactly when it logically holds |
| Spl.NegatedConditionTruth | spl/spl.c:520-584 | a condition with ! at any depth is non-zero exactly when it logically holds, provided that every negated part has value 0 or 1 |
| Spl.NegationTruth | spl/spl.c:562-584 | over a condition whose own negated parts are bits, ! gives the logical answer if and only if its operand has value at most 1 |
| Spl.NegatedOrFails | spl/spl.c:520-584 | in every store there is a true condition whose negation also counts as true |
| Spl.PushAllEffect | spl/spl.c:1188-1197 | multipush moves SP by the length of the list, leaves the words in order and changes nothing else |
| Spl.PopAllEffect | spl/spl.c:1199-1221 | multipop gives each register its own word back and leaves memory and other registers alone |
| Spl.PushPopRestores | spl/spl.c:1188-1221 | multipop of the same list undoes multipush for every register, SP included, whatever the code between did to the named registers |
| SplCode.AcceptedIffFits | spl/spl.c:226-906 | compilation of an expression with k registers taken stops with a register overflow exactly when k plus its recursively defined need exceeds 4 |
| SplCode.CodeGen.Take | spl/spl.c:1339-1349 | a load takes the next scratch register and the compiler exits when the fifth would be needed |
| SplCode.CodeGen.GenExpr | spl/spl.c:1047-1073 | the generator appends exactly the lines that SplExpr.ExprRuns is about and leaves the register count one higher, or exits exactly when AcceptedIffFits says so |
| SplCode.CodeGen.GenRegLeft | spl/spl.c:649-772 | the shapes with a register on the left: small right operand, exchanged operands, or both loaded |
| SplCode.CodeGen.GenBoth | spl/spl.c:591-648 | the shapes whose left operand needs code of its own give one register back |
| SplCode.CodeGen.GenAssign | spl/spl.c:908-1045 | an assignment's lines, with the register count back at 0 |
| SplCode.CodeGen.GenPush | spl/spl.c:1188-1197 | one PUSH per register, in list order |
| SplCode.CodeGen.GenPop | spl/spl.c:1199-1221 | the list reversed in place gives one POP per register, last register first |
| SplCode.CodeGen.GenIf | spl/spl.c:1075-1099 | both branches, two fresh labels, the stack of loops as before |
| SplCode.CodeGen.GenWhile | spl/spl.c:1101-1126 | the body is compiled with its own labels on top of the stack of loops, which is as before afterwards |
| SplCode.CodeGen.GenStmt | spl/spl.c:908-1138 | a statement's lines are those of the simulation theorem; break and continue outside a loop stop the compiler |
| SplExpr.ExprRuns | spl/spl.c:226-906 | compiled with k registers taken, an expression's code ends just past itself with the source value in R(16+k) and changes no memory word, user register or lower scratch register; it faults exactly when the value is undefined |
| SplExpr.FlippedRuns | spl/spl.c:226-266 | the exchanged-operand form computes the value of the source order |
| SplExpr.FlippableIff | spl/spl.c:226-476 | the generator exchanges the operands of exactly those operators whose exchanged form gives the same value for all words |
| SplStmt.TestRuns | spl/spl.c:1075-1110 | a condition's code falls through when it is true and goes to the given label when it is false |
| SplStmt.StmtRuns | spl/spl.c:908-1138 | simulation of every statement in every outcome: normal end just past the code, break and continue at the labels of the innermost loop, fault, endless looping |
| SplProgram.FreshLabels | spl/label.c:18-110 | a statement's code defines each label it draws exactly once and jumps only to these and to the innermost enclosing loop |
| SplProgram.ProgramCloses | xfs-interface/labels.c:149-202 | a compiled program has distinct labels and defines every label it jumps to, so resolution never stops |
| SplProgram.Compile | spl/spl.c:1351-1355 | the generator's run over a program gives the file that the theorems are about, or exits |
| SplProgram.HaltsOnlyAsMeant | spl/spl.c:908-1138 | a halted machine has the memory and the registers R0-R15, BP and SP of the program's meaning |
| SplProgram.CompilerCorrect | spl/spl.c:908-1138 | for every program, load address and store: the machine halts if and only if the program ends normally, in the same state; it faults if and only if the program does; otherwise both run for ever |
| SplProgram.FileBecomesMachineCode | xfs-interface/labels.c:94-121 | for a compiled file that both passes can read, the text that the resolver writes is the text of the machine code of CompilerCorrect |
| SplProgram.MachineReadsFile | xfs-interface/labels.c:94-121 | the machine reads every line of that file as the instruction of CompilerCorrect at that place |
| Labels.Resolver.constructor | xfs-interface/labels.c:82-91 | resolution starts from an empty list of labels |
| Labels.Resolver.Insert | xfs-interface/labels.c:82-91 | a new label goes in front, so the last definition of a name is found first |
| Labels.Resolver.GetTarget | xfs-interface/labels.c:68-80 | the search returns the first entry of that name, -1 when there is none |
| Labels.Resolver.PhaseOne | xfs-interface/labels.c:124-146 | the list after the loop has every label with twice the number of instructions before it |
| Labels.Resolver.PhaseTwo | xfs-interface/labels.c:149-202 | the loop writes what ResolutionCorrect describes and stops at the first name that is not in the list |
| Labels.Resolver.ResolveFile | xfs-interface/labels.c:94-121 | both passes over the pieces that fgets reads, with their different widths |
| Labels.SucceedsIffFound | xfs-interface/labels.c:149-202 | phase two succeeds exactly when every name jumped to is in the list, and then writes one line per piece that is an instruction |
| Labels.LabelPlacedIff | xfs-interface/labels.c:124-146 | phase one gives a label twice the number of instructions before it if and only if each of these has at most 32 characters, and a larger address otherwise |
| Labels.OneLineEachIff | xfs-interface/labels.c:149-202 | phase two writes one line per instruction if and only if all have at most 99 characters, and more lines otherwise |
| Labels.ResolutionExact | xfs-interface/labels.c:94-202 | a file with distinct labels of at most 32 characters and no colon in its instructions is resolved right (success, each jump to base + 2 * i for the i instructions before its label, all other lines unchanged, nothing else) if and only if every target is defined, all instructions have at most 99 characters and those before a label jumped to at most 32 |
| Labels.ResolutionCorrect | xfs-interface/labels.c:94-202 | with at most 32 characters before every label and 99 anywhere, resolution succeeds if and only if every target is defined, and is then right |
| Labels.LongLineMisplaces | xfs-interface/labels.c:124-146 | an instruction of any length above 32 puts a label after it too far |
| AssemblyText.JumpRead | xfs-interface/labels.c:165-198 | a line of two words is taken as a jump to a name exactly when the first is JMP or CALL, in either case, and the second has a letter |
| AssemblyText.JumpIfRead | xfs-interface/labels.c:165-198 | a line with a register between them exactly when the first is JNZ or JZ |
| AssemblyText.TextResolutionAgrees | xfs-interface/labels.c:124-202 | printing a file that both passes can read and resolving the text gives the same as resolving the instructions and printing them |
| ResourceManager.Manager.Boot | code/Modules/boot.spl:124-167 | boot leaves every lock free, the idle process running and init created |
| ResourceManager.Manager.Wake | code/Modules/resource_manager.spl:30-37 | exactly the processes 1 to 15 that wait in that state for that word become ready |
| ResourceManager.Manager.TryAcquireBuffer | code/Modules/resource_manager.spl:6-20 | one turn of the loop: a free buffer is locked for the caller, a locked one puts the caller to sleep on it |
| ResourceManager.Manager.DoReleaseBuffer | code/Modules/resource_manager.spl:22-41 | only the owner releases; all who wait for the buffer become ready |
| ResourceManager.Manager.TryAcquireDisk | code/Modules/resource_manager.spl:43-55 | a busy disk puts the caller to sleep; an idle one records the caller as owner |
| ResourceManager.Manager.DiskHandler | code/Interrupt/disk.spl:6-14 | the disk becomes free and everybody who waits for it becomes ready |
| ResourceManager.Manager.TryAcquireInode | code/Modules/resource_manager.spl:57-76 | as for buffers, but a file deleted while the caller waited makes it give up without the lock |
| ResourceManager.Manager.DoReleaseInode | code/Modules/resource_manager.spl:78-97 | only the owner releases; all who wait for the inode become ready |
| ResourceManager.Manager.TryAcquireTerminal | code/Modules/resource_manager.spl:140-151 | a busy terminal puts the caller to sleep |
| ResourceManager.Manager.DoReleaseTerminal | code/Modules/resource_manager.spl:153-171 | only the recorded owner releases; all who wait become ready |
| IoSafety.StepTurn | code/Modules/file_manager.spl:6-105 | every kernel segment between two scheduler calls, of buffered read and write, transfers, delete, terminal access, keeps the kernel's invariant |
| IoSafety.StepWrite | code/Interrupt/int_7.spl:84-108 | a write that finds room keeps it, also when it gives the file a new block |
| IoSafety.StepDelete | code/Interrupt/int_4.spl:131-180 | so does delete, which frees the file's blocks and forgets their dirty buffers |
| IoSafety.StepDiskDone | xsm/machine.c:346-362 | the transfer's effect and the handler's wakeup keep it: whoever leaves a transfer finds page and block equal |
| IoSafety.StepKeeps | code/Modules/resource_manager.spl:6-97 | every event of the system keeps the invariant: lock words name the one process that holds the lock, sleepers wait on something held, files own distinct blocks, disk lock and hardware agree |
| IoLocks.BootHolds | code/Modules/boot.spl:124-167 | what boot leaves satisfies the invariant |
| IoLocks.RunKeeps | code/Modules/resource_manager.spl:6-97 | so the invariant holds after every run of events from boot |
| IoLocks.OneOwner | code/Modules/resource_manager.spl:6-97 | no two processes hold the same inode, the same buffer, the disk or the terminal, which a reader holds as long as the console works for it |
| IoLocks.NoLostWakeup | code/Modules/resource_manager.spl:6-97 | a sleeping process is not the idle one and is either served by the hardware or sleeps on something that another process holds at that moment |
| IoLocks.NoDeadlock | code/Interrupt/int_6.spl:54-121 | from any process at most three steps along the chain of owners lead to one that can run or that the hardware serves |
| IoLocks.NoCycle | code/Modules/file_manager.spl:6-105 | the wait-for graph has no cycle of any length |
| IoLocks.NoRequestIgnored | xsm/machine.c:1112-1125 | a disk request is handed over only when the hardware is idle, and is then the one that it works on |
| IoLocks.OwnTransferEnds | code/Modules/device_manager.spl:7-49 | a process leaves its wait in a transfer only through the completion of that very transfer |
| IoLocks.ReturnsAfterTransfer | code/Modules/device_manager.spl:7-49 | when a buffer's load or store returns, page and block are equal, however many processes contend |
| IoLocks.AbandonedLeaks | code/Interrupt/int_7.spl:87-90 | the early returns of write leave a lock word naming a process that does not hold the inode |
| IoLocks.WriteKeepsIffRoom | code/Interrupt/int_7.spl:84-108 | write keeps the kernel's invariant if and only if the position is below the size limit and a needed block is free |
| IoLocks.LeakIsForever | code/Interrupt/int_7.spl:102-105 | after such a return the inode stays locked in every continuation |
| IoCache.StepFollows | code/Modules/file_manager.spl:17-44 | every event changes the content of a block only by the word that a write puts there; a block becomes stale only when its file is deleted |
| IoCache.CacheRefinesDisk | code/Modules/file_manager.spl:6-105 | under every interleaving the content of a block (buffer page if cached, disk block otherwise) that is not stale and of no deleted file, owned or not, is the result of replaying the run's writes to it on a plain array of blocks |
| IoCache.BootIsClean | code/Modules/boot.spl:160-167 | after boot no block is stale and every block holds what the disk holds |
| IoCache.ReadReturnsContent | code/Modules/file_manager.spl:94-104 | a buffered read delivers the word of that content at the moment of the access |
| IoFiles.StepFresh | code/Interrupt/int_7.spl:93-118 | every event keeps: a block that an inode owns is stale only between its allocation and its first word, and nobody can take its slot in between |
| IoFiles.RunFresh | code/Modules/file_manager.spl:6-105 | so this holds in every reachable state |
| IoFiles.OwnedFollows | code/Modules/file_manager.spl:17-44 | no event, eviction included, changes the content of a block that an inode owns but for the word that a write puts there |
| IoFiles.OwnedRefinesDisk | code/Modules/file_manager.spl:6-105 | for as long as some inode owns a block, its content is the result of replaying the writes to it on a plain array of blocks, whatever files it belonged to before |
| IoFiles.LiveIsFresh | code/Interrupt/int_4.spl:131-156 | block j of a file with 512 * j < size is never stale: buffer and disk agree unless the buffer is dirty |
| IoFiles.FilesHoldWrites | code/Interrupt/int_7.spl:79-130 | after every run from boot, with deletion, creation and re-use of blocks, each file holds at every position below its size the word last written there since it was made, or the word the disk had at boot; with SizeIsWritten, no position is missing |
| IoFiles.RecordedIffWord | code/Interrupt/int_7.spl:110-127 | after every run from boot a position has been written, or was there at boot, since its file was made if and only if it is below the size or its writer is just about to raise the size to it |
| IoFiles.SizeIsWritten | code/Interrupt/int_7.spl:121-127 | so whenever no write to the file is ending, its written positions are 0 to size - 1 and their number is its size: a write at the end makes the file one word longer, and nothing else does |
| IoFiles.ReadDeliversLastWrite | code/Interrupt/int_6.spl:54-121 | a read delivers the word last written at its position of its file |
| IoExamples.EvictionKeepsOwned | code/Interrupt/int_4.spl:142-144 | in the states reached from boot, eviction keeps the content of all owned blocks, and does not keep that of all blocks without an owner |
| IoExamples.FreedBlockIsLost | code/Interrupt/int_4.spl:142-144 | a run from boot writes a word, deletes the file and evicts the block: the word is gone |
| IoExamples.GivenBlockIsStale | code/Interrupt/int_7.spl:93-108 | a run from boot gives such a block to a growing file: at 512 * j = size it is stale, so the bound of LiveIsFresh is sharp |
| IoExamples.FullFileLeaks | code/Interrupt/int_7.spl:87-90 | a run from boot reaches a write to a full file, whose return breaks the invariant |
| IoFair.SearchAlwaysEnds | code/Modules/scheduler.spl:13-21 | whenever the scheduler is called some process is ready or created, so its search ends |
| IoFair.ReadyStays | code/Modules/scheduler.spl:13-41 | nothing but its dispatch takes a process out of the ready state |
| IoFair.ReadyIsDispatched | code/Modules/scheduler.spl:13-41 | in every round-robin run of the kernel a ready process is dispatched by one of the next 16 scheduler calls |
| FileSystem.Kernel.Boot | code/Modules/boot.spl:160-167 | the tables as boot leaves them over the disk's file tables meet the initial state of the transition system |
| FileSystem.Kernel.Do | code/Modules/resource_manager.spl:6-97 | every event of the transition system, done step by step on the tables, leaves exactly the tables that the theorems are about |
| FileSystem.Kernel.Turn | code/Modules/file_manager.spl:6-105 | so does every kernel segment between two scheduler calls, by the branch for the place where the running process is |
| FileSystem.Kernel.TakeInode | code/Modules/resource_manager.spl:57-76 | acquiring an inode and where the call goes from there |
| FileSystem.Kernel.TakeBuffer | code/Modules/resource_manager.spl:6-20 | acquiring a buffer and where the call goes from there |
| FileSystem.Kernel.Read | code/Interrupt/int_6.spl:66-113 | read with the inode locked: the root file and the end of a file need no buffer, any other position asks for its block |
| FileSystem.Kernel.Extend | code/Interrupt/int_7.spl:94-108 | a file that ends at the start of a block gets the first free block there, if there is one |
| FileSystem.Kernel.Write | code/Interrupt/int_7.spl:87-118 | write with the inode locked, with both early returns, as the turn that WriteKeepsIffRoom is about |
| FileSystem.Kernel.EndCall | code/Interrupt/int_7.spl:121-136 | the end of read and write: a write at the end raises the size by one, then the inode is released |
| FileSystem.Kernel.TakeTerminal | code/Modules/resource_manager.spl:140-151 | acquiring the terminal and, for a reader, the request to the console |
| FileSystem.Kernel.EndTransfer | code/Interrupt/disk.spl:6-14 | the hardware ends its transfer and the handler wakes all who wait for the disk |
| FileSystem.Kernel.EndConsole | code/Interrupt/console.spl:6-18 | the console handler releases the terminal for the reader recorded as its owner |
| FileSystem.Kernel.MakeFile | code/Interrupt/int_4.spl:48-67 | a free entry becomes a file of size 0 without blocks |
| FileSystem.Kernel.HoldBuffer | code/Modules/file_manager.spl:17-30 | with the buffer locked: hit, dirty miss or clean miss, as the turn of the transition system |
| FileSystem.Kernel.Stored | code/Modules/file_manager.spl:28-29 | after the store the slot is clean |
| FileSystem.Kernel.Loaded | code/Modules/file_manager.spl:40-41 | after the load the tag names the block |
| FileSystem.Kernel.MoveWord | code/Modules/file_manager.spl:43-44 | one word of the buffer page moves to or from the caller and a write marks the slot dirty |
| FileSystem.Kernel.DoTouch | code/Modules/file_manager.spl:43-55 | the access and the release of the buffer together are the access turn |
| FileSystem.Kernel.Start | code/Modules/device_manager.spl:7-24 | acquiring the disk, handing over the request and going to sleep is the transfer turn |
| FileSystem.Kernel.GetFreeBlock | code/Modules/memory_manager.spl:46-58 | the loop marks and returns the first free block of the data area, -1 when there is none |
| FileSystem.Kernel.ForgetBlocks | code/Interrupt/int_4.spl:131-156 | the loop of delete frees exactly the file's blocks and cleans exactly the slots that cache them |
| FileSystem.Kernel.DoDelete | code/Interrupt/int_4.spl:131-163 | the whole of delete is its turn of the transition system |
| FileSystem.Kernel.Flush | code/Interrupt/int_15.spl:29-42 | after the shutdown flush the disk alone has the content of every block that an inode owns, and of every other block that is not stale; stale blocks are left alone |
| MemorySafety.SearchFinds | code/Modules/memory_manager.spl:17-25 | a free count other than zero means that the search finds a page |
| MemorySafety.StepFork | code/Interrupt/int_8.spl:12-25 | taking a process entry for the child keeps the exact counts |
| MemorySafety.StepForkArea | code/Interrupt/int_8.spl:40-103 | the user area page and the copied page table: one count more for every frame that the child now shares |
| MemorySafety.StepForkStack | code/Interrupt/int_8.spl:105-139 | the child's stack pages, and the child becomes runnable only when it has both |
| MemorySafety.StepExec | code/Interrupt/int_9.spl:38-80 | exec gives everything back and takes its user area page again before anything can run, so the counts stay exact |
| MemorySafety.StepShare | code/Modules/memory_manager.spl:66-84 | a code page found in another process is shared with its count raised; that it is the right page is MemoryCode.EndRunsBlock |
| MemorySafety.StepLoaded | code/Modules/memory_manager.spl:86-101 | a code page held across its disk load is counted all the time |
| MemorySafety.StepExit | code/Modules/process_manager.spl:65-103 | exit keeps the counts exact and leaves nobody waiting for the process |
| MemorySafety.StepKeeps | code/Modules/memory_manager.spl:5-44 | every event keeps: each non-library frame's count equals its boot reservation plus the valid page table entries, user areas and pages in hand that name it, and the free count is the number of zero counts |
| MemoryCode.StepGood | code/Modules/memory_manager.spl:66-101 | every event keeps: each code page in memory whose disk map entry names a block of a file holds exactly that block, and a page in hand belongs to one process |
| MemoryCode.StepShares | code/Modules/memory_manager.spl:71-84 | exec by sharing leaves in the first code entry a page that holds the wanted block |
| MemoryCode.StepLoads | code/Modules/memory_manager.spl:86-101 | exec by loading leaves it there too, whoever else ran during the load |
| MemoryCode.RunGood | code/Interrupt/int_9.spl:94-119 | so this holds over every run |
| MemoryCode.EndRunsBlock | code/Interrupt/int_9.spl:94-119 | an exec of a file with first block b, when it ends, has b in the first code page and the file's blocks in the disk map |
| MemoryCode.ExecRunsIffMapClear | code/Modules/boot.spl:217-225 | over all runs from boot every exec ends with the program it was called for if and only if the disk map of the idle process, which boot does not write, names no block of a file for idle's two code pages |
| MemoryCode.IdleIsShared | code/Modules/memory_manager.spl:71-84 | when it does name one, a run from boot that makes init exec that file leaves it with idle's page |
| MemoryTables.BootHolds | code/Modules/boot.spl:106-127 | 83 pages used and 45 free at boot agree with the page tables of idle and init |
| MemoryTables.RunKeeps | code/Modules/memory_manager.spl:5-44 | the counts are exact in every reachable state |
| MemoryTables.CountIsExact | code/Modules/memory_manager.spl:30-44 | a frame has count zero if and only if it is not reserved and no process uses it |
| MemoryTables.NoLostWakeup | code/Interrupt/int_11.spl:38-66 | a process waits for memory only while no page is free, and for a process only while that one has not ended |
| MemoryTables.GrantIsFresh | code/Modules/memory_manager.spl:5-28 | get free page, once its wait loop is left, ends at a page that nobody uses |
| MemoryTables.ExitGivesBack | code/Modules/process_manager.spl:65-103 | after exit every frame's count has fallen by exactly the uses the process had |
| MemoryTables.Kernel.Boot | code/Modules/boot.spl:106-127 | the loops over the free list leave 83 ones, and the free count is the number of zeros |
| MemoryTables.Kernel.Do | code/Modules/memory_manager.spl:5-101 | every event of the transition system, done step by step on the tables, leaves exactly the tables that the theorems are about |
| MemoryTables.Kernel.Turn | code/Modules/memory_manager.spl:5-28 | so does every kernel segment of fork and exec between two scheduler calls |
| MemoryTables.Kernel.BeginFork | code/Interrupt/int_8.spl:12-39 | the first free process entry is taken for the child, or fork gives up |
| MemoryTables.Kernel.FillChild | code/Interrupt/int_8.spl:46-103 | the child's user area page, its copy of eight entries with their counts, and its disk map |
| MemoryTables.Kernel.BeginExec | code/Interrupt/int_9.spl:38-80 | exec gives everything back and takes its user area page again |
| MemoryTables.Kernel.FinishExec | code/Interrupt/int_9.spl:101-119 | the four code entries and the disk map of the new program |
| MemoryTables.Kernel.FindPage | code/Modules/memory_manager.spl:66-84 | the two loops of get code page are the search of the transition system |
| MemoryTables.Kernel.AskPage | code/Modules/memory_manager.spl:5-28 | one turn of get free page: the first page of count zero, or the caller sleeps until memory is given back |
| MemoryTables.Kernel.GetCodePage | code/Modules/memory_manager.spl:86-101 | a page for code that no process has, held by the caller during the load |
| MemoryTables.Kernel.ExitSelf | code/Modules/process_manager.spl:65-103 | exit process on the tables, with the wakeup of those who wait for it |
| MemoryTables.Kernel.WaitProcessCall | code/Interrupt/int_11.spl:38-66 | wait records the process waited for and sleeps |
| MemoryTables.Kernel.Wake | code/Modules/process_manager.spl:82-99 | exactly the processes that wait in that state for that word become ready |
| MemoryTables.Kernel.SearchPage | code/Modules/memory_manager.spl:14-27 | the search takes the first page of count zero and keeps the free count equal to the number of zeros; it never runs past the list |
| MemoryTables.Kernel.ReleasePage | code/Modules/memory_manager.spl:30-44 | the free count rises and the memory waiters wake exactly when the last use goes |
| MemoryTables.Kernel.ShareCode | code/Modules/memory_manager.spl:66-84 | the nested loops find the first process and entry, in the order of the source, whose disk map names the block and whose page is in memory, as the search of StepShares, and raise the page's count |
| MemoryTables.Kernel.CopyTable | code/Interrupt/int_8.spl:95-103 | the copy loop gives the child the parent's first eight entries and raises one count per entry; for an entry that is -1 it raises the word in front of the list instead |
| MemoryTables.Kernel.FreeLoop | code/Modules/process_manager.spl:113-128 | the loop releases exactly the valid entries |
| MemoryTables.Kernel.FreeTable | code/Modules/process_manager.spl:105-150 | free page table as the transition system has it |
| Scheduler.Search | code/Modules/scheduler.spl:13-21 | the loop ends at the first ready or created process in cyclic order after the caller |
| Scheduler.EndsIffRunnable | code/Modules/scheduler.spl:15-21 | the loop's guard ever fails if and only if some process is ready or created |
| Scheduler.DistanceFalls | code/Modules/scheduler.spl:13-21 | every call dispatches a given ready process or brings it strictly nearer |
| Scheduler.DispatchedWithin16 | code/Modules/scheduler.spl:13-41 | a process that stays ready is dispatched by one of the next 16 calls, whatever the others do |
| ContextSwitch.DispatchResumes | code/Modules/scheduler.spl:23-41 | dispatching a process whose kernel stack and table row are intact gives back R0-R15, BP, SP, IP, PTBR and PTLR |
| ContextSwitch.TimerKeeps | code/Interrupt/timer.spl:4-11 | the handler and the scheduler put all of that into the process's own pages and row |
| ContextSwitch.KernelStackComesBack | code/Modules/scheduler.spl:25 | 512 * page + SP % 512 is SP again if and only if the kernel stack is inside its page |
| ContextSwitch.FitsIffComesBack | code/Modules/scheduler.spl:1-11 | the condition under which switches are proved is exactly the one for SP to come back |
| ContextSwitch.TranslatesPages | xsm/memory.c:42-96 | the 512 addresses of a page go to the 512 words of a frame, in order, if and only if the page table has the page valid in that frame with the rights asked for |
| ContextSwitch.TranslatesNothingElse | xsm/memory.c:42-96 | an address outside such pages is not translated |
| ContextSwitch.SwitchResumes | code/Modules/scheduler.spl:2-41 | a switch keeps what every suspended process is owed and resumes the process taken up exactly where it left |
| ContextSwitch.PreemptedResumes | code/Interrupt/timer.spl:4-18 | a process preempted by the timer, or that yielded in the kernel, resumes with the same registers after any run in which others work, are switched, end or are killed, and in which the table rows and pages of those that ended go to new processes |
| ContextSwitch.ScratchIsLost | code/Interrupt/timer.spl:4-16 | R16 to R19 of a preempted process that is dispatched are the handler's own values |
| ContextSwitch.PreemptedLosesScratch | code/Interrupt/timer.spl:4-16 | so after any such run R16 to R19 come back if and only if they held these values at the preemption |
| SwitchExamples.BootIsGood | code/os_startup.spl:13-52 | what boot leaves of idle and init is a state in which these runs may start |
| SwitchExamples.RegisterIsLost | code/Interrupt/timer.spl:4-16 | a run from boot: init is preempted with 5 in R16, idle runs, and init resumes with its R0-R15 and without the 5 |
| SwitchExamples.EndedIsReused | code/Interrupt/int_10.spl:10-17 | after a process has ended, whoever runs next may make a new process of its row and pages |
| ContextSwitch.Machine.constructor | xsm/machine.c:55-90 | the machine starts in kernel mode on the given memory and process table |
| ContextSwitch.Machine.Backup | xsm/machine.c:1158-1175 | BACKUP pushes BP and then R0 to R19 as 21 consecutive words |
| ContextSwitch.Machine.Restore | xsm/machine.c:1178-1195 | RESTORE reads them back in the opposite order |
| ContextSwitch.Machine.Preempt | code/Interrupt/timer.spl:4-11 | interrupt entry, handler and scheduler leave exactly the memory, row and state that TimerKeeps is about |
| ContextSwitch.Machine.Resume | code/Interrupt/timer.spl:13-18 | the scheduler's loading, RESTORE and IRET give exactly the state that DispatchResumes is about |
| ContextSwitch.Machine.TranslateAddress | xsm/memory.c:42-96 | address translation with its tests of page number, validity and write flag |
| ContextSwitch.Machine.Leave | code/Modules/scheduler.spl:1-11 | a call of the scheduler from kernel code saves BP, the kernel stack pointer, PTBR and PTLR of the caller |
| ContextSwitch.Machine.ReturnTo | code/Modules/scheduler.spl:23-41 | a process that had called the scheduler goes on behind its call |
| ContextSwitch.Machine.StartNew | code/Modules/scheduler.spl:23-41 | a created process goes to user mode at the address on top of its own stack |
| Devices.TimerIsPeriodic | xsm/machine.c:328-345 | an enabled timer fires at exactly every T-th user-mode completion, whatever the devices and the kernel do; a disabled one never |
| Devices.DiskEndsOnTime | xsm/machine.c:346-362 | a pending transfer ends when its wait runs out or, if the timer fires there, one completion later, and not before |
| Devices.RequestCompletesOnce | xsm/machine.c:1112-1125 | for every option set of the argument parser a request with wait N to an idle disk completes exactly once in the next N + 1 completions, at the N-th or the one after, never at both |
| Devices.IdleDiskIsQuiet | xsm/machine.c:346-362 | without a request no disk interrupt occurs |
| SimulatorOptions.AllowedIffParsed | xsm/simulator.c:39-115 | the option sets of the timing theorems are those, and only those, that some command line leaves |
| SimulatorOptions.ParseArgs | xsm/simulator.c:39-115 | the loop over the arguments with its ranges and refusals |
| ConsoleDelay.ConsoleFiresIff | xsm/machine.c:328-384 | in every run from a console request of wait w the console interrupt comes first at completion i if and only if i is the first completion, at or after the w-th, where the timer does not fire and no disk request is pending |
| ConsoleDelay.ConsoleIsBounded | xsm/machine.c:328-384 | if the kernel leaves two idle completions before each disk request, a console request of wait w is served within w + N + 4 completions, N being the disk's wait |
| ConsoleDelay.GapIsExact | xsm/machine.c:341-383 | over all option sets and runs with at least g idle completions before each disk request, the delay is bounded if and only if g is at least 2 |
| Devices.ConsoleStarves | xsm/machine.c:341-383 | back-to-back disk transfers keep the console's interrupt away for any length of time |
| Devices.Clock.constructor | xsm/machine.c:55-90 | the counters start idle with the timer at its period |
| Devices.Clock.PostExecute | xsm/machine.c:328-384 | one call steps the counters and raises at most one interrupt, timer before disk before console |
| Devices.Clock.ScheduleDisk | xsm/machine.c:1112-1125 | a request to a busy disk changes nothing |
| Devices.Clock.ScheduleIn | xsm/machine.c:1228-1238 | a read from a busy console fails and changes nothing |
| Expl.CallFreeIsPure | expl/abstree.y:612-735 | evaluating a call-free expression leaves the globals alone |
| Expl.BooleanIsBit | expl/abstree.y:632-735 | the value of a boolean tree is 0 or 1 |
| ExplCode.CodeGen.constructor | expl/codegen.c:1-10 | the generator starts with all registers free and its first label number taken |
| ExplCode.CodeGen.GetReg | expl/codegen.c:25-34 | R0 to R16 are handed out in order; after R16 the compiler exits |
| ExplCode.CodeGen.Gen | expl/codegen.c:107-274 | at counter k the register returned is k + 1 and the lines are those of ExplRuns.ExprRuns, or the compiler exits exactly when CompilesIffFits says so |
| ExplCode.CodeGen.GenShortCut | expl/codegen.c:149-176 | AND and OR put the right operand's code behind a jump over it |
| ExplCode.CodeGen.GenCall | expl/codegen.c:778-828 | saves, arguments, call, result and restores, with the counter one higher than before |
| ExplCode.CodeGen.GenArgs | expl/codegen.c:49-95 | the loop computes and pushes the arguments from the last to the first |
| ExplCode.CodeGen.GenSet | expl/codegen.c:482-545 | an assignment to a local, a parameter or a global frees the registers it took |
| ExplCode.CodeGen.GenStmt | expl/codegen.c:742-776 | a statement's lines are those of ExplRuns.StmtRuns, with the counter where the source leaves it |
| ExplFrames.ExprFrames | expl/codegen.c:107-274 | an expression's code, whatever words it reads, faults, is still running after n steps, or leaves lower registers, SP, BP and the stack up to SP as they were |
| ExplFrames.StmtFrames | expl/codegen.c:482-776 | likewise a statement's code, which writes nothing below the frame but globals |
| ExplFrames.FunFrames | expl/codegen.c:829-850 | a function called with any words in memory returns to its caller with BP and the caller's stack as before, at every depth of recursion, unless it faults or goes on |
| ExplRuns.LeafRuns | expl/codegen.c:188-274 | a variable's code reads parameter i at BP - 3 - i and local i at BP + 1 + i |
| ExplRuns.ShortCutRuns | expl/codegen.c:149-176 | AND and OR agree in truth with short-circuit evaluation; a right operand that would fault is not run when the left one decides |
| ExplRuns.ExprRuns | expl/codegen.c:107-274 | an expression compiled at counter k leaves its value in the next register and changes neither lower registers, nor SP, BP, nor the stack up to SP; once an unset local is read the value is open, and the rest still holds |
| ExplRuns.CallRuns | expl/codegen.c:778-828 | a call in an expression leaves SP, BP and the caller's live registers as before and the result in the next register; the frame also when the callee reads an unset local |
| ExplRuns.StmtRuns | expl/codegen.c:482-776 | statements follow their meaning and write nothing below the frame but globals; the latter also once an unset local is read |
| ExplRuns.FunRuns | expl/codegen.c:829-850 | a function's code from its label to RET keeps the frame convention at every depth of recursion, also when it reads an unset local |
| ExplProgram.ExprFine | expl/codegen.c:12-15 | generated code defines each label it draws once and jumps only to these or calls a function of the program |
| ExplProgram.ProgramLoads | expl/abstree.y:271-285 | a compiled program closes over its labels and every function stands behind its own |
| ExplProgram.CallIsApplied | expl/codegen.c:829-850 | a function of a compiled program, called with its arguments on the stack, returns the meaning of the application with BP and the caller's stack as before, faults if the meaning is a fault, is still running after n steps if the meaning has not ended with fuel n, or runs out of stack; a function that reads an unset local keeps BP and the caller's stack all the same |
| ExplProgram.EndlessRunsOn | expl/codegen.c:742-776 | a call whose meaning has not ended with fuel n has not stopped the machine after n steps, unless the stack is full: an endless meaning never becomes a fault |
| ExplProgram.CompilesIffFits | expl/codegen.c:25-34 | compilation of an expression at counter k aborts exactly when its register need goes beyond R16, arguments counted from R0 |
| Heap.AllocKeeps | expl/library.lib:12-21 | Alloc hands out the first free block, which nobody holds, and keeps the list an acyclic chain |
| Heap.FreeKeeps | expl/library.lib:26-36 | Free of an allocated block puts it in front of the chain |
| Heap.FreeKeepsIffAllocated | expl/library.lib:26-36 | after Free the heap is sound for some chain if and only if the block was allocated |
| Heap.CountIsConstant | expl/library.lib:12-62 | free and allocated blocks together are 127 |
| Heap.ChainIsDistinct | expl/library.lib:48-60 | a list that ends has no block twice |
| Heap.StepKeeps | expl/library.lib:12-36 | Alloc, Free of a held block and writes into held blocks keep all of this |
| Heap.RunKeeps | expl/library.lib:12-62 | over any run: 127 blocks in all, the free list an acyclic chain, and a block that is not freed is not handed out again |
| Heap.Area.Heapset | expl/library.lib:41-62 | the two loops leave the chain of all 127 blocks |
| Heap.Area.Alloc | expl/library.lib:12-21 | Alloc in place |
| Heap.Area.Free | expl/library.lib:26-36 | Free in place, of any address in the area; the heap stays sound when the block was held |
| Xfs.TakeIs | xfs-interface/virtualDisk.c:42-59 | allocation marks distinct free blocks and nothing else, and comes up short only when the disk is full |
| Xfs.ReleaseUndoesTake | xfs-interface/virtualDisk.c:29-39 | giving back the allocated blocks restores the free list exactly |
| Xfs.FailedLoadRestores | xfs-interface/diskUtility.c:650-675 | a load that fails, at whatever point, leaves free list, inode table and root file as they were |
| Xfs.LoadKeepsIffNamed | xfs-interface/diskUtility.c:643-691 | a successful load keeps the tables consistent if and only if its name does not read as -1 |
| Xfs.LoadEnds | xfs-interface/diskUtility.c:641-675 | which of the five endings a load has, exactly, in the order of its tests: too big, disk full, name taken, table full, loaded |
| Xfs.DataLoads | xfs-interface/diskUtility.c:637-686 | a data file of w words is refused as too big exactly when w > 2048; loaded, its entry has type, name, size w and the c blocks, free before, with 512 * (c - 1) < w <= 512 * c |
| Xfs.ExecLoads | xfs-interface/diskUtility.c:727-778 | a program of n lines is refused as too big exactly when n >= 1024; loaded, its entry has type, name, size 2 * n and the c blocks, free before, with 256 * (c - 1) <= n < 256 * c |
| Xfs.DeleteTakes | xfs-interface/diskUtility.c:852-886 | delete succeeds exactly on a name in use other than root, takes that one entry away and frees its blocks and no others |
| Xfs.MinusOneIsLost | xfs-interface/diskUtility.c:643-691 | on a formatted disk a one-word file "-1.dat" loads, its entry counts as free, and its block stays used |
| Xfs.DeleteKeeps | xfs-interface/diskUtility.c:852-886 | delete keeps: a data block is used exactly when one and only one slot names it, and root file and inode table agree on name, size and type |
| Xfs.DeleteUndoesLoad | xfs-interface/diskUtility.c:852-886 | deleting a file just loaded gives back the very tables from before |
| Xfs.CommandKeeps | xfs-interface/diskUtility.c:643-691 | each command keeps the tables consistent, and one that fails changes nothing |
| Xfs.RunKeeps | xfs-interface/diskUtility.c:743-783 | so do all runs of loads and deletes |
| Xfs.FormatHolds | xfs-interface/diskUtility.c:22-58 | a formatted disk is consistent |
| Xfs.Disk.Format | xfs-interface/virtualDisk.c:62-116 | formatting leaves the system's blocks used, all others free, and the root file's entry |
| Xfs.Disk.FindFreeBlock | xfs-interface/virtualDisk.c:42-59 | the first free block, marked; -1 and nothing changed when there is none |
| Xfs.Disk.FreeUnusedBlock | xfs-interface/virtualDisk.c:29-39 | the blocks up to the first -1 or 0 become free |
| Xfs.Disk.GetInodeEntry | xfs-interface/inode.c:46-66 | the first entry in use of that name, -1 when there is none |
| Xfs.Disk.FindEmptyInodeEntry | xfs-interface/inode.c:13-43 | the first free entry |
| Xfs.Disk.AddEntry | xfs-interface/inode.c:69-109 | inode entry and root file entry are written together |
| Xfs.Disk.Allocate | xfs-interface/diskUtility.c:650-658 | the loop's array has the allocated blocks and -1 behind them, also when it stops early |
| Xfs.Disk.LoadFile | xfs-interface/diskUtility.c:743-783 | the loader's steps with their three ways to give up, as the load that FailedLoadRestores and LoadKeepsIffNamed are about |
| Xfs.Disk.LoadDataToDisk | xfs-interface/diskUtility.c:637-691 | the number of blocks of a data file, counted in place, and the load of DataLoads |
| Xfs.Disk.LoadExecutableToDisk | xfs-interface/diskUtility.c:727-783 | the loop counts the lines of the text, the end of the file as one more, and loads as ExecLoads says |
| Xfs.Disk.DeleteFile | xfs-interface/diskUtility.c:852-886 | the delete of DeleteKeeps |

## Left out

Machine and compilers:

- Words are unbounded: the 16-character width and 32-bit overflow are not modelled.
- Instruction text while the machine runs: `Xsm` runs decoded instructions; `XsmText` decodes the text of one instruction, without its limits of length, and texts with a quote in them.
- INR, DCR, the device, interrupt and debugging instructions of the flat machine; `ContextSwitch` has BACKUP, RESTORE and IRET.
- Paging for compiled code: `Xsm` has one flat address space; page translation appears in `ContextSwitch`.
- SPL `goto`, user labels, inline assembly, `print`, `read`, `load`, `store`, `call`, aliases and constants; the address `[IP]`.
- Labels.ResolutionExact: takes lines without a colon in an instruction and labels of at most 32 characters, as both compilers write them; an empty line, a label line with an empty name and a line of separators only are given a meaning (the last is copied) where the C code reads outside its buffer or compares a null opcode.
- ExpL records, arrays, break and continue, calls inside arguments, `read`, `write`, `alloc`, `free` and `exposcall`, and function declarations and types (names are positions here).
- ExplProgram.CallIsApplied: says nothing about the value of a function that reads a local before setting it, nor whether it faults; a call may also stop because the stack is full. ExpL values of AND and OR are used only as truth values, because OR leaves 2 when its left operand decides.

Kernel:

- IoSafety.StepKeeps: the early returns of write are not among its events; they are treated by IoLocks.AbandonedLeaks, WriteKeepsIffRoom and LeakIsForever. Semaphores, kill-all, the page-fault handler and login are not modelled, nor is the open file table: positions are any that lie within the file.
- The system calls as wholes (read, write, open, fork, exec, exit, wait) are transition functions over values, cut where they can yield; in place, the Kernel classes do every event on the tables; the registers in which a call keeps its own variables are not modelled, and the place of a process in its call stands for them.
- File creation is one event that takes any free entry; the search for a file by name, the copies of names and sizes in the root file, permissions and user ids are left out.
- MemoryCode.ExecRunsIffMapClear: speaks of the first code page, the only one that exec loads; the others come in by page faults, which are not modelled. A block number below that of the first file block counts as no file.
- IoCache.CacheRefinesDisk: excludes blocks whose file is deleted during the run and stale ones, which is right for blocks without an owner; for owned blocks IoFiles.OwnedRefinesDisk has neither restriction.
- FileSystem.Kernel.Flush: assumes that every user process is killed first, so that no buffer is locked; takes each store as complete before the next one starts, and leaves out the tables that shutdown writes after the buffers.
- The lock and the memory systems let the scheduler choose any runnable process; round robin is added in `IoFair` and `ContextSwitch`.
- MemorySafety.StepKeeps: fork's copy of the resource table, swapped pages, the count of memory waiters, library frames' counts and page contents other than the block of a code page are left out; a disk interrupt may wake every process that waits for the disk, which allows more runs than the kernel has.
- MemoryTables.Kernel.FreeTable: the disk blocks of swapped pages are not released, since no page is swapped.
- ContextSwitch.PreemptedResumes: takes from the memory system that user area pages and page tables are private to their process until it ends, and that a stack page is not swapped; it covers R0-R15, and the handler's registers are PreemptedLosesScratch.
- The stack push of a device interrupt is taken not to fault (xsm/machine.c:943-963).

Disk and heap:

- The contents of XFS blocks, file name truncation and extensions, and the user table; a load into a full inode table, where the search of xfs-interface/inode.c:20-36 runs on into the user table.
- Xfs.Disk.FindEmptyInodeEntry: returns -1 for a full inode table, where the source runs on (xfs-interface/inode.c:20-36).
- Alloc on an empty heap list, which follows the -1 that ends it (expl/library.lib:12-14), and Free of an address outside the area.
