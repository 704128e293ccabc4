# SpyTester, verified

A Dafny model of the parts of SpyTester where a program that is traced from within can go wrong
without anybody noticing: the asynchronous ptrace queue and the register cache and breakpoints on
top of it, the relinking of GOT slots, the callback queue and the event dispatcher that feeds it,
the debug registers, the initial process stack and the replicated thread keys.

`dafny verify dfyconfig.toml` checks everything.

## How it is laid out

| file | models |
|---|---|
| `Ptrace.dfy` | one traced thread as a step system: the kernel's registers and memory, the command queue, the fields of SpiedThread |
| `RegisterCache.dfy`, `CacheTheorems.dfy` | the OLD/SYNC/NEW cache refines a direct register file, over every run |
| `StepWindow.dfy` | between the return of singleStep and the report of its trap: what reads return, and what writes do to the step |
| `LateReports.dfy` | stops that are reported after the thread has been resumed |
| `Reserved.dfy` | words of memory that only one breakpoint writes, while everything else goes on |
| `SpiedThread.dfy` | Tracer and SpiedThread as objects; each method is proved against the step system |
| `Breakpoint.dfy`, `BreakpointRuns.dfy` | BreakPoint as an object; what sequences of set and unset do to memory |
| `CommandQueue.dfy`, `CallbackHandler.dfy` | both producer/consumer queues lock by lock, and the two worker loops as code that follows those steps |
| `Relinkage.dfy`, `RelinkRuns.dfy` | the swap of GOT slots, its guard, its involution; runs of relink, unrelink and destruction |
| `ElfFile.dfy`, `DynamicModule.dfy` | the cached ELF tables; DynamicModule and Relinkage as objects, from relocation tables to memory |
| `Events.dfy`, `SpiedProgram.dfy` | what handleEvent decides; the event listener and the callbacks it queues |
| `WatchPoint.dfy` | the bit fields of DR7 and WatchPoint as an object |
| `ProcessStack.dfy` | `start`, against a reader of the System V AMD64 psABI, section 3.4.1 |
| `SpyLoader.dfy` | thread keys replicated over namespaces |
| `Options.dfy`, `Words.dfy` | optional values; 64-bit words as bytes of memory |

The objects of `SpiedThread.dfy`, `Breakpoint.dfy` and `CallbackHandler.dfy` carry the run of steps
that led to their state. Wherever the source lets other threads in, their methods let the worker,
other producers and the tracee take any number of steps, so a theorem about all runs is a theorem
about the objects under every interleaving.

## What is assumed

- `resume` is one step with respect to `handleEvent`. In the source the CONT is queued before the
  state leaves STOPPED.
- `jump` is called only while the thread is STOPPED. `setDr6` and `singleStep` may be called at any
  time, as `handleEvent` itself does after a clone event.
- A stop is reported to `handleEvent` after the command that caused it has run. It may come late: a
  later CONT or SINGLESTEP may be queued already, or have been executed. The model lets reports come
  at any time while the thread is not known to be stopped, which is more than the kernel does. Events
  other than stops are also reported only while the thread is not known to be stopped.
- Executing SINGLESTEP includes the step. The timed wait in `singleStep` is already satisfied when
  it is entered in state STOPPED, because nothing leaves STOPPED; it is not a wait for the trap.
- ptrace requests on a stopped thread succeed, and on a running one they fail and change nothing,
  except that PTRACE_POKEDATA is taken to succeed on mapped memory.
- For a thread at a breakpoint, the stepped instruction and other producers do not write the
  breakpoint's own eight bytes, and the write that planted the INT3 has reached memory.
- Runs of `set` and `unset` of breakpoints: each write has reached memory before the next call.
- mprotect's verdict is a parameter of the operations on one relinkage; in runs over several it
  succeeds. Dynamic symbols and relocations index into their tables.
- Bits 8 to 15 of DR7 are not all ones (bit 12 is reserved and zero), so a value read from DR7 is not
  -1; the requests of one `set` or `unset` of a watchpoint find the thread either stopped throughout
  or running throughout.
- The stack that `start` writes to has room for what it pushes.
- All copies of libpthread hand out keys by the same function of their table, a call of it that
  fails changes nothing, and nobody creates keys past SpyLoader.
- The Tracer thread has reached its loop before the Tracer is destroyed.

## Where the code does not do what one expects

Each of these is proved, with the exact condition where there is one.

- Between the return of `singleStep` and the report of its trap, a read returns what the cache held
  before the step, unless nothing had been read since the last report or that makes no difference
  (`StepWindow.ReadInWindowIsRightExactlyIf`). The same holds of a step that follows an unreported one.
- A `jump` or `setDr6` in that window, resumed before the report, puts back everything the cache held
  over what the step did, under the same condition (`StepWindow.ReleaseFromWindowIsRightExactlyIf`,
  `StepWindow.JumpAfterStepIsRightExactlyIf`); if the report comes before the resumption, the write is
  dropped instead (`StepWindow.ReportDropsWrites`). `StepWindow.StaleReadHappens` and
  `StepWindow.LostStepHappens` are runs from the start that do so.
- STOPPED means stopped throughout a run exactly if every report in it comes in time: while the thread is
  stopped and nothing is queued that would let it go (`LateReports.AlwaysStoppedExactlyIf`,
  `LateReports.ReportKeepsStoppedExactlyIf`). A report that comes while a CONT is queued, or after it has
  run, leaves STOPPED and a running thread (`LateReports.LateReportLeavesStopped`,
  `LateReports.LateReportHappens`).
- The event handler's read of DR6 sees the stop it was told of exactly if the report came in time
  (`LateReports.HandlerReadsReportedStopExactlyIf`). If the thread runs when the worker gets to the read,
  the read fails, and the error value passes for a hit of watchpoint 0 (`LateReports.ErrorValueIsHit`,
  `LateReports.LateHitHappens`); if it has stopped again by then, the read sees that stop.
- A CONT finds the registers that were loaded at a late report, unless a write-back was queued ahead
  of it at that time, by a jump or setDr6 before the report, and made a difference
  (`CacheTheorems.ReleaseSeesDirectFile`).
- A command or callback that is pushed while the worker is between seeing its queue empty and testing
  whether to stop is run exactly if nobody has told it to stop by then; pushed at any other time it is
  always run (`CommandQueue.PushedInWindowIsRunExactlyIf`, `CommandQueue.PushedInTimeIsRun`). Runs
  that drop one exist for both queues (`CommandQueue.LateCommandIsDropped`).
- `writeRelocations` writes nothing at all when there is only one slot, or the slots are listed
  downwards (`Relinkages.WritesExactlyIfRising`), and leaves out the last page when the highest slot
  starts it (`Relinkages.PagesAreUnprotectedExactlyIf`).
- A relinkage restores memory exactly if mprotect decides alike in the constructor and in the first
  `invalidate`, or there was nothing to change (`Relinkages.LifeRestoresExactlyIf`). Refused in
  `invalidate` only, the slots stay patched for good; refused in the constructor only, it is
  `invalidate` that patches them, while the destination is being destroyed
  (`Relinkages.MixedVerdictsLeaveSlotsPatched`).
- Destinations that share a slot, and breakpoints that overlap, restore memory when undone in reverse
  order (`RelinkRuns.LastLinkedFirstUnlinkedRestores`, `BreakPointRuns.LastInFirstOutRestores`), and
  out of order only in the cases named by `RelinkRuns.SharedSlotKeepsFirstAddress` and
  `BreakPointRuns.OutOfOrderRestoresExactlyIf`.
- The first SIGTRAP after a `singleStep` that has not given up is taken for the end of the step whatever it
  is. If the step faulted, or its own trap was overtaken by the resumption, the next breakpoint hit is lost
  (`SpiedPrograms.FirstTrapAfterStepIsNoHit`; `BreakPoints.BreakPoint.ResumeAndSet` says when
  the flag stays up). When a breakpoint stop is dispatched is said by
  `SpiedPrograms.BreakPointStopIsDispatchedExactlyIf`.
- `WatchPoint::set` assigns `_addr` before it knows whether it succeeds
  (`WatchPoints.AddressMatchesExactlyIf`).
- A key created past SpyLoader makes its next creation fail, and leaves the key behind in the
  namespaces it got to (`SpyLoaders.KeyBehindTheBackBreaksCreate`).

## Model

| member | source | states |
|---|---|---|
| CacheTheorems.ReadsSeeDirectFile | source/SpiedThread.cpp:183-263 | in every run, late reports included, a read that has been consumed on a thread known to be stopped returns the registers loaded at the report overlaid with the writes since, whichever future it was, and nothing queued will let the thread go |
| CacheTheorems.ReleaseSeesDirectFile | source/SpiedThread.cpp:42-69 | in every run, when the worker executes the CONT or SINGLESTEP of a reported thread, its registers are that overlay exactly if the report did not come behind a queued write-back that made a difference; in any case they are the ones that were due |
| CacheTheorems.NoLateOverwrite | source/SpiedThread.cpp:213-263 | in every run, while `_futureRegs` is not valid no GETREGS into `_regs` is queued, and none is ever queued ahead of a SETREGS |
| CacheTheorems.QueuedWriteIsStable | source/SpiedThread.cpp:237-250 | a queued SETREGS, which reads `_regs` when it runs, finds the value present when it was queued, whatever happens meanwhile |
| CacheTheorems.RunKeepsReleasedAs | source/SpiedThread.cpp:42-69 | nothing that happens after a CONT or SINGLESTEP was queued changes what the tracee looks like when it runs |
| CacheTheorems.WaitsEnd | source/SpiedThread.cpp:183-235 | a blocking wait ends after exactly as many worker iterations as there are commands up to the awaited one, however many are queued behind it |
| StepWindow.ReadInWindowIsRightExactlyIf | source/SpiedThread.cpp:53-69 | after any run to a halted thread, reported or not, a step, and anything but a report or a resumption: what has been read, of the registers and of DR6, is what the step left with the writes since exactly if the cache was old when the step began or held just that, and otherwise what it held then with the writes since |
| StepWindow.ReleaseFromWindowIsRightExactlyIf | source/SpiedThread.cpp:213-250 | the same run and then a resumption: its CONT finds what the step left with the writes since exactly if nothing is written back, the cache was old when the step began, or it held just that; otherwise what the cache held before the step with the writes since |
| StepWindow.JumpAfterStepIsRightExactlyIf | source/SpiedThread.cpp:213-223 | a jump after a step, resumed before the report, keeps what the step did to the other registers exactly if nothing had been read since the last report or the step did nothing to them |
| StepWindow.ReportDropsWrites | source/SpiedThread.cpp:31-40 | a report before the resumption drops the writes: the CONT finds the tracee as the step left it |
| StepWindow.CachedIsDirect | source/SpiedThread.cpp:183-263 | the cache of a thread at rest, once it has been read, holds the direct file |
| StepWindow.StaleReadHappens | source/SpiedThread.cpp:53-69 | a run from the start to a cache that is taken for good and is wrong, for every step that changes a register |
| StepWindow.LostStepHappens | source/SpiedThread.cpp:53-69 | a run from the start in which a thread goes on from the registers it had before its step |
| LateReports.AlwaysStoppedExactlyIf | source/SpiedThread.cpp:265-289 | STOPPED means stopped throughout a run exactly if every report in it comes while the thread is stopped with nothing queued that would let it go |
| LateReports.ReportKeepsStoppedExactlyIf | source/SpiedThread.cpp:288-289 | the same of a single report, whatever the state |
| LateReports.LateReportLeavesStopped | source/SpiedThread.cpp:288-289 | a report that comes after the CONT has run, or with the CONT queued once the worker has got to it, leaves the state STOPPED and the thread running |
| LateReports.ErrorValueIsHit | source/SpiedThread.cpp:301-309 | the error value passes for a hit of watchpoint 0 |
| LateReports.LateReportHappens | source/SpiedThread.cpp:288-289 | runs from the start to STOPPED with the thread running, for both kinds of late reports |
| LateReports.LateHitHappens | source/SpiedThread.cpp:301-309 | a run from the start to a hit of watchpoint 0 that nobody set |
| LateReports.HandlerReadsReportedStopExactlyIf | source/SpiedThread.cpp:265-310 | in every run, the handler's read of DR6 is answered during the stop that was reported, with its value, exactly if the report came in time; otherwise with the error value if the thread runs then, and with another stop's value if not |
| RegisterCache.StepKeepsInv | source/SpiedThread.cpp:31-69 | every client call, event, worker iteration and step of the tracee keeps the cache invariant with respect to the direct register file |
| RegisterCache.RunKeepsInv | source/SpiedThread.cpp:31-263 | the cache invariant holds after every run |
| SpiedThreads.Tracer.CommandPTrace | include/Tracer.h:73-90 | the request goes to the end of the queue and the future is its own ticket |
| SpiedThreads.Tracer.RunFront | source/Tracer.cpp:84-95 | one worker iteration executes exactly the head of the queue on tracee, memory and buffer |
| SpiedThreads.SpiedThread.ReadRegisters | source/SpiedThread.cpp:252-263 | the read step of the model, with any requests of others between the two commands; the direct file is unchanged |
| SpiedThreads.SpiedThread.GetRip | source/SpiedThread.cpp:183-191 | returns the direct file's rip on a settled thread and changes no register |
| SpiedThreads.SpiedThread.GetDr6 | source/SpiedThread.cpp:203-211 | returns the direct file's DR6 on a settled thread and changes no register |
| SpiedThreads.SpiedThread.Jump | source/SpiedThread.cpp:213-223 | the direct file changes in rip only |
| SpiedThreads.SpiedThread.SetDr6 | source/SpiedThread.cpp:225-235 | in state STOPPED the direct file changes in DR6 only, otherwise not at all |
| SpiedThreads.SpiedThread.WriteRegisters | source/SpiedThread.cpp:237-250 | exactly the dirty parts are queued, registers first, a part whose future is unread is not |
| SpiedThreads.SpiedThread.Resume | source/SpiedThread.cpp:42-51 | enqueues one CONT with the signal; it is the next command to let the tracee go exactly if the tracee is stopped and none is queued, and then finds the direct file in its registers and no reserved word changed |
| SpiedThreads.SpiedThread.SingleStep | source/SpiedThread.cpp:53-69 | in any state: in STOPPED it returns true once the step is taken; otherwise it returns whether a stop was reported in time, and lowers the flag if not; its SINGLESTEP finds the direct file in a tracee at rest |
| SpiedThreads.SpiedThread.HandleStop | source/SpiedThread.cpp:265-334 | for every stop: decides as `Events.HandleEvent` says on the DR6 it reads; of commands that let the thread go it enqueues exactly one CONT with the signal if it does not know it, one with 0 for a clone event, and none otherwise; for a report in time the DR6 is the real one, a CONT finds the registers of the reported stop, and otherwise the direct file becomes those with the hit's bit acknowledged; for a clone event of a running thread the DR6 is the value read last |
| SpiedThreads.SpiedThread.HandleChange | source/SpiedThread.cpp:269-286 | for the other events: handled, the state follows, the cache is dropped and nothing that lets the thread go is enqueued |
| SpiedThreads.SpiedThread.ScanWatchPoints | source/SpiedThread.cpp:301-310 | finds the lowest status bit set in what it reads, and clears that one only |
| Reserved.IdledKeeps | source/Tracer.cpp:80-96 | while the client waits, background activity leaves its cache, a stopped tracee's registers and all reserved words alone |
| Reserved.LetGoReleases | source/SpiedThread.cpp:42-69 | what resuming or stepping releases: the direct file, and memory that spares the reserved words |
| BreakPoints.PatchedOctets | source/Breakpoint.cpp:16-29 | the patched word differs from the original in its first byte, which is 0xCC |
| BreakPoints.BreakPoint.Set | source/Breakpoint.cpp:16-29 | backs up the word in memory and queues it with INT3 in its first byte, or does nothing if set |
| BreakPoints.BreakPoint.Unset | source/Breakpoint.cpp:32-39 | queues the backed-up word, or does nothing if not set |
| BreakPoints.BreakPoint.StepOver | source/Breakpoint.cpp:46-49 | SINGLESTEP executes with rip at the breakpoint and the original word in memory |
| BreakPoints.BreakPoint.ResumeAndSet | source/Breakpoint.cpp:41-58 | exactly one SINGLESTEP and then one CONT without a signal are enqueued; SINGLESTEP as above; then CONT executes with the registers the step left, INT3 back in memory and the backup unchanged, whatever runs between the statements and whenever the trap is handled in between; the step stays expected exactly if it was not |
| BreakPoints.BreakPoint.ResumeAndUnset | source/Breakpoint.cpp:60-63 | one CONT without a signal is enqueued; it executes with rip at the breakpoint and the original word in memory, whatever runs between the statements |
| BreakPointRuns.RunsLeaveExactlyTheSetOnes | source/Breakpoint.cpp:16-39 | after any run over breakpoints eight bytes apart, memory is the original with 0xCC exactly at those whose last operation was a set |
| BreakPointRuns.LastInFirstOutRestores | source/Breakpoint.cpp:16-39 | however words overlap, unsetting in reverse order restores memory |
| BreakPointRuns.OutOfOrderRestoresExactlyIf | source/Breakpoint.cpp:16-39 | unsetting two in the order they were set restores memory exactly if the second word does not take in the first INT3, or the byte was one already |
| CommandQueue.RunsInOrder | source/Tracer.cpp:80-96 | under any interleaving the executed commands are a prefix of the enqueued ones, and the running head stays the head |
| CommandQueue.PromisesKept | include/Tracer.h:77-84 | a promise is fulfilled exactly when its command has run, for its own request, for good |
| CommandQueue.PromiseHoldsOwnResult | include/Tracer.h:81-84 | over every run, a promise holds the result with which the worker finished that very command |
| CommandQueue.SemaphoreCountsPosts | source/Tracer.cpp:80-96 | in every run the semaphore is the number of posts less the number of waits |
| CommandQueue.NoLostWakeup | source/Tracer.cpp:80-96 | at sem_wait the queue is no longer than the semaphore count plus the producers between push and post; a blocked worker with none of those has an empty queue |
| CommandQueue.ExitLeavesOnlyLateCommands | source/CallbackHandler.cpp:35-52 | the loop is left only after the queue was seen empty; whatever is never run was pushed later, and nothing a running callback pushed is among it |
| CommandQueue.PushedInTimeIsRun | source/CallbackHandler.cpp:35-52 | a command pushed while the worker is anywhere else is always run before the worker leaves |
| CommandQueue.PushedInWindowIsRunExactlyIf | source/CallbackHandler.cpp:48-50 | a command pushed between the last look at the queue and the test is run exactly if nobody has told the worker to stop by its next step |
| CommandQueue.LateCommandIsDropped | source/CallbackHandler.cpp:48-50 | from the start, for either queue, a run in which a command pushed and posted before the destructor starts never runs |
| CommandQueue.WorkerAdvances | source/Tracer.cpp:80-96 | each worker step brings a waiting command closer or runs it; producers never push it back |
| CommandQueue.NeverStuck | source/Tracer.cpp:80-96 | while a command waits, the worker or a producer in the middle of its call can step; no lock of a waiting client is needed |
| CommandQueue.WaitIsBounded | source/Tracer.cpp:80-96 | a command is run within a number of worker steps fixed by what was ahead of it |
| CallbackHandlers.Handler.HandleCallback | source/CallbackHandler.cpp:35-52 | the loop follows the lock-level steps; when it returns, what it ran is what had been pushed when it last saw the queue empty, nested pushes included |
| CallbackHandlers.Handler.RunCommands | source/Tracer.cpp:86-95 | the loop that runs the head in place and then pops it follows the lock-level steps |
| CallbackHandlers.Handler.HeadStays | source/Tracer.cpp:87-93 | the reference to the front stays the command being run while the mutex is released |
| CallbackHandlers.Handler.Trace | source/Tracer.cpp:80-99 | when the worker stops, what it ran is what had been enqueued when it last saw the queue empty |
| CallbackHandlers.Handler.Elsewhere | source/CallbackHandler.cpp:15-33 | executeCallback, commandPTrace and the destructor, statement by statement, are steps of the queue |
| Relinkages.WritesExactlyIfRising | source/Relinkage.cpp:48-60 | slots are written exactly when some slot is followed by a higher one |
| Relinkages.PagesAreUnprotectedExactlyIf | source/Relinkage.cpp:48-67 | for ascending aligned slots the bounds are the true ones, and every byte written lies in a page made writable exactly if the highest slot does not start a page |
| Relinkages.SwapExchanges | source/Relinkage.cpp:69-77 | on distinct slots the loop is one simultaneous exchange of memory and saved values |
| Relinkages.WriteTwiceRestores | source/Relinkage.cpp:48-84 | writeRelocations undoes itself on memory and saved values |
| Relinkages.LifeRestores | source/Relinkage.cpp:11-46 | with mprotect succeeding, construction followed by any number of invalidations, destructor included, restores memory |
| Relinkages.LifeRestoresExactlyIf | source/Relinkage.cpp:11-67 | for all verdicts of mprotect, memory is restored exactly if the constructor and the first invalidation got the same one, or there was nothing to change |
| Relinkages.MixedVerdictsLeaveSlotsPatched | source/Relinkage.cpp:11-67 | with different verdicts every slot ends up holding the address of the destination |
| RelinkRuns.SlotsAfterAnyRun | source/DynamicModule.cpp:94-128 | after every run of relink, unrelink and destruction, slots of relinkages in force hold the destination's addresses and all other memory its original values |
| RelinkRuns.LinksAreHistory | source/DynamicModule.cpp:94-120 | which links a run leaves, and which are valid, told from its operations alone: those whose last operation is a relink, and whose destination lives |
| RelinkRuns.SlotsByHistory | source/DynamicModule.cpp:94-120 | what every word of memory holds after a run, told from the tables and the operations alone |
| RelinkRuns.RelinksAreAllowed | source/DynamicModule.cpp:102-120 | any sequence of relinks and unrelinks is a run |
| RelinkRuns.DestroyedLeavesNoAddress | source/DynamicModule.cpp:94-100 | after a destination is destroyed no slot holds the address it gave, unless it did originally |
| RelinkRuns.RelinkTwiceIsOnce | source/DynamicModule.cpp:102-116 | relinking twice is relinking once, on memory and registries |
| RelinkRuns.UnrelinkUndoesRelink | source/DynamicModule.cpp:102-120 | unrelinking undoes relinking, on memory and registries |
| RelinkRuns.LastLinkedFirstUnlinkedRestores | source/DynamicModule.cpp:102-120 | whichever slots they share, relinkages undone in reverse order leave memory as it was |
| RelinkRuns.SharedSlotKeepsFirstAddress | source/DynamicModule.cpp:102-120 | two destinations of one slot, unlinked in the order they were linked, leave the first one's address |
| RelinkRuns.DestroyInvalidatesEach | source/DynamicModule.cpp:94-97 | the loop over the in registry has the same effect on memory in the runs and in the object |
| ElfFiles.RelaOfHasAll | source/ElfFile.cpp:151-165 | an entry is in the concatenation exactly if some SHT_RELA section holds it |
| ElfFiles.RelaOfPlaces | source/ElfFile.cpp:151-165 | each entry stands behind those of the SHT_RELA sections before its own, in order, and there is nothing else |
| ElfFiles.DynSymIsFirst | source/ElfFile.cpp:99-113 | the dynamic symbols are those of the first SHT_DYNSYM section, or none |
| ElfFiles.DynamicIsFirst | source/ElfFile.cpp:67-81 | the dynamic entries are those of the first SHT_DYNAMIC section, or none |
| ElfFiles.DynStrIsFirst | source/ElfFile.cpp:133-149 | the dynamic strings are those of the first loaded SHT_STRTAB section other than that of section names, or none |
| ElfFiles.ElfFile.GetRela | source/ElfFile.cpp:151-165 | the cached view is always the concatenation of all SHT_RELA sections |
| ElfFiles.ElfFile.GetDynSymTab | source/ElfFile.cpp:99-113 | the cached view is always the first SHT_DYNSYM section |
| ElfFiles.ElfFile.GetDynamic | source/ElfFile.cpp:67-81 | the cached view is always the first SHT_DYNAMIC section |
| ElfFiles.ElfFile.GetDynStrTab | source/ElfFile.cpp:133-149 | the cached view is always the first allocated string table that does not name sections |
| DynamicModules.LookupFindsFirst | source/DynamicModule.cpp:29-46 | the lookup yields the address of the first matching function or object, and null if there is none |
| DynamicModules.NameAtSpells | source/DynamicModule.cpp:29-46 | a name is the NUL-free stretch at its offset, up to a NUL or the end of the table, and nothing else |
| DynamicModules.LookupIsAt | source/DynamicModule.cpp:29-46 | in terms of the raw tables: the lookup yields base plus value of the first function or object defined under the whole name |
| DynamicModules.RelinkagePatchesExactlyItsSlots | source/Relinkage.cpp:11-31 | in terms of the raw tables: when slots are written, every entry of type 6 or 7 holds the address of the first function or object that the destination defines under the entry's whole string, and all other memory is unchanged |
| DynamicModules.CollectedExactly | source/Relinkage.cpp:18-28 | the collected relocations are exactly those entries |
| DynamicModules.CollectedInOrder | source/DynamicModule.cpp:145-156 | one relocation for each such entry, in the order of the entries |
| DynamicModules.DynamicModule.GetDynamicSymbol | source/DynamicModule.cpp:29-46 | the loop with its early exit computes the lookup |
| DynamicModules.DynamicModule.Relink | source/DynamicModule.cpp:102-116 | a needed destination's old relinkage is undone and leaves its registry, a new one is constructed and registered, and no other registry changes; otherwise nothing changes |
| DynamicModules.DynamicModule.NeedsExactlyIf | source/DynamicModule.cpp:106-107 | in terms of the raw tables: the module has an entry of tag 1 that spells the name |
| DynamicModules.DynamicModule.Unrelink | source/DynamicModule.cpp:118-120 | the relinkage is undone and leaves both registries; no other registry changes |
| DynamicModules.DynamicModule.Destroy | source/DynamicModule.cpp:94-97 | each relinkage of the in registry is invalidated once, in some order |
| DynamicModules.Relinkage.constructor | source/Relinkage.cpp:11-31 | memory and saved values are those of the specification on the two modules' tables, and the destination registers the relinkage |
| DynamicModules.Relinkage.WriteRelocations | source/Relinkage.cpp:48-84 | both loops compute the guard and the swap of the specification in place |
| DynamicModules.Relinkage.Invalidate | source/Relinkage.cpp:38-46 | swaps back at most once |
| SpiedPrograms.TidsStayDistinct | source/SpiedProgram.cpp:83-125 | over every event stream the tids are pairwise distinct, and exactly those that had events |
| SpiedPrograms.StateIsHistory | source/SpiedProgram.cpp:83-140 | threads, expected steps, breakpoints and the creation callback are what the history of items says |
| SpiedPrograms.QueuedExactly | source/SpiedProgram.cpp:117-140 | exactly which callback an event queues, at most one, told from the history alone |
| SpiedPrograms.ExpectedTrapHitsNoBreakPoint | source/SpiedThread.cpp:290-294 | a SIGTRAP while a step is under way is never dispatched as a breakpoint hit |
| SpiedPrograms.BreakPointStopIsDispatchedExactlyIf | source/SpiedProgram.cpp:133-139 | a stop at a breakpoint of a known thread queues its hit exactly if no step is under way, it is no clone event and no status bit is set |
| SpiedPrograms.FirstTrapAfterStepIsNoHit | source/SpiedThread.cpp:290-294 | the first SIGTRAP after a singleStep that has not given up queues no breakpoint hit, however late it comes and wherever the thread is; after it no step is under way |
| SpiedPrograms.GivenUpStepHidesNothing | source/SpiedThread.cpp:62-66 | after a singleStep that has given up its wait, the next stop at a breakpoint is dispatched unless it is a clone event or a status bit is set |
| SpiedPrograms.FaultDuringStepIsLookedUp | source/SpiedThread.cpp:311-320 | a segmentation fault during the step queues a hit exactly if the thread is one past a breakpoint, and the step stays expected |
| SpiedPrograms.CreationIsQueuedFirst | source/SpiedProgram.cpp:120-132 | a creation is queued at most once, before every other callback of its thread |
| SpiedPrograms.CreationIsRunFirst | source/CallbackHandler.cpp:35-52 | when a hit has been run, the creation of its thread, if queued, was run earlier, whoever else pushes: the pushes of the dispatcher are those that decode to its callbacks |
| SpiedPrograms.SpiedProgram.ListenEvent | source/SpiedProgram.cpp:77-143 | the loop, with clients' calls in between, computes the dispatcher's run |
| SpiedPrograms.SpiedProgram.Dispatch | source/SpiedProgram.cpp:117-140 | one event, searches included, is one step of the dispatcher |
| SpiedPrograms.SpiedProgram.HandleEventOf | source/SpiedThread.cpp:265-334 | the branches of handleEvent decide as `Events.HandleEvent` says |
| Events.Triggered | source/SpiedThread.cpp:302-310 | the lowest debug-status bit that is set |
| Events.FlaggedIsBit | source/SpiedThread.cpp:302-303 | the flag of watchpoint i is bit i of DR6 |
| Events.AcknowledgedClearsOnlyTheHit | source/SpiedThread.cpp:304 | acknowledging a hit clears that bit and no other |
| WatchPoints.RegistersDecodeAfterAnyRun | source/WatchPoint.cpp:22-84 | after any run over the four watchpoints, the processor reads in the low half of DR7, slot by slot, `isSet` and the access and the number of bytes asked for last; DRi holds the last address set, and bits 8 to 15 are unchanged |
| WatchPoints.CodesMean | include/WatchPoint.h:18-30 | the codes mean to the processor what they are called |
| WatchPoints.SetStaysWithinOwnBits | source/WatchPoint.cpp:37-43 | despite sign extension, set touches only its own bits of the low half |
| WatchPoints.SetWritesOwnFields | source/WatchPoint.cpp:37-43 | whatever was there, the fields of the slot decode to enabled, trigger and size |
| WatchPoints.UnsetClearsOwnEnable | source/WatchPoint.cpp:72-73 | unset clears the slot's enable bits and keeps its other fields |
| WatchPoints.FieldsOutsideOwnBits | source/WatchPoint.cpp:37-43 | an operation within one slot's bits preserves the fields of the others and bits 8 to 15 |
| WatchPoints.AddressMatchesExactlyIf | source/WatchPoint.cpp:26-35 | getAddr() agrees with DRi exactly if the last address asked for is the one that last took effect |
| WatchPoints.DebugRegisters.Get | source/WatchPoint.cpp:24-31 | a future yields the DR7 left by everything queued before it |
| WatchPoints.WatchPoint.Set | source/WatchPoint.cpp:22-56 | once its requests are served, registers and fields are those of the specification, on success and on failure |
| WatchPoints.WatchPoint.Unset | source/WatchPoint.cpp:58-84 | likewise |
| ProcessStacks.Start | source/DynamicNamespace.cpp:183-219 | the final pointer is 16-byte aligned, a psABI reader recovers argc, argv, envp and a null auxiliary tag from it, argc + 4 + the environment's length words are pushed plus at most one zero, and nothing below or above changes |
| ProcessStacks.ReadsBack | source/DynamicNamespace.cpp:198-219 | the layout reads back to what the program was started with, whatever lies above |
| ProcessStacks.OnlyThisLayoutReadsBack | source/DynamicNamespace.cpp:198-219 | any stack that reads so begins with this layout |
| ProcessStacks.PaddingAligns | source/Loader.cpp:17-23 | the pad decided before pushing leaves the final pointer 16-byte aligned |
| SpyLoaders.ReplicasBehaveAsOne | source/SpyLoader.cpp:207-244 | over every run equal replicas stay equal and return what a single table would |
| SpyLoaders.StepOnReplicas | source/SpyLoader.cpp:207-244 | on equal replicas no incoherence or later failure occurs, and a failing call changes no replica |
| SpyLoaders.CreateSucceedsExactlyIf | source/SpyLoader.cpp:207-230 | on any tables, creation succeeds exactly if every namespace hands out the base namespace's key |
| SpyLoaders.CallStopsAtFirstFailure | source/SpyLoader.cpp:207-244 | on any tables, a call of either kind reaches the namespaces up to the first that fails or disagrees, returns its error, and leaves the others alone |
| SpyLoaders.KeyBehindTheBackBreaksCreate | source/SpyLoader.cpp:223-226 | one key created past SpyLoader makes the next creation fail half done |
| SpyLoaders.SpyLoader.PthreadKeyCreate | source/SpyLoader.cpp:207-230 | the loop with its early exits computes the specification |
| SpyLoaders.SpyLoader.PthreadKeyDelete | source/SpyLoader.cpp:232-244 | the loop with its early exit computes the specification |

## Left out

- SpiedThreads.SpiedThread.HandleStop: the DR6 that is scanned after a late report is tied to the tracee by `LateReports` over runs, not by the contract of the method; and after a clone event only if the thread was not in state STOPPED before and no read of DR6 was awaited.
- SpiedThreads.SpiedThread.AwaitStop: the handler's calls during the wait are whole calls of `handleEvent`, one after the other.
- SpiedPrograms.SpiedProgram.Dispatch: DR6 and rip are inputs of an event; that they are the thread's real values is what `SpiedThreads` proves, for one thread at a time.
- CallbackHandlers.Handler.HandleCallback: all other threads together take a bounded, arbitrary number of steps, so that the method returns; `waiting` says that it is still blocked then.
- WatchPoints.RegistersDecodeAfterAnyRun: only bits 0 to 31 of DR7; the signed shifts of slot 3 extend into the upper half, which the kernel reserves.
- RelinkRuns.SlotsAfterAnyRun: calls on a relinkage after its destination is gone, slots of a source after its own dlclose, and two destinations that define one slot (but for `LastLinkedFirstUnlinkedRestores` and `SharedSlotKeepsFirstAddress`).
- BreakPointRuns.RunsLeaveExactlyTheSetOnes: set called while the write of an earlier unset is still queued.
- The registers of several threads at once: requests for other threads appear in a thread's queue as requests that leave its registers alone.
- stop, terminate, detach and backtrace beyond its read of rip: signals, timeouts and printing.
- createWatchPoint and deleteWatchPoint: no slot is ever marked as taken.
- Decoding of wait statuses: the listener starts from the decoded event.
- The system calls themselves, thread and process creation, dlopen, dlclose, dladdr, ELF file input: abstract steps or parameters.
- Logging and time measurement.
- The symbol search through the dynamic linker's private data, the repair of libpthread's stack list, static TLS and ctype initialisation, namespace identifiers and the pool of wrappers.
- getSymbol, getStrTab, getSymTab, getEntryPoint: the same lookups on other tables.
