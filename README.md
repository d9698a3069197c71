# MSP430 preemptive scheduler and PMM core-voltage ramp

A Dafny model of two sequential parts of the MSP430F5529 scheduler
tutorial:

- **The round-robin scheduler** (`src/scheduler/scheduler.c`,
  `src/scheduler/scheduler.h`):
  - `initialise_stack` builds a fake interrupt frame at the top of each
    task's stack;
  - `main` seeds the three stack pointers, selects task 0 and restores it;
  - the watchdog-timer handler `scheduler` saves the running task
    (SAVE_CONTEXT), records its SP in `stack_pointer[task_id]`, advances
    `task_id` round robin, loads the next SP and restores that task
    (RESTORE_CONTEXT and `reti`).
- **The PMM core-voltage ramp** (`src/scheduler/pmm.c`):
  - `setVCoreUp` raises the core level by one step, or rolls back when the
    supply is reported too low;
  - `setVCore` masks the target level, reads the current one and calls
    `setVCoreUp` level by level with interrupts disabled.

## Files

- **`msp430.dfy`** models the MSP430X core the scheduler runs on:
  - a word-addressed RAM (`Cpu.mem`);
  - the stack pointer as a word index into it;
  - R4..R15, SR and the 20-bit PC;
  - `push`, `pop`, interrupt acceptance (PC[15:0] is pushed, then the word
    holding PC[19:16] and SR[11:0], and every SR bit but SCG0 is cleared);
  - `reti`.
- **`context.dfy`** holds:
  - the constants of `scheduler.h`;
  - the frame layout (`EncodeFrame`/`DecodeFrame`);
  - SAVE_CONTEXT and RESTORE_CONTEXT as push and pop sequences on the live
    stack.
- **`scheduler.dfy`** holds:
  - `initialise_stack`;
  - the round-robin choice;
  - the scheduler state as the class `Kernel` (the globals `task_id`,
    `stack_pointer[]` and `temp`, plus the CPU);
  - its operations.

  The three stacks `task1ram`..`task3ram` are consecutive 1024-word regions
  of RAM: task k owns words `Base(k)` to `Base(k) + 1023`.

  `Kernel.Valid()` is the scheduler invariant. The running task has a
  well-formed context, and its SP lies in its own stack with room for an
  interrupt frame. Every other task is parked: the frame at its table entry
  encodes the context (ghost `saved`) it will resume with.

  `Kernel.Abstract()` maps the state to a `Sched` value. `Switch` is a tick
  on that value, and lemmas about `Switch` state what happens over many
  ticks.
- **`pmm.dfy`** holds:
  - the PMM registers as the class `Controller` (PMMCTL0 as its two bytes,
    PMMRIE, SVSMHCTL, SVSMLCTL and PMMIFG);
  - `setVCoreUp` as a sequence of small methods, one per block of source
    lines;
  - `setVCore` as its loop.

  Each method is proved against a closed-form function: `StepUp` for one
  step, `Ramp` for the loop. The lemmas about those functions state what
  the code promises.

  The PMMIFG bits the hardware raises while the code waits are given by a
  `Settle` value per call: the flags seen at the end of each wait on the
  path taken. This stands for the analog settling of the supervisors.
  `Oracle` maps each level to the `Settle` value of its call.

The bit values of the PMM and SR constants come from the TI MSP430F5xx
device header `msp430f5529.h`. That header is not part of this model; the
values are declared as named constants.

### The code as written

The model follows `pmm.c` as written, including these C precedence
effects:

- **pmm.c:34** is `PMMIFG & SVMHIFG == SVMHIFG`. Comparison binds tighter
  than `&`, so this is `PMMIFG & 1`. The rollback is taken exactly when bit
  0 (SVSMLDLYIFG) is set, not when SVMHIFG is set (`ShortfallIsBitZero`).
- **pmm.c:41, 62 and 73** are `PMMIFG & X == 0` with X nonzero, so the mask
  is 0 and these waits never loop (`HighWaitGuard`, `LowWaitGuard`).
- **The failure value.** `return (-1)` in a `uint16_t` function is 0xFFFF.
  Stored in `uint8_t status` it becomes 0xFF (`StatusByte`). The same holds
  for `status = -1` when the target is below the current level.
- **`actlevel` advances before a step.** `++actlevel` is evaluated before
  `setVCoreUp` runs, so it advances even when that step fails.

### Seven ticks

Starting from task 0, the order 0, 1, 2, 0, 1, 2, 0 takes six ticks. The
seventh tick hands over to task 1, following the `task_id` update at
scheduler.c:218-225 (`StartOrder`).

## Model

| member | source | states |
|---|---|---|
| Msp430.SrSlot | src/scheduler/scheduler.c:126 | bits 15:12 of the stacked status word are PC[19:16], bits 11:0 are SR[11:0] |
| Msp430.ResumePc | src/scheduler/scheduler.h:45 | the PC rebuilt by `reti` takes bits 19:16 from bits 15:12 of the status word and bits 15:0 from the second word |
| Msp430.PcRoundTrip | src/scheduler/scheduler.h:45 | `reti` on the two words stacked for a PC gives back that 20-bit PC |
| Msp430.Cpu.constructor | src/scheduler/scheduler.c:24-26 | an initial CPU with zero-filled RAM, as the zero-initialised task stack arrays are; the register values are placeholders that `Kernel.Boot` overwrites |
| Msp430.Cpu.Push | src/scheduler/scheduler.h:18-29 | SP drops by one and only the word at the new SP changes, to the pushed value |
| Msp430.Cpu.Pop | src/scheduler/scheduler.h:33-44 | the word at SP is read and SP rises by one; RAM is unchanged |
| Msp430.Cpu.InterruptEntry | src/scheduler/scheduler.c:203-204 | SP drops by two, the two words below the old SP become the status word and PC[15:0] and nothing else in RAM changes, SR keeps only SCG0 (so GIE is clear), PC is the vector |
| Msp430.Cpu.Reti | src/scheduler/scheduler.h:45 | SR comes from bits 11:0 of the word at SP, PC is rebuilt from that word and the next, SP rises by two |
| Context.ConstantFacts | src/scheduler/scheduler.h:7-15 | DEFAULT_SR is GIE together with SCG0 and has no bit above bit 11; STACK_TOP is 1023, the last index of a 1024-word stack; 12 + 2 frame words below STACK_TOP - 13 end one past STACK_TOP |
| Context.EncodeFrame | src/scheduler/scheduler.h:18-29 | the frame interrupt acceptance plus SAVE_CONTEXT leave, lowest address first: R15..R4, the status word, PC[15:0]; always 14 words |
| Context.DecodeFrame | src/scheduler/scheduler.h:32-45 | the restored context has twelve registers, SR from bits 11:0 of the thirteenth word, and a PC whose two stacked words are the last two words |
| Context.DecodeEncode | src/scheduler/scheduler.h:17-45 | restoring the frame saved for a context gives back exactly that context (registers, SR, PC) |
| Context.EncodeDecode | src/scheduler/scheduler.h:32-45 | every 14-word frame is the encoding of the context it restores to, so the restore reads every word |
| Context.SaveContext | src/scheduler/scheduler.h:17-30 | SP drops by 12 and the twelve words from the new SP are R15 down to R4 (R4 pushed first); nothing else in RAM changes |
| Context.PopRegisters | src/scheduler/scheduler.h:33-44 | the twelve pops yield R4..R15 in register order, read from the twelve words at SP in reverse, and SP rises by 12 |
| Context.RestoreContext | src/scheduler/scheduler.h:32-46 | SP rises by 14 and the live context is the one the 14 words at the old SP decode to |
| Context.PushFrame | src/scheduler/scheduler.c:203-205 | interrupt acceptance plus SAVE_CONTEXT writes the running context as one frame just below the old SP, changes nothing else in RAM, keeps the registers and clears every SR bit but SCG0 |
| Context.SaveThenRestore | src/scheduler/scheduler.h:17-46 | a save followed directly by the restore leaves registers, SR, PC and SP as they were |
| Scheduler.NextTask | src/scheduler/scheduler.c:218-225 | the next task is below TOTAL_TASKS, differs from the current one and is (task + 1) mod 3 |
| Scheduler.TaskAfterIsModular | src/scheduler/scheduler.c:218-225 | after k ticks from task t the running task is (t + k) mod 3 |
| Scheduler.RoundReturns | src/scheduler/scheduler.c:218-225 | three more ticks bring back the same task |
| Scheduler.EachTaskOncePerRound | src/scheduler/scheduler.c:218-225 | any three consecutive ticks run each of the tasks 0, 1 and 2 once |
| Scheduler.StartOrder | src/scheduler/scheduler.c:190-225 | from task 0 the tasks run 0, 1, 2, 0, 1, 2, 0, and after seven ticks task 1 runs |
| Scheduler.EntryStatusWord | src/scheduler/scheduler.c:126 | the word stored below the entry address carries PC[19:16] of the entry in bits 15:12 and DEFAULT_SR in bits 11:0 |
| Scheduler.InitialiseStack | src/scheduler/scheduler.c:118-137 | PC[15:0] is stored at `top`, the status word at `top - 1`, nothing else is written, and the result is `top - 13` (`top - 1 - BACKUP_REGS`) |
| Scheduler.FreshFrame | src/scheduler/scheduler.c:123-136 | the frame at the returned index resumes at the entry address with SR = DEFAULT_SR, its registers being whatever the slots held |
| Scheduler.FreshSp | src/scheduler/scheduler.c:177-179 | each seeded table entry is STACK_TOP - 13 into its own task's stack, with the whole frame inside that stack |
| Scheduler.Seeded | src/scheduler/scheduler.c:177-179 | RAM after the three initialise_stack calls: each task's top two words are PC[15:0] and the status word, nothing else changes; same size as before |
| Scheduler.SeededFrame | src/scheduler/scheduler.c:177-179 | after the three initialise_stack calls each task's frame resumes at its own entry address with SR = DEFAULT_SR |
| Scheduler.StartContextsParked | src/scheduler/scheduler.c:177-179 | after seeding every task is parked at its fresh SP with a start context at its entry address and DEFAULT_SR |
| Scheduler.ParkRunning | src/scheduler/scheduler.c:203-215 | the running task, once its frame is pushed below its SP, is parked at SP - 14 with its live context |
| Scheduler.ParkedElsewhere | src/scheduler/scheduler.c:203-205 | pushing a frame inside one task's stack keeps every other task parked |
| Scheduler.Preempted | src/scheduler/scheduler.c:203-215 | after the running task's frame is pushed and its table entry set, every task is parked |
| Scheduler.Resumed | src/scheduler/scheduler.c:229-232 | restoring a parked task makes it the running one with SP just above its frame, and the others stay parked |
| Scheduler.StoreElsewhere | src/scheduler/scheduler.c:39-107 | a task writing its own stack keeps the frames of the suspended tasks, and so their contexts, intact |
| Scheduler.Switch | src/scheduler/scheduler.c:200-234 | a tick on the abstract state keeps task_id below TOTAL_TASKS and moves to the next task |
| Scheduler.SwitchesTask | src/scheduler/scheduler.c:218-225 | after k abstract ticks the running task is the k-th successor of the first |
| Scheduler.SwitchInterruptible | src/scheduler/scheduler.h:13-15 | a tick keeps GIE set in the running context and in every saved one, so ticks keep firing |
| Scheduler.StartInterruptible | src/scheduler/scheduler.c:186-187 | contexts started with DEFAULT_SR have GIE set |
| Scheduler.FullRoundReturns | src/scheduler/scheduler.c:200-234 | three ticks bring back the preempted task with the registers, SR, PC and SP it had; the only change is its recorded context and frame SP |
| Scheduler.Kernel.Valid | src/scheduler/scheduler.c:200-234 | the scheduler invariant: the running task's context is well formed, its SP lies in its own stack with room for a frame, every other task's frame sits at its table entry and decodes to its saved context |
| Scheduler.Kernel.constructor | src/scheduler/scheduler.c:24-34 | the globals before `main`: the table holds three zero entries, task_id and temp are 0 |
| Scheduler.Kernel.SeedStacks | src/scheduler/scheduler.c:177-179 | RAM holds the three seeded frames and the table is STACK_TOP - 13 into each task's stack |
| Scheduler.Kernel.Resume | src/scheduler/scheduler.c:229-232 | temp and SP are loaded from the selected task's entry, and the task runs with its saved context and SP one frame higher; the invariant holds |
| Scheduler.Kernel.Boot | src/scheduler/scheduler.c:177-197 | RAM is the seeded RAM and nothing else; task 0 runs at its entry address with SR = DEFAULT_SR and SP one past STACK_TOP, and temp is its table entry; the table is seeded; every task starts at its entry with DEFAULT_SR; the invariant holds |
| Scheduler.Kernel.Preempt | src/scheduler/scheduler.c:203-215 | RAM changes only by the running task's frame, written just below the old SP; SP and temp drop by one frame; the running task's entry in the table becomes that SP and every other entry is unchanged; its context is recorded; the registers are unchanged, SR keeps only SCG0 and PC is the vector; every task is parked |
| Scheduler.Kernel.Advance | src/scheduler/scheduler.c:218-225 | task_id becomes the next task, wrapping after the last |
| Scheduler.Kernel.Tick | src/scheduler/scheduler.c:200-234 | the invariant is kept and the state changes as `Switch` says: table entry of the preempted task set, next task running with its saved context and SP one frame above its entry, temp equal to that entry; the only change to RAM is the preempted task's frame just below its old SP |
| Scheduler.Kernel.TwoTicks | src/scheduler/scheduler.c:200-234 | two ticks act as two applications of `Switch` |
| Scheduler.Kernel.FullRound | src/scheduler/scheduler.c:200-234 | after three ticks the same task runs with the registers, SR, PC and SP it had, the table and saved contexts differing only in its own entry |
| Scheduler.Kernel.TaskStep | src/scheduler/scheduler.c:39-107 | a task changing its registers and SP within its own stack keeps the invariant |
| Scheduler.Kernel.TaskStore | src/scheduler/scheduler.c:39-107 | a task writing a word of its own stack keeps the invariant |
| Pmm.MaskFacts | src/scheduler/pmm.c:15-19 | the disabled PMMRIE bits are 0x3377, all six PMMIFG flags are 0x0077, the level-selection masks are 0x0307 |
| Pmm.HighWaitGuard | src/scheduler/pmm.c:41 | the guard of the waits at lines 41 and 62 is always false |
| Pmm.LowWaitGuard | src/scheduler/pmm.c:73 | the guard of the wait at line 73 is always false |
| Pmm.Shortfall | src/scheduler/pmm.c:34 | the rollback test as C parses it, `PMMIFG & (SVMHIFG == SVMHIFG)`, on the flags left after the first settle-wait |
| Pmm.HighSideWord | src/scheduler/pmm.c:27 | SVSMHCTL as first written: SVMHE, SVSHE and the release level in the low bits |
| Pmm.LowSideWord | src/scheduler/pmm.c:69-70 | SVSMLCTL as written: SVMLE, SVSLE and the level in both the release and the reset level bits |
| Pmm.Level | src/scheduler/pmm.c:135 | the current level `PMMCTL0 & PMMCOREV_3` is at most 3 |
| Pmm.ShortfallIsBitZero | src/scheduler/pmm.c:34 | the rollback is taken exactly when PMMIFG bit 0 was raised; SVMHIFG alone does not cause it |
| Pmm.MergeLevel | src/scheduler/pmm.c:82-105 | the merged word has the level bits of the written value and every other bit from the backup |
| Pmm.StepUp | src/scheduler/pmm.c:7-123 | one setVCoreUp call in closed form: on a shortfall -1 and only the lock byte and flags change; otherwise 0, the new level, and each side's level bits merged into its entry configuration |
| Pmm.StepUpRestores | src/scheduler/pmm.c:7-123 | on both paths PMMRIE ends equal to its value on entry, PMMCTL0_H is 0 (locked) and no supervisor flag is left set |
| Pmm.StepUpShortfall | src/scheduler/pmm.c:34-55 | the status is 0xFFFF exactly on a shortfall, and then only PMMCTL0_H and PMMIFG differ from entry: SVSMHCTL is restored, PMMCTL0_L and SVSMLCTL are untouched |
| Pmm.StepUpCommit | src/scheduler/pmm.c:59-105 | without a shortfall the status is 0, PMMCTL0_L is the level, and each of SVSMLCTL and SVSMHCTL selects the level in its level bits and keeps every other bit of its backup |
| Pmm.CommitRegs | src/scheduler/pmm.c:59-122 | the registers computed by the commit path's statements are those of `StepUp` |
| Pmm.StatusByte | src/scheduler/pmm.c:146-148 | the status kept as `uint8_t` is 0 for 0 and 0xFF for 0xFFFF |
| Pmm.RampNoStep | src/scheduler/pmm.c:143-149 | a target equal to the current level gives 0 and a target below it gives 0xFF, with no setVCoreUp call and no register change |
| Pmm.Ramp | src/scheduler/pmm.c:143-150 | the loop in closed form: a lower target gives -1 with no step, an equal one 0, a higher one a setVCoreUp for the next level and the rest of the loop from its status |
| Pmm.RampUp | src/scheduler/pmm.c:143-150 | stepping up calls setVCoreUp with act+1, act+2, … in order, never past the target; all calls but the last commit; the status is 0xFF exactly when the last one had a shortfall; the level never decreases, never passes the target and reaches it exactly when the status is 0; the final level is `act` plus the number of committed calls, so after a failure it is the last level committed |
| Pmm.RampFromResetToTop | src/scheduler/scheduler.c:173 | `setVCore(0x3)` from level 0 on a supply that never falls short calls levels 1, 2, 3 and returns 0 at level 3 |
| Pmm.Controller.BeginStep | src/scheduler/pmm.c:11-34 | the PMM is unlocked, PMMRIE, SVSMHCTL and SVSMLCTL are backed up, the supervisor interrupts are disabled, SVSMHCTL is set to the new level, PMMIFG holds the settled flags without SVSMHDLYIFG, and the result is the line-34 test |
| Pmm.Controller.RollBack | src/scheduler/pmm.c:37-54 | SVSMHCTL and PMMRIE are back to their backups, the flags are cleared and the PMM is relocked |
| Pmm.Controller.RaiseLevel | src/scheduler/pmm.c:59-76 | the SVS high-side level is or-ed in, PMMCTL0_L is set to the level, SVSMLCTL to the low-side word, and the settle flags are cleared |
| Pmm.Controller.RestoreSettings | src/scheduler/pmm.c:82-122 | each configuration keeps its level bits and takes every other bit from its backup; the flags are cleared, PMMRIE restored and the PMM relocked |
| Pmm.Controller.SetVCoreUp | src/scheduler/pmm.c:7-123 | the registers and the returned status are those `StepUp` gives for the entry state |
| Pmm.Controller.RampStep | src/scheduler/pmm.c:145-149 | one pass steps to the next level or gives 0xFF when the target is below; the ramp still ahead has the same outcome |
| Pmm.Controller.RampLoop | src/scheduler/pmm.c:143-150 | the loop runs with GIE clear and leaves it clear, since it changes only the PMM registers; the registers and status after the loop are those `Ramp` gives |
| Pmm.Controller.SetVCore | src/scheduler/pmm.c:126-159 | the target is `level & 3`, the start is `PMMCTL0 & 3`, GIE is cleared before the loop (which requires it clear for every step), the registers and status are those of `Ramp`, and SR (so GIE) is as on entry |

## Left out

- `InitClock` (scheduler.c:141-168), `src/usc/usc.c` and
  `src/watchdog/watchdog.c`: they are straight-line clock and timer
  register writes with fixed delays.
- The `disable_watchdog` start-up hooks: a single register write placed in
  a linker section.
- The WDT configuration in `main` (scheduler.c:183-184): it is hardware
  set-up.
- The `setVCore(0x3)` and `InitClock()` calls at the start of `main`
  (scheduler.c:173-174) are not composed with `Kernel.Boot`. `setVCore` is
  modelled on its own, and `RampFromResetToTop` states the call `main`
  makes.
- The task bodies `task1`..`task3` (scheduler.c:39-107), their GPIO and
  delays, and the unsynchronised `button1`/`button2` flags shared between
  them. A task's effect on the scheduler is modelled as `Kernel.TaskStep`
  and `Kernel.TaskStore` within its own stack. The cross-task race on the
  flags is concurrency and is not modelled.
- Stack overflow: the source has no check. The model assumes, as the
  preconditions of `TaskStep` and `TaskStore`, that a task keeps SP and its
  writes inside its own stack with room for one interrupt frame.
- Kernel.Tick: not restricted to states where GIE is set. The hardware takes
  the tick only with interrupts enabled. A tick allowed in every valid state
  covers those, and the lemmas `SwitchInterruptible` and
  `StartInterruptible` state that GIE stays set.
- Interrupt vector dispatch and the `interrupt`/`naked` attributes are not
  modelled: a tick is a call of `Kernel.Tick`. `mov.w temp, r1` and
  `mov.w r1, temp` are assignments between `temp` and the word-index SP.
- The `(uint32_t)func` pointer casts: an entry address is a number below
  2^20, and pointers into the task stacks are word indices rather than byte
  addresses.
- The waits at pmm.c:30 and pmm.c:108-109 are modelled by their outcome:
  the `Settle` value says which flags are set when each wait ends. How long
  the waits take, and whether they end, are left out. So are the analog
  behaviour of the supervisors and the voltage change itself.
- `PMMRIE_bak`, `SVSMHCTL_bak` and `SVSMLCTL_bak` are `uint32_t` in the
  source. They are modelled as 16-bit values, since they only ever hold
  16-bit register contents.
- Cpu.regs, Context.SaveContext, Context.PopRegisters: R4..R15 are modelled
  as 16-bit words. On the CPUX they are 20 bits wide, and the word `push`
  and `pop` of SAVE_CONTEXT and RESTORE_CONTEXT keep only bits 15:0.
  Bits 19:16 are lost and cleared on restore. So the round trip that
  `SaveThenRestore`, `Kernel.Tick` and `Kernel.FullRound` state holds
  for register contents that fit in 16 bits. The small memory model,
  which the 16-bit pointers and `mov.w` of the handler assume, keeps them so.
- Controller.SetVCore: only GIE of SR is handled, as a field of the CPU.
  `__no_operation()` is not modelled.
