/** The preemptive round-robin scheduler of scheduler.c: the stack set-up
    for a new task, the start-up sequence in `main` that launches task 0,
    and the watchdog-timer interrupt handler that switches tasks.

    The three task stacks `task1ram`, `task2ram` and `task3ram` are modelled
    as consecutive regions of the CPU's word RAM: task k owns the words
    Base(k) .. Base(k) + STACK_SIZE - 1, and a pointer into a task stack is
    a word index into that RAM. */
module Scheduler {
  import opened Msp430
  import opened Context

  /** Index of word 0 of task k's stack array. */
  function Base(k: nat): (b: nat)
    ensures k < TOTAL_TASKS ==> b + STACK_SIZE <= TOTAL_TASKS * STACK_SIZE
  {
    k * STACK_SIZE
  }

  /** Words of RAM holding the task stacks. */
  const RAM_WORDS: nat := TOTAL_TASKS * STACK_SIZE

  /** A frame-sized block at `at` lies wholly inside task k's stack. */
  predicate FrameIn(k: nat, at: nat)
  {
    Base(k) <= at && at + FRAME_WORDS <= Base(k) + STACK_SIZE
  }

  /** Frames inside two different task stacks do not overlap. */
  lemma FramesDisjoint(i: nat, j: nat, a: nat, b: nat)
    requires i != j && FrameIn(i, a) && FrameIn(j, b)
    ensures a + FRAME_WORDS <= b || b + FRAME_WORDS <= a
  {
    if i < j {
      assert Base(i) + STACK_SIZE <= Base(j);
    } else {
      assert Base(j) + STACK_SIZE <= Base(i);
    }
  }

  // ---------------------------------------------------------------------
  // Round robin
  // ---------------------------------------------------------------------

  /** The task the handler switches to: the next one, wrapping after the
      last. */
  function NextTask(t: nat): (n: nat)
    requires t < TOTAL_TASKS
    ensures n < TOTAL_TASKS && n != t
    ensures n == (t + 1) % TOTAL_TASKS
  {
    if t < TOTAL_TASKS - 1 then t + 1 else 0
  }

  /** The running task after k ticks starting from task t. */
  function TaskAfter(t: nat, k: nat): (r: nat)
    requires t < TOTAL_TASKS
    ensures r < TOTAL_TASKS
  {
    if k == 0 then t else NextTask(TaskAfter(t, k - 1))
  }

  /** k ticks advance the running task by k, modulo the number of tasks. */
  lemma {:induction false} TaskAfterIsModular(t: nat, k: nat)
    requires t < TOTAL_TASKS
    ensures TaskAfter(t, k) == (t + k) % TOTAL_TASKS
  {
    if k > 0 {
      TaskAfterIsModular(t, k - 1);
    }
  }

  /** Every TOTAL_TASKS ticks the same task runs again. */
  lemma RoundReturns(t: nat, k: nat)
    requires t < TOTAL_TASKS
    ensures TaskAfter(t, k + TOTAL_TASKS) == TaskAfter(t, k)
  {
    TaskAfterIsModular(t, k + TOTAL_TASKS);
    TaskAfterIsModular(t, k);
  }

  /** Any TOTAL_TASKS consecutive ticks run each task exactly once. */
  lemma EachTaskOncePerRound(t: nat, k: nat)
    requires t < TOTAL_TASKS
    ensures {TaskAfter(t, k), TaskAfter(t, k + 1), TaskAfter(t, k + 2)} == {0, 1, 2}
  {
    TaskAfterIsModular(t, k);
    TaskAfterIsModular(t, k + 1);
    TaskAfterIsModular(t, k + 2);
  }

  /** From task 0 the tasks run in the order 0, 1, 2, 0, 1, 2, 0: six ticks
      bring task 0 back, and the seventh hands over to task 1. */
  lemma StartOrder()
    ensures [TaskAfter(0, 0), TaskAfter(0, 1), TaskAfter(0, 2), TaskAfter(0, 3),
             TaskAfter(0, 4), TaskAfter(0, 5), TaskAfter(0, 6)] == [0, 1, 2, 0, 1, 2, 0]
    ensures TaskAfter(0, 7) == 1
  {
    TaskAfterIsModular(0, 3);
    TaskAfterIsModular(0, 6);
    TaskAfterIsModular(0, 7);
  }

  // ---------------------------------------------------------------------
  // initialise_stack
  // ---------------------------------------------------------------------

  /** The word stored just below the entry address: PC[19:16] shifted into
      bits 15:12, or-ed with DEFAULT_SR. */
  function EntryStatusWord(func: Addr20): (w: Word)
    ensures w == SrSlot(func, DEFAULT_SR)
    ensures (w >> 12) as bv32 == func >> 16 && w & SR_BITS == DEFAULT_SR
  {
    ConstantFacts();
    (((func & 0xF_0000) >> 4) as Word) | DEFAULT_SR
  }

  /** initialise_stack: stores PC[15:0] at `top`, the status word below it,
      then steps past the twelve register slots, which it leaves as they
      are, and returns the index of the lowest slot. */
  method InitialiseStack(mem: array<Word>, func: Addr20, top: nat) returns (loc: nat)
    requires BACKUP_REGS + 1 <= top < mem.Length
    modifies mem
    ensures loc == top - 1 - BACKUP_REGS && loc + FRAME_WORDS == top + 1
    ensures mem[..] == old(mem[..])[top := PcLow(func)][top - 1 := SrSlot(func, DEFAULT_SR)]
  {
    loc := top;
    mem[loc] := PcLow(func);
    loc := loc - 1;
    mem[loc] := EntryStatusWord(func);
    for i := 0 to BACKUP_REGS
      invariant loc == top - 1 - i
    {
      loc := loc - 1;
    }
  }

  /** RAM after initialise_stack at `top`: the frame starting at the
      returned index resumes at the entry address with SR = DEFAULT_SR, and
      keeps whatever was in the register slots. */
  lemma FreshFrame(m: seq<Word>, func: Addr20, top: nat)
    requires BACKUP_REGS + 1 <= top < |m|
    ensures var f := m[top := PcLow(func)][top - 1 := SrSlot(func, DEFAULT_SR)][top - 1 - BACKUP_REGS..top + 1];
      |f| == FRAME_WORDS &&
      DecodeFrame(f) == TaskContext(Reversed(m[top - 1 - BACKUP_REGS..top - 1]), DEFAULT_SR, func)
  {
    var f := m[top := PcLow(func)][top - 1 := SrSlot(func, DEFAULT_SR)][top - 1 - BACKUP_REGS..top + 1];
    assert f[..BACKUP_REGS] == m[top - 1 - BACKUP_REGS..top - 1];
    ConstantFacts();
    PcRoundTrip(func, DEFAULT_SR);
  }

  /** The index initialise_stack returns for task k's stack. */
  function FreshSp(k: nat): (sp: nat)
    ensures sp == Base(k) + STACK_TOP - 1 - BACKUP_REGS && FrameIn(k, sp)
  {
    Base(k) + STACK_TOP - 1 - BACKUP_REGS
  }

  /** RAM after initialise_stack(func, &task ram[STACK_TOP]) for task k. */
  function SeedTask(m: seq<Word>, func: Addr20, k: nat): (r: seq<Word>)
    requires |m| == RAM_WORDS && k < TOTAL_TASKS
    ensures |r| == RAM_WORDS
  {
    m[Base(k) + STACK_TOP := PcLow(func)][Base(k) + STACK_TOP - 1 := SrSlot(func, DEFAULT_SR)]
  }

  /** RAM after the three initialise_stack calls of `main`. */
  function Seeded(m: seq<Word>, entries: seq<Addr20>): (r: seq<Word>)
    requires |m| == RAM_WORDS && |entries| == TOTAL_TASKS
    ensures |r| == RAM_WORDS
  {
    SeedTask(SeedTask(SeedTask(m, entries[0], 0), entries[1], 1), entries[2], 2)
  }

  /** After seeding, the frame of each task resumes at its entry address
      with SR = DEFAULT_SR. */
  lemma SeededFrame(m: seq<Word>, entries: seq<Addr20>, k: nat)
    requires |m| == RAM_WORDS && |entries| == TOTAL_TASKS && k < TOTAL_TASKS
    ensures var c := DecodeFrame(Seeded(m, entries)[FreshSp(k)..FreshSp(k) + FRAME_WORDS]);
      c.pc == entries[k] && c.sr == DEFAULT_SR
  {
    var f := Seeded(m, entries)[FreshSp(k)..FreshSp(k) + FRAME_WORDS];
    assert f[BACKUP_REGS] == SrSlot(entries[k], DEFAULT_SR) && f[BACKUP_REGS + 1] == PcLow(entries[k]);
    ConstantFacts();
    PcRoundTrip(entries[k], DEFAULT_SR);
  }

  /** Task i is suspended in RAM `m` with SP = `sp`: its frame lies
      inside its own stack and encodes the context `c` it will resume with. */
  ghost predicate Parked(m: seq<Word>, i: nat, sp: nat, c: TaskContext)
    requires |m| == RAM_WORDS && i < TOTAL_TASKS
  {
    FrameIn(i, sp) && WellFormed(c) && m[sp..sp + FRAME_WORDS] == EncodeFrame(c)
  }

  /** The contexts the three tasks start with, read from the seeded RAM. */
  ghost function StartContexts(m: seq<Word>, entries: seq<Addr20>): (cs: seq<TaskContext>)
    requires |m| == RAM_WORDS && |entries| == TOTAL_TASKS
    ensures |cs| == TOTAL_TASKS
  {
    var s := Seeded(m, entries);
    seq(TOTAL_TASKS, k requires 0 <= k < TOTAL_TASKS => DecodeFrame(s[FreshSp(k)..FreshSp(k) + FRAME_WORDS]))
  }

  /** After seeding every task is parked at its fresh SP with a start context
      that resumes at its entry address with SR = DEFAULT_SR. */
  lemma StartContextsParked(m: seq<Word>, entries: seq<Addr20>)
    requires |m| == RAM_WORDS && |entries| == TOTAL_TASKS
    ensures AllParked(Seeded(m, entries), [FreshSp(0), FreshSp(1), FreshSp(2)], StartContexts(m, entries))
    ensures forall k :: 0 <= k < TOTAL_TASKS ==>
      StartContexts(m, entries)[k].pc == entries[k] && StartContexts(m, entries)[k].sr == DEFAULT_SR
  {
    var s, sps, cs := Seeded(m, entries), [FreshSp(0), FreshSp(1), FreshSp(2)], StartContexts(m, entries);
    forall k | 0 <= k < TOTAL_TASKS
      ensures Parked(s, k, sps[k], cs[k])
      ensures cs[k].pc == entries[k] && cs[k].sr == DEFAULT_SR
    {
      assert sps[k] == FreshSp(k);
      var f := s[FreshSp(k)..FreshSp(k) + FRAME_WORDS];
      assert cs[k] == DecodeFrame(f);
      SeededFrame(m, entries, k);
      EncodeDecode(f);
    }
  }

  /** Parking the running task t: its context, pushed as a frame just below
      its SP, makes it parked at SP - FRAME_WORDS. */
  lemma ParkRunning(m: seq<Word>, t: nat, sp: nat, c: TaskContext)
    requires |m| == RAM_WORDS && t < TOTAL_TASKS && WellFormed(c)
    requires Base(t) + FRAME_WORDS <= sp <= Base(t) + STACK_SIZE
    ensures Parked(Overwrite(m, sp - FRAME_WORDS, EncodeFrame(c)), t, sp - FRAME_WORDS, c)
  {
    OverwriteAt(m, sp - FRAME_WORDS, EncodeFrame(c));
  }

  /** Pushing a frame inside task t's stack leaves every other task parked. */
  lemma ParkedElsewhere(m: seq<Word>, t: nat, at: nat, block: seq<Word>, i: nat, sp: nat, c: TaskContext)
    requires |m| == RAM_WORDS && t < TOTAL_TASKS && |block| == FRAME_WORDS && FrameIn(t, at)
    requires i < TOTAL_TASKS && i != t && Parked(m, i, sp, c)
    ensures Parked(Overwrite(m, at, block), i, sp, c)
  {
    FramesDisjoint(i, t, sp, at);
    OverwriteElsewhere(m, at, block, sp, FRAME_WORDS);
  }

  /** Every task is parked at its table entry with its saved context. */
  ghost predicate AllParked(m: seq<Word>, sps: seq<nat>, cs: seq<TaskContext>)
    requires |m| == RAM_WORDS
  {
    |sps| == TOTAL_TASKS && |cs| == TOTAL_TASKS
    && forall i :: 0 <= i < TOTAL_TASKS ==> Parked(m, i, sps[i], cs[i])
  }

  /** Task t runs with SP = `sp` inside its own stack, leaving room for an
      interrupt frame, and every other task is parked at its table entry. */
  ghost predicate Running(m: seq<Word>, t: nat, sp: nat, sps: seq<nat>, cs: seq<TaskContext>)
    requires |m| == RAM_WORDS
  {
    t < TOTAL_TASKS && |sps| == TOTAL_TASKS && |cs| == TOTAL_TASKS
    && Base(t) + FRAME_WORDS <= sp <= Base(t) + STACK_SIZE
    && forall i :: 0 <= i < TOTAL_TASKS && i != t ==> Parked(m, i, sps[i], cs[i])
  }

  /** Preempting the running task t: once its context is pushed as a frame
      just below its SP, every task is parked, t at SP - FRAME_WORDS with
      that context and the others where they were. */
  lemma Preempted(m: seq<Word>, t: nat, sp: nat, sps: seq<nat>, cs: seq<TaskContext>, c: TaskContext)
    requires |m| == RAM_WORDS && Running(m, t, sp, sps, cs) && WellFormed(c)
    ensures AllParked(Overwrite(m, sp - FRAME_WORDS, EncodeFrame(c)), sps[t := sp - FRAME_WORDS], cs[t := c])
  {
    var m', sps', cs' := Overwrite(m, sp - FRAME_WORDS, EncodeFrame(c)), sps[t := sp - FRAME_WORDS], cs[t := c];
    forall i | 0 <= i < TOTAL_TASKS
      ensures Parked(m', i, sps'[i], cs'[i])
    {
      if i == t {
        ParkRunning(m, t, sp, c);
      } else {
        ParkedElsewhere(m, t, sp - FRAME_WORDS, EncodeFrame(c), i, sps[i], cs[i]);
      }
    }
  }

  /** Resuming task n from a state where every task is parked: n runs with
      SP just above its frame, and the others stay parked. */
  lemma Resumed(m: seq<Word>, n: nat, sps: seq<nat>, cs: seq<TaskContext>)
    requires |m| == RAM_WORDS && AllParked(m, sps, cs) && n < TOTAL_TASKS
    ensures Running(m, n, sps[n] + FRAME_WORDS, sps, cs)
    ensures m[sps[n]..sps[n] + FRAME_WORDS] == EncodeFrame(cs[n]) && WellFormed(cs[n])
  {
    assert Parked(m, n, sps[n], cs[n]);
  }

  /** A store into the running task's own stack keeps every other task
      parked. */
  lemma StoreElsewhere(m: seq<Word>, t: nat, sp: nat, sps: seq<nat>, cs: seq<TaskContext>, j: nat, v: Word)
    requires |m| == RAM_WORDS && Running(m, t, sp, sps, cs)
    requires Base(t) <= j < Base(t) + STACK_SIZE
    ensures Running(m[j := v], t, sp, sps, cs)
  {
    forall i | 0 <= i < TOTAL_TASKS && i != t
      ensures Parked(m[j := v], i, sps[i], cs[i])
    {
      assert Parked(m, i, sps[i], cs[i]);
      assert m[j := v][sps[i]..sps[i] + FRAME_WORDS] == m[sps[i]..sps[i] + FRAME_WORDS] by {
        if i < t {
          assert Base(i) + STACK_SIZE <= Base(t);
        } else {
          assert Base(t) + STACK_SIZE <= Base(i);
        }
      }
    }
  }

  /** What a tick acts on: the running task, its live context and SP, the
      stack-pointer table and the contexts the tasks will resume with. */
  datatype Sched = Sched(task: nat, live: TaskContext, sp: nat, table: seq<nat>, saved: seq<TaskContext>)

  predicate SchedOk(s: Sched)
  {
    s.task < TOTAL_TASKS && |s.table| == TOTAL_TASKS && |s.saved| == TOTAL_TASKS && FRAME_WORDS <= s.sp
  }

  /** A tick on the abstract state: the running task's context is saved and
      its table entry set to the SP of its frame; the next task resumes with
      its saved context and SP just above its frame. */
  function Switch(s: Sched): (r: Sched)
    requires SchedOk(s)
    ensures SchedOk(r) && r.task == NextTask(s.task)
  {
    var n := NextTask(s.task);
    var table := s.table[s.task := s.sp - FRAME_WORDS];
    Sched(n, s.saved[n], table[n] + FRAME_WORDS, table, s.saved[s.task := s.live])
  }

  /** k ticks on the abstract state. */
  function Switches(s: Sched, k: nat): (r: Sched)
    requires SchedOk(s)
    ensures SchedOk(r)
  {
    if k == 0 then s else Switch(Switches(s, k - 1))
  }

  /** After k ticks the running task is the k-th successor of the first. */
  lemma {:induction false} SwitchesTask(s: Sched, k: nat)
    requires SchedOk(s)
    ensures Switches(s, k).task == TaskAfter(s.task, k)
  {
    if k > 0 {
      SwitchesTask(s, k - 1);
    }
  }

  /** The running task and every saved context have interrupts enabled. */
  predicate Interruptible(s: Sched)
  {
    s.live.sr & GIE != 0 && forall i :: 0 <= i < |s.saved| ==> s.saved[i].sr & GIE != 0
  }

  /** A tick keeps every context interruptible: it only moves contexts
      between the CPU and the saved set. */
  lemma SwitchInterruptible(s: Sched)
    requires SchedOk(s) && Interruptible(s)
    ensures Interruptible(Switch(s))
  {
  }

  /** The state `main` starts the scheduler in, with every context at
      DEFAULT_SR, is interruptible, so the watchdog tick keeps firing. */
  lemma StartInterruptible(s: Sched)
    requires s.live.sr == DEFAULT_SR && forall i :: 0 <= i < |s.saved| ==> s.saved[i].sr == DEFAULT_SR
    ensures Interruptible(s)
  {
    ConstantFacts();
  }

  /** One full round of ticks brings the preempted task back with the
      context and SP it had when it was preempted; the only lasting change is
      that its context and frame SP are now recorded. */
  lemma FullRoundReturns(s: Sched)
    requires SchedOk(s)
    ensures Switch(Switch(Switch(s))) == s.(table := s.table[s.task := s.sp - FRAME_WORDS], saved := s.saved[s.task := s.live])
  {
    var s1 := Switch(s);
    var s2 := Switch(s1);
    assert s2.table == s1.table by {
      assert s1.table[s1.task := s1.table[s1.task]] == s1.table;
    }
    assert s2.saved == s1.saved by {
      assert s1.saved[s1.task := s1.saved[s1.task]] == s1.saved;
    }
    assert s2.table[s2.task := s2.table[s2.task]] == s2.table;
    assert s2.saved[s2.task := s2.saved[s2.task]] == s2.saved;
  }

  // ---------------------------------------------------------------------
  // The scheduler state
  // ---------------------------------------------------------------------

  class Kernel {
    const cpu: Cpu
    /** stack_pointer[]: the saved SP of each task. */
    const stackPointer: array<nat>
    /** task_id: the running task. */
    var taskId: nat
    /** temp: the handler's copy of SP. */
    var temp: nat
    /** The context each suspended task will resume with. */
    ghost var saved: seq<TaskContext>

    /** The scheduler invariant: the running task holds a well-formed
        context, its SP lies in its own stack with room for an interrupt
        frame, and every other task is parked. */
    ghost predicate Valid()
      reads this, cpu, cpu.mem, stackPointer
    {
      cpu.mem.Length == RAM_WORDS && stackPointer.Length == TOTAL_TASKS
      && WellFormed(Live(cpu))
      && Running(cpu.mem[..], taskId, cpu.sp, stackPointer[..], saved)
    }

    /** The kernel and CPU state a tick acts on. */
    ghost function Abstract(): (s: Sched)
      reads this, cpu, stackPointer
    {
      Sched(taskId, Live(cpu), cpu.sp, stackPointer[..], saved)
    }

    /** The globals before `main`: a zeroed table and task 0 selected. */
    constructor (cpu: Cpu)
      requires cpu.mem.Length == RAM_WORDS
      ensures this.cpu == cpu && fresh(stackPointer)
      ensures stackPointer.Length == TOTAL_TASKS && stackPointer[..] == [0, 0, 0]
      ensures taskId == 0 && temp == 0
    {
      this.cpu := cpu;
      stackPointer := new nat[TOTAL_TASKS](_ => 0);
      taskId, temp := 0, 0;
      saved := [];
    }

    /** `main`, lines 177-179: one initialise_stack per task at the top of
        its stack array, each result stored in the table. */
    method SeedStacks(entries: seq<Addr20>)
      requires |entries| == TOTAL_TASKS
      requires cpu.mem.Length == RAM_WORDS && stackPointer.Length == TOTAL_TASKS
      modifies cpu.mem, stackPointer
      ensures cpu.mem[..] == Seeded(old(cpu.mem[..]), entries)
      ensures stackPointer[..] == [FreshSp(0), FreshSp(1), FreshSp(2)]
    {
      var sp0 := InitialiseStack(cpu.mem, entries[0], Base(0) + STACK_TOP);
      stackPointer[0] := sp0;
      var sp1 := InitialiseStack(cpu.mem, entries[1], Base(1) + STACK_TOP);
      stackPointer[1] := sp1;
      var sp2 := InitialiseStack(cpu.mem, entries[2], Base(2) + STACK_TOP);
      stackPointer[2] := sp2;
    }

    /** `main`, lines 190-197, and the part of the handler after the
        round-robin step, lines 229-232: loads the selected task's saved SP
        and restores that task. On entry every task is parked. */
    method Resume()
      requires cpu.mem.Length == RAM_WORDS && stackPointer.Length == TOTAL_TASKS
      requires taskId < TOTAL_TASKS && AllParked(cpu.mem[..], stackPointer[..], saved)
      modifies this`temp, cpu
      ensures Valid()
      ensures temp == stackPointer[taskId] && cpu.sp == temp + FRAME_WORDS
      ensures Live(cpu) == saved[taskId]
    {
      Resumed(cpu.mem[..], taskId, stackPointer[..], saved);
      temp := stackPointer[taskId];
      cpu.sp := temp;
      RestoreContext(cpu);
      DecodeEncode(saved[taskId]);
    }

    /** The scheduler part of `main`, lines 177-197: seeds the stacks,
        selects task 0 and resumes it. */
    method Boot(entries: seq<Addr20>)
      requires |entries| == TOTAL_TASKS
      requires cpu.mem.Length == RAM_WORDS && stackPointer.Length == TOTAL_TASKS
      modifies this, cpu, cpu.mem, stackPointer
      ensures Valid() && taskId == 0
      ensures stackPointer[..] == [FreshSp(0), FreshSp(1), FreshSp(2)]
      ensures cpu.mem[..] == Seeded(old(cpu.mem[..]), entries) && temp == stackPointer[0]
      ensures cpu.pc == entries[0] && cpu.sr == DEFAULT_SR && cpu.sp == Base(0) + STACK_TOP + 1
      ensures forall i :: 0 <= i < TOTAL_TASKS ==> saved[i].pc == entries[i] && saved[i].sr == DEFAULT_SR
    {
      ghost var m0 := cpu.mem[..];
      SeedStacks(entries);
      saved := StartContexts(m0, entries);
      StartContextsParked(m0, entries);
      taskId := 0;
      Resume();
    }

    /** The handler up to line 215: interrupt acceptance and SAVE_CONTEXT push the running task's frame,
        and the handler stores SP in that task's table entry. Every task is
        then parked. */
    method Preempt(vector: Addr20)
      requires Valid()
      modifies this`temp, this`saved, cpu, cpu.mem, stackPointer
      ensures AllParked(cpu.mem[..], stackPointer[..], saved)
      ensures cpu.mem[..] == Overwrite(old(cpu.mem[..]), old(cpu.sp) - FRAME_WORDS, EncodeFrame(old(Live(cpu))))
      ensures cpu.sp == old(cpu.sp) - FRAME_WORDS && temp == cpu.sp
      ensures cpu.regs == old(cpu.regs) && cpu.sr == AcceptedSr(old(cpu.sr)) && cpu.pc == vector
      ensures stackPointer[..] == old(stackPointer[..])[taskId := old(cpu.sp) - FRAME_WORDS]
      ensures saved == old(saved)[taskId := old(Live(cpu))]
    {
      ghost var m, sp, sps, c := cpu.mem[..], cpu.sp, stackPointer[..], Live(cpu);
      Preempted(m, taskId, sp, sps, saved, c);
      saved := saved[taskId := c];
      PushFrame(cpu, vector);
      temp := cpu.sp;
      stackPointer[taskId] := temp;
      assert cpu.mem[..] == Overwrite(m, sp - FRAME_WORDS, EncodeFrame(c));
      assert stackPointer[..] == sps[taskId := temp];
    }

    /** Lines 218-225: the next task, wrapping after the last. */
    method Advance()
      requires taskId < TOTAL_TASKS
      modifies this`taskId
      ensures taskId == NextTask(old(taskId))
    {
      if taskId < TOTAL_TASKS - 1 {
        taskId := taskId + 1;
      } else {
        taskId := 0;
      }
    }

    /** A watchdog tick: the handler saves the
        running task (lines 203-215), advances task_id round robin (lines
        218-225) and resumes the task it selects (lines 229-232). */
    method Tick(vector: Addr20)
      requires Valid()
      modifies this`taskId, this`temp, this`saved, cpu, cpu.mem, stackPointer
      ensures Valid() && SchedOk(old(Abstract()))
      ensures Abstract() == Switch(old(Abstract())) && temp == stackPointer[taskId]
      ensures cpu.mem[..] == Overwrite(old(cpu.mem[..]), old(cpu.sp) - FRAME_WORDS, EncodeFrame(old(Live(cpu))))
    {
      ghost var s, m := Abstract(), cpu.mem[..];
      Preempt(vector);
      ghost var table, pushed := stackPointer[..], cpu.mem[..];
      assert pushed == Overwrite(m, s.sp - FRAME_WORDS, EncodeFrame(s.live));
      Advance();
      Resume();
      assert cpu.mem[..] == pushed;
      assert stackPointer[..] == table == s.table[s.task := s.sp - FRAME_WORDS];
      assert Abstract() == Sched(taskId, s.saved[s.task := s.live][taskId], table[taskId] + FRAME_WORDS, table, saved);
    }

    /** Two ticks in a row. */
    method TwoTicks(vector: Addr20)
      requires Valid()
      modifies this`taskId, this`temp, this`saved, cpu, cpu.mem, stackPointer
      ensures Valid() && SchedOk(old(Abstract())) && SchedOk(Switch(old(Abstract())))
      ensures Abstract() == Switch(Switch(old(Abstract())))
    {
      Tick(vector);
      Tick(vector);
    }

    /** Three ticks with no task activity in between bring the running task
        back with the registers, SR, PC and SP it had; its context and the
        SP of its frame are left recorded in the table. */
    method FullRound(vector: Addr20)
      requires Valid()
      modifies this`taskId, this`temp, this`saved, cpu, cpu.mem, stackPointer
      ensures Valid()
      ensures var s := old(Abstract());
        Abstract() == s.(table := s.table[s.task := s.sp - FRAME_WORDS], saved := s.saved[s.task := s.live])
    {
      ghost var s := Abstract();
      TwoTicks(vector);
      Tick(vector);
      FullRoundReturns(s);
    }

    /** The running task computes: it may change its registers, SR, PC and
        SP, keeping SP inside its own stack with room for an interrupt
        frame. Nothing the scheduler keeps changes. */
    method TaskStep(c: TaskContext, sp: nat)
      requires Valid() && WellFormed(c)
      requires Base(taskId) + FRAME_WORDS <= sp <= Base(taskId) + STACK_SIZE
      modifies cpu`regs, cpu`sr, cpu`pc, cpu`sp
      ensures Valid() && Live(cpu) == c && cpu.sp == sp
    {
      cpu.regs, cpu.sr, cpu.pc, cpu.sp := c.regs, c.sr, c.pc, sp;
    }

    /** The running task writes a word of its own stack. The frames of the
        suspended tasks, and so the contexts they will resume with, stay as
        they are. */
    method TaskStore(j: nat, v: Word)
      requires Valid() && Base(taskId) <= j < Base(taskId) + STACK_SIZE
      modifies cpu.mem
      ensures Valid() && cpu.mem[..] == old(cpu.mem[..])[j := v]
    {
      StoreElsewhere(cpu.mem[..], taskId, cpu.sp, stackPointer[..], saved, j, v);
      cpu.mem[j] := v;
    }
  }
}
