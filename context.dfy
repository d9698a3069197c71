/** The scheduler's build constants and the register-frame layout shared by
    the context save and restore sequences (scheduler.h). A suspended task's
    frame is FRAME_WORDS consecutive words, lowest address first:
    R15, R14, ..., R4, then the status word (PC[19:16] and SR[11:0]), then
    PC[15:0]. */
module Context {
  import opened Msp430

  /** R4 to R15. */
  const BACKUP_REGS: nat := 12
  const STACK_SIZE: nat := 1024
  const STACK_TOP: nat := STACK_SIZE - 1
  const TOTAL_TASKS: nat := 3
  /** GIE, so the tick keeps firing, and SCG0, for 25 MHz operation. */
  const DEFAULT_SR: Word := 0x0048

  /** Words in one saved frame: the general registers plus the two words
      stacked by interrupt acceptance. */
  const FRAME_WORDS: nat := BACKUP_REGS + 2

  lemma ConstantFacts()
    ensures DEFAULT_SR == GIE | SCG0
    ensures DEFAULT_SR & !SR_BITS == 0
    ensures STACK_TOP == 1023 && 0 <= STACK_TOP < STACK_SIZE
    ensures (STACK_TOP - 1 - BACKUP_REGS) + FRAME_WORDS == STACK_TOP + 1
  {
  }

  /** What a task needs to resume: R4..R15 in register order, SR and PC. */
  datatype TaskContext = TaskContext(regs: seq<Word>, sr: Word, pc: Addr20)

  /** A context the CPU can hold: twelve registers and no bits in SR[15:12]. */
  predicate WellFormed(c: TaskContext)
  {
    |c.regs| == BACKUP_REGS && c.sr & !SR_BITS == 0
  }

  function Reversed(s: seq<Word>): (r: seq<Word>)
    ensures |r| == |s|
  {
    seq(|s|, k requires 0 <= k < |s| => s[|s| - 1 - k])
  }

  lemma ReversedReversed(s: seq<Word>)
    ensures Reversed(Reversed(s)) == s
  {
  }

  lemma ReversedTwelve(s: seq<Word>)
    requires |s| == 12
    ensures Reversed(s) == [s[11], s[10], s[9], s[8], s[7], s[6], s[5], s[4], s[3], s[2], s[1], s[0]]
  {
  }

  /** The running CPU's context. */
  function Live(cpu: Cpu): (c: TaskContext)
    reads cpu
    ensures WellFormed(c) <==> |cpu.regs| == BACKUP_REGS && cpu.sr & !SR_BITS == 0
  {
    TaskContext(cpu.regs, cpu.sr, cpu.pc)
  }

  /** The frame a context leaves on the stack, lowest address first. */
  function EncodeFrame(c: TaskContext): (f: seq<Word>)
    requires WellFormed(c)
    ensures |f| == FRAME_WORDS
  {
    Reversed(c.regs) + [SrSlot(c.pc, c.sr), PcLow(c.pc)]
  }

  /** The context the restore sequence loads from a frame. */
  function DecodeFrame(f: seq<Word>): (c: TaskContext)
    requires |f| == FRAME_WORDS
    ensures WellFormed(c)
    ensures c.sr == f[BACKUP_REGS] & SR_BITS
    ensures SrSlot(c.pc, c.sr) == f[BACKUP_REGS] && PcLow(c.pc) == f[BACKUP_REGS + 1]
  {
    TaskContext(Reversed(f[..BACKUP_REGS]), f[BACKUP_REGS] & SR_BITS, ResumePc(f[BACKUP_REGS], f[BACKUP_REGS + 1]))
  }

  /** Restoring a saved frame gives back exactly the context that was saved. */
  lemma DecodeEncode(c: TaskContext)
    requires WellFormed(c)
    ensures DecodeFrame(EncodeFrame(c)) == c
  {
    var f := EncodeFrame(c);
    assert f[..BACKUP_REGS] == Reversed(c.regs);
    ReversedReversed(c.regs);
    PcRoundTrip(c.pc, c.sr);
  }

  /** Every frame is the encoding of the context it decodes to, so the layout
      has no slack: the restore sequence reads every word of it. */
  lemma EncodeDecode(f: seq<Word>)
    requires |f| == FRAME_WORDS
    ensures EncodeFrame(DecodeFrame(f)) == f
  {
    var c := DecodeFrame(f);
    ReversedReversed(f[..BACKUP_REGS]);
    assert f == f[..BACKUP_REGS] + [f[BACKUP_REGS], f[BACKUP_REGS + 1]];
  }

  /** Twelve single-word pushes of `r[0]`, ..., `r[11]` below `at` leave the
      twelve words reversed, `r[11]` lowest. */
  lemma PushTwelve(m: seq<Word>, at: nat, r: seq<Word>)
    requires 12 <= at <= |m| && |r| == 12
    ensures m[at - 1 := r[0]][at - 2 := r[1]][at - 3 := r[2]][at - 4 := r[3]][at - 5 := r[4]][at - 6 := r[5]][at - 7 := r[6]][at - 8 := r[7]][at - 9 := r[8]][at - 10 := r[9]][at - 11 := r[10]][at - 12 := r[11]] == Overwrite(m, at - 12, Reversed(r))
  {
    var pushed := m[at - 1 := r[0]][at - 2 := r[1]][at - 3 := r[2]][at - 4 := r[3]][at - 5 := r[4]][at - 6 := r[5]][at - 7 := r[6]][at - 8 := r[7]][at - 9 := r[8]][at - 10 := r[9]][at - 11 := r[10]][at - 12 := r[11]];
    var block := Overwrite(m, at - 12, Reversed(r));
    forall j | 0 <= j < |m|
      ensures pushed[j] == block[j]
    {
      if at - 12 <= j < at {
        assert block[j] == Reversed(r)[j - (at - 12)];
      } else {
        assert block[j] == m[j];
      }
    }
  }

  /** SAVE_CONTEXT: pushes R4 first and R15 last, so R15 ends at the new SP.
      (The bounds are written as the literal 12, which is BACKUP_REGS.) */
  method SaveContext(cpu: Cpu)
    requires 12 <= cpu.sp <= cpu.mem.Length && |cpu.regs| == 12
    modifies cpu`sp, cpu.mem
    ensures cpu.sp == old(cpu.sp) - 12
    ensures cpu.mem[..] == Overwrite(old(cpu.mem[..]), cpu.sp, Reversed(cpu.regs))
  {
    ghost var m0, s0 := cpu.mem[..], cpu.sp;
    cpu.Push(cpu.regs[0]);
    cpu.Push(cpu.regs[1]);
    cpu.Push(cpu.regs[2]);
    cpu.Push(cpu.regs[3]);
    cpu.Push(cpu.regs[4]);
    cpu.Push(cpu.regs[5]);
    cpu.Push(cpu.regs[6]);
    cpu.Push(cpu.regs[7]);
    cpu.Push(cpu.regs[8]);
    cpu.Push(cpu.regs[9]);
    cpu.Push(cpu.regs[10]);
    cpu.Push(cpu.regs[11]);
    assert cpu.mem[..] == m0[s0 - 1 := cpu.regs[0]][s0 - 2 := cpu.regs[1]][s0 - 3 := cpu.regs[2]][s0 - 4 := cpu.regs[3]][s0 - 5 := cpu.regs[4]][s0 - 6 := cpu.regs[5]][s0 - 7 := cpu.regs[6]][s0 - 8 := cpu.regs[7]][s0 - 9 := cpu.regs[8]][s0 - 10 := cpu.regs[9]][s0 - 11 := cpu.regs[10]][s0 - 12 := cpu.regs[11]];
    PushTwelve(m0, s0, cpu.regs);
  }

  /** The twelve `pop`s of RESTORE_CONTEXT, R15 first: they yield R4..R15
      in register order from the twelve words at SP. */
  method PopRegisters(cpu: Cpu) returns (rs: seq<Word>)
    requires cpu.sp + BACKUP_REGS <= cpu.mem.Length
    modifies cpu`sp
    ensures cpu.sp == old(cpu.sp) + BACKUP_REGS
    ensures rs == Reversed(cpu.mem[old(cpu.sp)..old(cpu.sp) + BACKUP_REGS])
  {
    ghost var f := cpu.mem[cpu.sp..cpu.sp + 12];
    ReversedTwelve(f);
    var v15 := cpu.Pop();
    var v14 := cpu.Pop();
    var v13 := cpu.Pop();
    var v12 := cpu.Pop();
    var v11 := cpu.Pop();
    var v10 := cpu.Pop();
    var v9 := cpu.Pop();
    var v8 := cpu.Pop();
    var v7 := cpu.Pop();
    var v6 := cpu.Pop();
    var v5 := cpu.Pop();
    var v4 := cpu.Pop();
    rs := [v4, v5, v6, v7, v8, v9, v10, v11, v12, v13, v14, v15];
  }

  /** RESTORE_CONTEXT: pops R15 first down to R4, then `reti` pops the status
      word and PC[15:0]. */
  method RestoreContext(cpu: Cpu)
    requires cpu.sp + FRAME_WORDS <= cpu.mem.Length
    modifies cpu
    ensures cpu.sp == old(cpu.sp) + FRAME_WORDS
    ensures Live(cpu) == DecodeFrame(cpu.mem[old(cpu.sp)..old(cpu.sp) + FRAME_WORDS])
  {
    ghost var f := cpu.mem[cpu.sp..cpu.sp + FRAME_WORDS];
    assert f[..BACKUP_REGS] == cpu.mem[cpu.sp..cpu.sp + BACKUP_REGS];
    cpu.regs := PopRegisters(cpu);
    cpu.Reti();
  }

  /** Interrupt acceptance followed by SAVE_CONTEXT: the running context
      ends up as one frame just below the old SP, and SP points at it. */
  method PushFrame(cpu: Cpu, vector: Addr20)
    requires FRAME_WORDS <= cpu.sp <= cpu.mem.Length && WellFormed(Live(cpu))
    modifies cpu`sp, cpu`sr, cpu`pc, cpu.mem
    ensures cpu.sp == old(cpu.sp) - FRAME_WORDS
    ensures cpu.mem[..] == Overwrite(old(cpu.mem[..]), cpu.sp, EncodeFrame(old(Live(cpu))))
    ensures cpu.regs == old(cpu.regs) && cpu.sr == AcceptedSr(old(cpu.sr)) && cpu.pc == vector
  {
    ghost var c := Live(cpu);
    ghost var m0 := cpu.mem[..];
    cpu.InterruptEntry(vector);
    SaveContext(cpu);
    OverwriteAdjacent(m0, cpu.sp, Reversed(c.regs), [SrSlot(c.pc, c.sr), PcLow(c.pc)]);
  }

  /** A save followed at once by a restore (the 14 words pushed by interrupt
      acceptance and SAVE_CONTEXT, popped by RESTORE_CONTEXT) leaves the
      running context and SP as they were. */
  method SaveThenRestore(cpu: Cpu, vector: Addr20)
    requires FRAME_WORDS <= cpu.sp <= cpu.mem.Length
    requires WellFormed(Live(cpu))
    modifies cpu, cpu.mem
    ensures Live(cpu) == old(Live(cpu)) && cpu.sp == old(cpu.sp)
  {
    ghost var c := Live(cpu);
    PushFrame(cpu, vector);
    assert cpu.mem[cpu.sp..cpu.sp + FRAME_WORDS] == EncodeFrame(c);
    RestoreContext(cpu);
    DecodeEncode(c);
  }
}
