/** The part of the MSP430X (CPUX) core that the scheduler depends on:
    a word-addressed RAM holding the task stacks, the stack pointer R1 as a
    word index into it, the general registers R4..R15, the status register
    and the 20-bit program counter, with the stack operations the core
    performs (push, pop, interrupt acceptance and `reti`). */
module Msp430 {

  type Word = bv16

  /** A 20-bit MSP430X code address. */
  type Addr20 = a: bv32 | a < 0x10_0000

  /** Status register bits (TI device header). */
  const GIE: Word := 0x0008
  const SCG0: Word := 0x0040

  /** Bits 15:12 of a stacked status word carry PC[19:16]; only bits 11:0 are SR. */
  const SR_BITS: Word := 0x0FFF

  /** SR after interrupt acceptance: every bit but SCG0 cleared. */
  function AcceptedSr(sr: Word): (r: Word)
  {
    sr & SCG0
  }

  /** PC[15:0], the word stacked first on interrupt acceptance. */
  function PcLow(pc: Addr20): (w: Word)
  {
    (pc & 0xFFFF) as Word
  }

  /** The combined word stacked second on interrupt acceptance: PC[19:16] in
      bits 15:12, SR[11:0] below. */
  function SrSlot(pc: Addr20, sr: Word): (w: Word)
    ensures (w >> 12) as bv32 == pc >> 16
    ensures w & SR_BITS == sr & SR_BITS
  {
    (((pc & 0xF_0000) >> 4) as Word) | (sr & SR_BITS)
  }

  /** The program counter that `reti` rebuilds from the status word and the
      PC[15:0] word. */
  function ResumePc(slot: Word, low: Word): (pc: Addr20)
    ensures pc >> 16 == (slot >> 12) as bv32
    ensures PcLow(pc) == low
  {
    (((slot & 0xF000) as bv32) << 4) | (low as bv32)
  }

  /** The two stacked words give back the program counter they were made from. */
  lemma PcRoundTrip(pc: Addr20, sr: Word)
    ensures ResumePc(SrSlot(pc, sr), PcLow(pc)) == pc
  {
  }

  /** `m` with the words from index `at` on replaced by `block`. */
  function Overwrite(m: seq<Word>, at: nat, block: seq<Word>): (r: seq<Word>)
    requires at + |block| <= |m|
    ensures |r| == |m|
  {
    m[..at] + block + m[at + |block|..]
  }

  /** Each word of the result comes from the block inside it and from `m`
      outside it. */
  lemma OverwriteAt(m: seq<Word>, at: nat, block: seq<Word>)
    requires at + |block| <= |m|
    ensures Overwrite(m, at, block)[at..at + |block|] == block
    ensures forall j :: 0 <= j < |m| ==>
      Overwrite(m, at, block)[j] == if at <= j < at + |block| then block[j - at] else m[j]
  {
  }

  /** Two adjacent overwrites, the upper one first, are one overwrite of the
      concatenated block. */
  lemma OverwriteAdjacent(m: seq<Word>, at: nat, lower: seq<Word>, upper: seq<Word>)
    requires at + |lower| + |upper| <= |m|
    ensures Overwrite(Overwrite(m, at + |lower|, upper), at, lower) == Overwrite(m, at, lower + upper)
  {
    var l := Overwrite(Overwrite(m, at + |lower|, upper), at, lower);
    var r := Overwrite(m, at, lower + upper);
    OverwriteAt(m, at + |lower|, upper);
    OverwriteAt(Overwrite(m, at + |lower|, upper), at, lower);
    OverwriteAt(m, at, lower + upper);
    forall j | 0 <= j < |m|
      ensures l[j] == r[j]
    {
      if at <= j < at + |lower| {
        assert l[j] == lower[j - at] == (lower + upper)[j - at];
      } else if at + |lower| <= j < at + |lower| + |upper| {
        assert l[j] == upper[j - at - |lower|] == (lower + upper)[j - at];
      }
    }
  }

  /** An overwrite leaves every slice outside the overwritten words as it was. */
  lemma OverwriteElsewhere(m: seq<Word>, at: nat, block: seq<Word>, p: nat, n: nat)
    requires at + |block| <= |m| && p + n <= |m|
    requires p + n <= at || at + |block| <= p
    ensures Overwrite(m, at, block)[p..p + n] == m[p..p + n]
  {
    var r := Overwrite(m, at, block);
    OverwriteAt(m, at, block);
    forall j | p <= j < p + n
      ensures r[j] == m[j]
    {
    }
    assert r[p..p + n] == m[p..p + n];
  }

  class Cpu {
    /** Word-addressed RAM (the task stack arrays). */
    const mem: array<Word>
    /** R1, the stack pointer, as a word index into `mem`. */
    var sp: nat
    /** R4..R15, in register order. */
    var regs: seq<Word>
    /** R2, the status register. */
    var sr: Word
    /** R0, the program counter. */
    var pc: Addr20

    /** An initial CPU: zero-filled RAM, as the task stack arrays are
        zero-initialised globals. The register values are placeholders that
        `Kernel.Boot` overwrites before any task runs. */
    constructor (size: nat)
      ensures mem.Length == size && fresh(mem)
      ensures forall j :: 0 <= j < size ==> mem[j] == 0
      ensures sp == 0 && sr == 0 && pc == 0
      ensures regs == seq(12, _ => 0)
    {
      mem := new Word[size](_ => 0);
      sp, sr, pc := 0, 0, 0;
      regs := seq(12, _ => 0);
    }

    /** `push`: SP is decremented, then the word is stored at the new SP. */
    method Push(v: Word)
      requires 0 < sp <= mem.Length
      modifies this`sp, mem
      ensures sp == old(sp) - 1
      ensures mem[..] == old(mem[..])[sp := v]
    {
      sp := sp - 1;
      mem[sp] := v;
    }

    /** `pop`: the word at SP is read, then SP is incremented. */
    method Pop() returns (v: Word)
      requires sp < mem.Length
      modifies this`sp
      ensures v == mem[old(sp)] && sp == old(sp) + 1
    {
      v := mem[sp];
      sp := sp + 1;
    }

    /** Interrupt acceptance on the CPUX: PC[15:0] is pushed, then the word
        holding PC[19:16] and SR[11:0]; every SR bit but SCG0 is cleared (so
        GIE is off for the handler) and execution continues at the vector. */
    method InterruptEntry(vector: Addr20)
      requires 2 <= sp <= mem.Length
      modifies this`sp, this`sr, this`pc, mem
      ensures sp == old(sp) - 2
      ensures mem[..] == Overwrite(old(mem[..]), sp, [SrSlot(old(pc), old(sr)), PcLow(old(pc))])
      ensures sr == AcceptedSr(old(sr)) && pc == vector
    {
      ghost var m0 := mem[..];
      Push(PcLow(pc));
      Push(SrSlot(pc, sr));
      assert mem[..] == Overwrite(m0, sp, [SrSlot(pc, sr), PcLow(pc)]);
      sr := AcceptedSr(sr);
      pc := vector;
    }

    /** `reti` on the CPUX: pops the status word (SR from bits 11:0,
        PC[19:16] from bits 15:12), then PC[15:0]. */
    method Reti()
      requires sp + 2 <= mem.Length
      modifies this`sp, this`sr, this`pc
      ensures sp == old(sp) + 2
      ensures sr == mem[old(sp)] & SR_BITS
      ensures pc == ResumePc(mem[old(sp)], mem[old(sp) + 1])
    {
      var slot := Pop();
      var low := Pop();
      sr := slot & SR_BITS;
      pc := ResumePc(slot, low);
    }
  }
}
