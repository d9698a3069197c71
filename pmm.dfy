/** The PMM core-voltage ramp of pmm.c: `setVCoreUp` raises the core
    voltage (Vcore) one level, and `setVCore` steps it up level by level to
    a requested level with interrupts disabled.

    The PMM registers are modelled at their written values: PMMCTL0 as its
    two bytes, PMMRIE, SVSMHCTL, SVSMLCTL and PMMIFG as 16-bit words. The
    only state the hardware changes on its own is PMMIFG; the flags it
    raises while the code waits for the supervisors to settle are given by
    a `Settle` value (one per call of `setVCoreUp`). The bit values are
    those of the TI MSP430F5xx device header. */
module Pmm {
  import opened Msp430

  // PMMCTL0
  const PMMPW_H: bv8 := 0xA5
  const PMMCOREV0: bv8 := 0x01
  const PMMCOREV_3: bv8 := 0x03

  // PMMIFG
  const SVSMLDLYIFG: bv16 := 0x0001
  const SVMLIFG: bv16 := 0x0002
  const SVMLVLRIFG: bv16 := 0x0004
  const SVSMHDLYIFG: bv16 := 0x0010
  const SVMHIFG: bv16 := 0x0020
  const SVMHVLRIFG: bv16 := 0x0040

  // PMMRIE
  const SVSMLDLYIE: bv16 := 0x0001
  const SVMLIE: bv16 := 0x0002
  const SVMLVLRIE: bv16 := 0x0004
  const SVSMHDLYIE: bv16 := 0x0010
  const SVMHIE: bv16 := 0x0020
  const SVMHVLRIE: bv16 := 0x0040
  const SVSLPE: bv16 := 0x0100
  const SVMLVLRPE: bv16 := 0x0200
  const SVSHPE: bv16 := 0x1000
  const SVMHVLRPE: bv16 := 0x2000

  // SVSMHCTL
  const SVSMHRRL0: bv16 := 0x0001
  const SVSMHRRL1: bv16 := 0x0002
  const SVSMHRRL2: bv16 := 0x0004
  const SVSHRVL0: bv16 := 0x0100
  const SVSHRVL1: bv16 := 0x0200
  const SVSHE: bv16 := 0x0400
  const SVMHE: bv16 := 0x4000

  // SVSMLCTL
  const SVSMLRRL0: bv16 := 0x0001
  const SVSMLRRL1: bv16 := 0x0002
  const SVSMLRRL2: bv16 := 0x0004
  const SVSLRVL0: bv16 := 0x0100
  const SVSLRVL1: bv16 := 0x0200
  const SVSLE: bv16 := 0x0400
  const SVMLE: bv16 := 0x4000

  /** The PMMRIE bits cleared for the duration of a step. */
  const RIE_DISABLE: bv16 := SVMHVLRPE | SVSHPE | SVMLVLRPE | SVSLPE | SVMHVLRIE | SVMHIE | SVSMHDLYIE | SVMLVLRIE | SVMLIE | SVSMLDLYIE

  /** The PMMIFG flags cleared by "Clear all Flags". */
  const ALL_FLAGS: bv16 := SVMHVLRIFG | SVMHIFG | SVSMHDLYIFG | SVMLVLRIFG | SVMLIFG | SVSMLDLYIFG

  /** The level-selection bits of SVSMLCTL and of SVSMHCTL. */
  const LOW_LEVEL_BITS: bv16 := SVSLRVL0 + SVSLRVL1 + SVSMLRRL0 + SVSMLRRL1 + SVSMLRRL2
  const HIGH_LEVEL_BITS: bv16 := SVSHRVL0 + SVSHRVL1 + SVSMHRRL0 + SVSMHRRL1 + SVSMHRRL2

  lemma MaskFacts()
    ensures RIE_DISABLE == 0x3377 && ALL_FLAGS == 0x0077
    ensures LOW_LEVEL_BITS == 0x0307 && HIGH_LEVEL_BITS == 0x0307
  {
  }

  /** The value of a C comparison: 1 when it holds, 0 otherwise. */
  function CBool(b: bool): (v: bv16)
    ensures v == 0 || v == 1
  {
    if b then 1 else 0
  }

  /** The guard of the waits at pmm.c:41 and pmm.c:62,
      `PMMIFG & SVSMHDLYIFG == 0`: the mask is the value of
      `SVSMHDLYIFG == 0`, which is 0, so these waits never loop. */
  predicate HighWaitGuard(ifg: bv16): (b: bool)
    ensures !b
  {
    ifg & CBool(SVSMHDLYIFG == 0) != 0
  }

  /** The guard of the wait at pmm.c:73, `PMMIFG & SVSMLDLYIFG == 0`, which
      never holds for the same reason. */
  predicate LowWaitGuard(ifg: bv16): (b: bool)
    ensures !b
  {
    ifg & CBool(SVSMLDLYIFG == 0) != 0
  }

  /** The PMM registers as the code writes them. */
  datatype PmmRegs = PmmRegs(ctl0Hi: bv8, ctl0Lo: bv8, rie: bv16, svsmhctl: bv16, svsmlctl: bv16, ifg: bv16)

  /** The core level the PMM is set to, `PMMCTL0 & PMMCOREV_3`. */
  function Level(p: PmmRegs): (l: bv8)
    ensures l <= 3
  {
    p.ctl0Lo & PMMCOREV_3
  }

  /** The PMMIFG flags the hardware has raised by the end of each wait on
      the path taken: `first` by the wait at line 30, `second` by the one at
      line 41 (shortfall) or 62 (commit), `third` by line 73 and `fourth` by
      lines 108-109. The waits at lines 30 and 108-109 end only once the
      flags they poll are set. */
  datatype Settle = Settle(first: bv16, second: bv16, third: bv16, fourth: bv16)

  /** The hardware the ramp runs against: the settle flags seen by the
      `setVCoreUp` call for each level. */
  type Oracle = bv8 -> Settle

  /** The test at pmm.c:34, `PMMIFG & SVMHIFG == SVMHIFG`, on the flags left
      after the first settle-wait and the clearing of SVSMHDLYIFG.
      Comparison binds tighter than `&`, so the mask is the value of
      `SVMHIFG == SVMHIFG`, which is 1. */
  predicate Shortfall(hw: Settle)
  {
    (hw.first | SVSMHDLYIFG) & !SVSMHDLYIFG & CBool(SVMHIFG == SVMHIFG) != 0
  }

  /** setVCoreUp rolls back exactly when the hardware has raised bit 0
      (SVSMLDLYIFG) by the end of the first settle-wait; SVMHIFG, the flag
      that reports a supply too low for the new level, does not cause a
      rollback on its own. */
  lemma ShortfallIsBitZero(hw: Settle)
    ensures Shortfall(hw) <==> hw.first & SVSMLDLYIFG != 0
    ensures hw.first == SVMHIFG ==> !Shortfall(hw)
  {
  }

  /** SVSMHCTL as written at line 27: SVM high side on, SVS high side on,
      SVM high-side release level `level`. */
  function HighSideWord(level: bv8): (w: bv16)
  {
    SVMHE | SVSHE | (0x0001 * level as bv16)
  }

  /** The SVS and SVM low-side configuration written at lines 69-70. */
  function LowSideWord(level: bv8): (w: bv16)
  {
    SVMLE | (0x0001 * level as bv16) | SVSLE | (0x0100 * level as bv16)
  }

  /** The level-selection bits that both sides hold after a step to
      `level`: the release level in bits 2:0, the reset level in bits 9:8. */
  function LevelBits(level: bv8): (w: bv16)
    requires level <= 3
    ensures w & !LOW_LEVEL_BITS == 0
  {
    (level as bv16) | ((level as bv16) << 8)
  }

  /** The bits of `w` under `mask`, the rest from `bak`. */
  function MergeLevel(bak: bv16, w: bv16, mask: bv16): (r: bv16)
    ensures r & mask == w & mask
    ensures r & !mask == bak & !mask
  {
    (w & mask) | (bak & !mask)
  }

  datatype StepResult = StepResult(regs: PmmRegs, status: bv16)

  /** One setVCoreUp call in closed form: on a shortfall only the lock
      byte and the flags change; on a commit the new level is set and its
      bits are merged into the configuration each side had on entry. */
  function StepUp(p: PmmRegs, level: bv8, hw: Settle): (r: StepResult)
  {
    if Shortfall(hw) then
      StepResult(p.(ctl0Hi := 0, ifg := (hw.first | hw.second) & !ALL_FLAGS), 0xFFFF)
    else
      var high := HighSideWord(level) | (0x0100 * level as bv16);
      StepResult(p.(ctl0Hi := 0, ctl0Lo := level,
                    svsmhctl := MergeLevel(p.svsmhctl, high, HIGH_LEVEL_BITS),
                    svsmlctl := MergeLevel(p.svsmlctl, LowSideWord(level), LOW_LEVEL_BITS),
                    ifg := (hw.first | hw.second | hw.third | hw.fourth) & !ALL_FLAGS), 0)
  }

  /** On both paths PMMRIE is back to its value on entry, the PMM is locked
      again and every supervisor flag is clear. */
  lemma StepUpRestores(p: PmmRegs, level: bv8, hw: Settle)
    ensures var r := StepUp(p, level, hw);
      r.regs.rie == p.rie && r.regs.ctl0Hi == 0 && r.regs.ifg & ALL_FLAGS == 0
  {
    MaskFacts();
  }

  /** A shortfall returns -1 and leaves every register but the lock byte
      and the flags as it was on entry: SVSMHCTL is restored, PMMCTL0_L and
      SVSMLCTL are never written. */
  lemma StepUpShortfall(p: PmmRegs, level: bv8, hw: Settle)
    ensures var r := StepUp(p, level, hw);
      Shortfall(hw) <==> r.status == 0xFFFF
    ensures var r := StepUp(p, level, hw);
      Shortfall(hw) ==> r.regs == p.(ctl0Hi := 0, ifg := r.regs.ifg)
  {
  }

  /** A commit returns 0 and sets the core level; each side's
      configuration keeps its bits other than the level selection from
      entry, and selects `level` in those. */
  lemma StepUpCommit(p: PmmRegs, level: bv8, hw: Settle)
    requires !Shortfall(hw) && level <= 3
    ensures var r := StepUp(p, level, hw);
      r.status == 0 && r.regs.ctl0Lo == level && Level(r.regs) == level
    ensures var r := StepUp(p, level, hw);
      r.regs.svsmlctl & !LOW_LEVEL_BITS == p.svsmlctl & !LOW_LEVEL_BITS
      && r.regs.svsmlctl & LOW_LEVEL_BITS == LevelBits(level)
    ensures var r := StepUp(p, level, hw);
      r.regs.svsmhctl & !HIGH_LEVEL_BITS == p.svsmhctl & !HIGH_LEVEL_BITS
      && r.regs.svsmhctl & HIGH_LEVEL_BITS == LevelBits(level)
  {
    MaskFacts();
    assert LowSideWord(level) & LOW_LEVEL_BITS == LevelBits(level);
    assert (HighSideWord(level) | (0x0100 * level as bv16)) & HIGH_LEVEL_BITS == LevelBits(level);
  }

  /** The flag arithmetic of the two paths of setVCoreUp. */
  lemma FlagsShortfall(first: bv16, second: bv16)
    ensures ((((first | SVSMHDLYIFG) & !SVSMHDLYIFG) & !SVSMHDLYIFG) | second) & !ALL_FLAGS
      == (first | second) & !ALL_FLAGS
  {
  }

  lemma FlagsCommit(first: bv16, second: bv16, third: bv16, fourth: bv16)
    ensures (((((((first | SVSMHDLYIFG) & !SVSMHDLYIFG) | second) & !SVSMHDLYIFG) | third) & !SVSMLDLYIFG)
        | fourth | SVSMLDLYIFG | SVSMHDLYIFG) & !ALL_FLAGS
      == (first | second | third | fourth) & !ALL_FLAGS
  {
  }

  /** The registers the commit path leaves, written out as its statements
      compute them, are those of StepUp. */
  lemma CommitRegs(p: PmmRegs, level: bv8, hw: Settle)
    requires !Shortfall(hw)
    ensures PmmRegs(0, level, p.rie,
        MergeLevel(p.svsmhctl, HighSideWord(level) | (0x0100 * level as bv16), HIGH_LEVEL_BITS),
        MergeLevel(p.svsmlctl, LowSideWord(level), LOW_LEVEL_BITS),
        ((((((((hw.first | SVSMHDLYIFG) & !SVSMHDLYIFG) | hw.second) & !SVSMHDLYIFG) | hw.third) & !SVSMLDLYIFG)
          | hw.fourth | SVSMLDLYIFG | SVSMHDLYIFG) & !ALL_FLAGS))
      == StepUp(p, level, hw).regs
  {
    FlagsCommit(hw.first, hw.second, hw.third, hw.fourth);
    var r := StepUp(p, level, hw).regs;
    assert r.ctl0Hi == 0 && r.ctl0Lo == level && r.rie == p.rie;
    assert r.svsmhctl == MergeLevel(p.svsmhctl, HighSideWord(level) | (0x0100 * level as bv16), HIGH_LEVEL_BITS);
    assert r.svsmlctl == MergeLevel(p.svsmlctl, LowSideWord(level), LOW_LEVEL_BITS);
    assert r.ifg == (hw.first | hw.second | hw.third | hw.fourth) & !ALL_FLAGS;
  }

  /** The status setVCore keeps: the low byte of the status returned. */
  function StatusByte(s: bv16): (b: bv8)
    ensures s == 0 ==> b == 0
    ensures s == 0xFFFF ==> b == 0xFF
  {
    (s & 0xFF) as bv8
  }

  /** The outcome of setVCore's loop: the registers, the final `actlevel`
      and `status`, and the levels passed to setVCoreUp, in order. */
  datatype RampResult = RampResult(regs: PmmRegs, act: bv8, status: bv8, calls: seq<bv8>)

  /** The loop at lines 143-150 from `actlevel` = `act` and `status`. */
  function Ramp(p: PmmRegs, level: bv8, act: bv8, status: bv8, hw: Oracle): (r: RampResult)
    requires level <= 3 && act <= 3
    decreases 3 - act as int, if status == 0 then 1 else 0
  {
    if level != act && status == 0 then
      if level > act then
        var s := StepUp(p, act + 1, hw(act + 1));
        var q := Ramp(s.regs, level, act + 1, StatusByte(s.status), hw);
        q.(calls := [act + 1] + q.calls)
      else
        Ramp(p, level, act, 0xFF, hw)
    else
      RampResult(p, act, status, [])
  }

  /** A target below the current level ends with -1 and no step; a target
      equal to it ends with 0 and no step. Nothing changes either way. */
  lemma RampNoStep(p: PmmRegs, level: bv8, act: bv8, hw: Oracle)
    requires level <= 3 && act <= 3 && level <= act
    ensures Ramp(p, level, act, 0, hw) == RampResult(p, act, if level == act then 0 else 0xFF, [])
  {
    if level < act {
      assert Ramp(p, level, act, 0, hw) == Ramp(p, level, act, 0xFF, hw);
    }
  }

  /** Stepping up from `act` towards `level`: setVCoreUp is called with
      act + 1, act + 2, ... in order, never beyond `level`; every call but
      the last committed, and the last one failed exactly when the status is
      -1. The core level never decreases, never passes the target, and
      reaches it exactly when the status is 0; after a failed step it is
      the last level committed. */
  lemma {:induction false} RampUp(p: PmmRegs, level: bv8, act: bv8, hw: Oracle)
    requires act < level <= 3 && Level(p) == act
    decreases level - act
    ensures var r := Ramp(p, level, act, 0, hw);
      && (r.status == 0 || r.status == 0xFF)
      && (r.status == 0 <==> Level(r.regs) == level)
      && act <= Level(r.regs) <= level
      && 0 < |r.calls| <= (level - act) as int
      && (forall i :: 0 <= i < |r.calls| ==> r.calls[i] as int == act as int + 1 + i)
      && (forall i :: 0 <= i < |r.calls| - 1 ==> !Shortfall(hw(r.calls[i])))
      && (r.status == 0xFF <==> Shortfall(hw(r.calls[|r.calls| - 1])))
      && (r.status == 0 ==> |r.calls| == (level - act) as int)
      && Level(r.regs) as int == act as int + |r.calls| - (if r.status == 0xFF then 1 else 0)
  {
    var s := StepUp(p, act + 1, hw(act + 1));
    var q := Ramp(s.regs, level, act + 1, StatusByte(s.status), hw);
    var r := Ramp(p, level, act, 0, hw);
    assert r == q.(calls := [act + 1] + q.calls);
    StepUpShortfall(p, act + 1, hw(act + 1));
    if !Shortfall(hw(act + 1)) {
      StepUpCommit(p, act + 1, hw(act + 1));
    }
    if Shortfall(hw(act + 1)) {
      assert q == RampResult(s.regs, act + 1, 0xFF, []);
    } else if act + 1 == level {
      assert q == RampResult(s.regs, act + 1, 0, []);
    } else {
      RampUp(s.regs, level, act + 1, hw);
    }
  }

  /** From a device at core level 0, asking for level 3 on hardware
      that never reports a shortfall steps through levels 1, 2 and 3 and
      returns 0. */
  lemma RampFromResetToTop(p: PmmRegs, hw: Oracle)
    requires Level(p) == 0
    requires forall l :: l <= 3 ==> !Shortfall(hw(l))
    ensures var r := Ramp(p, 3, 0, 0, hw);
      r.status == 0 && Level(r.regs) == 3 && r.calls == [1, 2, 3]
  {
    RampUp(p, 3, 0, hw);
    var r := Ramp(p, 3, 0, 0, hw);
    assert !Shortfall(hw(r.calls[|r.calls| - 1]));
  }

  class Controller {
    /** PMMCTL0_H (password / lock) and PMMCTL0_L (core level). */
    var ctl0Hi: bv8
    var ctl0Lo: bv8
    var rie: bv16
    var svsmhctl: bv16
    var svsmlctl: bv16
    var ifg: bv16

    function Regs(): (p: PmmRegs)
      reads this
    {
      PmmRegs(ctl0Hi, ctl0Lo, rie, svsmhctl, svsmlctl, ifg)
    }

    constructor (p: PmmRegs)
      ensures Regs() == p
    {
      ctl0Hi, ctl0Lo, rie, svsmhctl, svsmlctl, ifg := p.ctl0Hi, p.ctl0Lo, p.rie, p.svsmhctl, p.svsmlctl, p.ifg;
    }

    /** Lines 11-34: unlock the PMM, back up PMMRIE and both supervisor
        configurations, disable the supervisor interrupts and resets, clear
        PMMIFG, set the high-side monitor to the new level, wait for it to
        settle and test for a shortfall. */
    method BeginStep(level: bv8, hw: Settle) returns (shortfall: bool, rieBak: bv16, hBak: bv16, lBak: bv16)
      modifies this
      ensures rieBak == old(rie) && hBak == old(svsmhctl) && lBak == old(svsmlctl)
      ensures ctl0Hi == PMMPW_H && rie == old(rie) & !RIE_DISABLE && svsmhctl == HighSideWord(level)
      ensures ifg == (hw.first | SVSMHDLYIFG) & !SVSMHDLYIFG
      ensures ctl0Lo == old(ctl0Lo) && svsmlctl == old(svsmlctl)
      ensures shortfall == Shortfall(hw)
    {
      ctl0Hi := PMMPW_H;
      rieBak := rie;
      rie := rie & !RIE_DISABLE;
      hBak := svsmhctl;
      lBak := svsmlctl;
      ifg := 0;
      svsmhctl := HighSideWord(level);
      // wait until SVSMHDLYIFG is set
      ifg := ifg | hw.first | SVSMHDLYIFG;
      ifg := ifg & !SVSMHDLYIFG;
      shortfall := ifg & CBool(SVMHIFG == SVMHIFG) != 0;
    }

    /** Lines 37-54: recover the high-side configuration, clear the flags,
        restore PMMRIE and lock the PMM. */
    method RollBack(ghost p0: PmmRegs, hw: Settle, rieBak: bv16, hBak: bv16)
      requires Shortfall(hw) && rieBak == p0.rie && hBak == p0.svsmhctl
      requires ifg == (hw.first | SVSMHDLYIFG) & !SVSMHDLYIFG
      modifies this`ifg, this`svsmhctl, this`rie, this`ctl0Hi
      ensures ctl0Hi == 0 && rie == p0.rie && svsmhctl == p0.svsmhctl
      ensures ifg == (hw.first | hw.second) & !ALL_FLAGS
    {
      FlagsShortfall(hw.first, hw.second);
      ifg := ifg & !SVSMHDLYIFG;
      svsmhctl := hBak;
      // the wait at line 41, whose guard is always false
      assert !HighWaitGuard(ifg);
      ifg := ifg | hw.second;
      ifg := ifg & !ALL_FLAGS;
      rie := rieBak;
      ctl0Hi := 0;
    }

    /** Lines 59-76: set the high-side supervisor, the core level and the
        low side to the new level, clearing the settle flags after each
        wait. */
    method RaiseLevel(level: bv8, hw: Settle)
      modifies this`svsmhctl, this`ctl0Lo, this`svsmlctl, this`ifg
      ensures svsmhctl == old(svsmhctl) | (0x0100 * level as bv16)
      ensures ctl0Lo == level && svsmlctl == LowSideWord(level)
      ensures ifg == (((old(ifg) | hw.second) & !SVSMHDLYIFG) | hw.third) & !SVSMLDLYIFG
    {
      svsmhctl := svsmhctl | (0x0100 * level as bv16);
      // the wait at line 62, whose guard is always false
      assert !HighWaitGuard(ifg);
      ifg := ifg | hw.second;
      ifg := ifg & !SVSMHDLYIFG;
      ctl0Lo := 0x01 * level;
      svsmlctl := LowSideWord(level);
      // the wait at line 73, whose guard is always false
      assert !LowWaitGuard(ifg);
      ifg := ifg | hw.third;
      ifg := ifg & !SVSMLDLYIFG;
    }

    /** Lines 82-122: keep only the level bits of both configurations and
        take the rest from the backups, wait for both sides to settle, clear
        the flags, restore PMMRIE and lock the PMM. */
    method RestoreSettings(hw: Settle, rieBak: bv16, hBak: bv16, lBak: bv16)
      modifies this`svsmlctl, this`svsmhctl, this`ifg, this`rie, this`ctl0Hi
      ensures svsmlctl == MergeLevel(lBak, old(svsmlctl), LOW_LEVEL_BITS)
      ensures svsmhctl == MergeLevel(hBak, old(svsmhctl), HIGH_LEVEL_BITS)
      ensures ifg == (old(ifg) | hw.fourth | SVSMLDLYIFG | SVSMHDLYIFG) & !ALL_FLAGS
      ensures rie == rieBak && ctl0Hi == 0
    {
      var lb, hb := lBak, hBak;
      svsmlctl := svsmlctl & LOW_LEVEL_BITS;
      lb := lb & !LOW_LEVEL_BITS;
      svsmlctl := svsmlctl | lb;
      svsmhctl := svsmhctl & HIGH_LEVEL_BITS;
      hb := hb & !HIGH_LEVEL_BITS;
      svsmhctl := svsmhctl | hb;
      // wait until both SVSMLDLYIFG and SVSMHDLYIFG are set
      ifg := ifg | hw.fourth | SVSMLDLYIFG | SVSMHDLYIFG;
      ifg := ifg & !ALL_FLAGS;
      rie := rieBak;
      ctl0Hi := 0;
    }

    /** setVCoreUp: raise the core level to `level`, or roll back and
        return -1 (0xFFFF) when the supply is too low. */
    method SetVCoreUp(level: bv8, hw: Settle) returns (r: bv16)
      modifies this
      ensures Regs() == StepUp(old(Regs()), level, hw).regs
      ensures r == StepUp(old(Regs()), level, hw).status
    {
      ghost var p0 := Regs();
      var shortfall, rieBak, hBak, lBak := BeginStep(level, hw);
      if shortfall {
        RollBack(p0, hw, rieBak, hBak);
        return 0xFFFF;
      }
      RaiseLevel(level, hw);
      RestoreSettings(hw, rieBak, hBak, lBak);
      CommitRegs(p0, level, hw);
      r := 0;
    }

    /** One pass of the loop body at lines 145-149: step up to the next
        level, or give -1 when the target is below the current level. The
        ramp still ahead is the one that was ahead before the pass. */
    method RampStep(target: bv8, act: bv8, hw: Oracle) returns (next: bv8, status: bv8)
      requires target <= 3 && act <= 3 && target != act
      modifies this
      ensures next <= 3
      ensures target > act ==> next == act + 1
      ensures target < act ==> next == act && status == 0xFF
      ensures Ramp(Regs(), target, next, status, hw).regs == Ramp(old(Regs()), target, act, 0, hw).regs
      ensures Ramp(Regs(), target, next, status, hw).status == Ramp(old(Regs()), target, act, 0, hw).status
    {
      if target > act {
        next := act + 1;
        var r := SetVCoreUp(next, hw(next));
        status := StatusByte(r);
      } else {
        next, status := act, 0xFF;
      }
    }

    /** The loop at lines 143-150, from `actlevel` = `act` and `status` = 0.
        It runs with GIE clear, and touches only the PMM registers, so GIE
        stays clear for every setVCoreUp call it makes. */
    method RampLoop(cpu: Cpu, target: bv8, act: bv8, hw: Oracle) returns (status: bv8)
      requires target <= 3 && act <= 3
      requires cpu.sr & GIE == 0
      modifies this
      ensures cpu.sr & GIE == 0
      ensures Regs() == Ramp(old(Regs()), target, act, 0, hw).regs
      ensures status == Ramp(old(Regs()), target, act, 0, hw).status
    {
      ghost var goal := Ramp(Regs(), target, act, 0, hw);
      var actlevel := act;
      status := 0;
      while target != actlevel && status == 0
        invariant actlevel <= 3
        invariant Ramp(Regs(), target, actlevel, status, hw).regs == goal.regs
        invariant Ramp(Regs(), target, actlevel, status, hw).status == goal.status
        decreases 3 - actlevel as int, if status == 0 then 1 else 0
      {
        actlevel, status := RampStep(target, actlevel, hw);
      }
    }

    /** setVCore: mask the target to a level, read the current level, then
        step up one level at a time with interrupts disabled until the
        target is reached or a step fails; GIE is set again on exit exactly
        when it was set on entry. */
    method SetVCore(cpu: Cpu, level: bv8, hw: Oracle) returns (status: bv8)
      modifies this, cpu`sr
      ensures var r := Ramp(old(Regs()), level & PMMCOREV_3, old(Level(Regs())), 0, hw);
        Regs() == r.regs && status == r.status
      ensures cpu.sr == old(cpu.sr)
    {
      var target := level & PMMCOREV_3;
      var act := ctl0Lo & PMMCOREV_3;
      var interruptState := cpu.sr;
      cpu.sr := cpu.sr & !GIE;
      status := RampLoop(cpu, target, act, hw);
      if interruptState & GIE != 0 {
        cpu.sr := cpu.sr | GIE;
      }
    }
  }
}
