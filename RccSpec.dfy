/**
 * What each RCC driver function does to the register block, as a function
 * from the registers before the call to the registers after it and the
 * returned code; and the properties the driver promises, as lemmas.
 *
 * Each busy-wait of the driver (a poll of a hardware flag with no timeout)
 * is modelled by its exit condition: the call returns with the polled flag
 * at the value the loop waits for, and the hardware has changed nothing
 * else meanwhile.
 *
 * Register-level steps (StopPll, WritePllFactors, ...) name the writes the
 * driver makes; a lemma per step states what the step does to the bits, and
 * the lemmas about whole calls are put together from those.
 */
module RccSpec {
  import opened Bits
  import opened RccMap

  // ================================================================ oscillators

  /** The CR value after `clk` is switched on (`|=`) or off (`&= ~`). */
  function RequestClk(cr: bv32, clk: bv32, status: bv32): bv32
    requires clk < 31
  {
    if status == ON then SetBit(cr, clk) else ClearBit(cr, clk)
  }

  /** CR once `clk` has been switched and its ready flag reads 1. */
  function ClkRequested(cr: bv32, clk: bv32, status: bv32): bv32
    requires clk < 31
  {
    SetBit(RequestClk(cr, clk, status), clk + 1)
  }

  /** RCC_SetClkStatus: switch oscillator `clk` on or off, then wait for its ready flag to read 1. */
  function SetClkStatus(s: Registers, clk: bv32, status: bv32): (o: Outcome)
    requires clk < 31
    ensures o.code == SUCCESS
    ensures o.regs == s.(cr := o.regs.cr)
  {
    Outcome(s.(cr := ClkRequested(s.cr, clk, status)), SUCCESS)
  }

  lemma ClkRequestedEnable(cr: bv32, clk: bv32, status: bv32)
    requires clk < 31
    ensures Bit(ClkRequested(cr, clk, status), clk) == (status == ON)
  {
  }

  lemma ClkRequestedReady(cr: bv32, clk: bv32, status: bv32)
    requires clk < 31
    ensures Bit(ClkRequested(cr, clk, status), clk + 1)
  {
  }

  lemma ClkRequestedKeepsOtherBits(cr: bv32, clk: bv32, status: bv32)
    requires clk < 31
    ensures SameExcept(cr, ClkRequested(cr, clk, status), BitMask(clk) | BitMask(clk + 1))
  {
  }

  lemma ClkRequestedTwice(cr: bv32, clk: bv32, status: bv32)
    requires clk < 31
    ensures ClkRequested(ClkRequested(cr, clk, status), clk, status) == ClkRequested(cr, clk, status)
  {
  }

  /**
   * The enable bit of `clk` ends as requested, its ready flag reads 1 for
   * ON and for OFF alike, no other CR bit and no other register changes, and
   * the call succeeds.
   */
  lemma SetClkStatusResult(s: Registers, clk: bv32, status: bv32)
    requires clk < 31
    ensures SetClkStatus(s, clk, status).code == SUCCESS
    ensures Bit(SetClkStatus(s, clk, status).regs.cr, clk) == (status == ON)
    ensures Bit(SetClkStatus(s, clk, status).regs.cr, clk + 1)
    ensures SameExcept(s.cr, SetClkStatus(s, clk, status).regs.cr, BitMask(clk) | BitMask(clk + 1))
    ensures SetClkStatus(s, clk, status).regs == s.(cr := SetClkStatus(s, clk, status).regs.cr)
  {
    ClkRequestedEnable(s.cr, clk, status);
    ClkRequestedReady(s.cr, clk, status);
    ClkRequestedKeepsOtherBits(s.cr, clk, status);
  }

  /**
   * OFF after ON leaves the enable bit clear and the ready flag set, and
   * every other register bit as it was before the ON request.
   */
  lemma SetClkStatusOnThenOff(s: Registers, clk: bv32)
    requires clk < 31
    ensures !Bit(SetClkStatus(SetClkStatus(s, clk, ON).regs, clk, OFF).regs.cr, clk)
    ensures Bit(SetClkStatus(SetClkStatus(s, clk, ON).regs, clk, OFF).regs.cr, clk + 1)
    ensures SameExcept(s.cr, SetClkStatus(SetClkStatus(s, clk, ON).regs, clk, OFF).regs.cr, BitMask(clk) | BitMask(clk + 1))
    ensures SetClkStatus(SetClkStatus(s, clk, ON).regs, clk, OFF).regs
         == s.(cr := SetClkStatus(SetClkStatus(s, clk, ON).regs, clk, OFF).regs.cr)
  {
    var once := SetClkStatus(s, clk, ON).regs;
    SetClkStatusResult(s, clk, ON);
    SetClkStatusResult(once, clk, OFF);
    SameExceptTrans(s.cr, once.cr, SetClkStatus(once, clk, OFF).regs.cr,
                    BitMask(clk) | BitMask(clk + 1), BitMask(clk) | BitMask(clk + 1));
  }

  /** Repeating a clock status request changes nothing more. */
  lemma SetClkStatusIdempotent(s: Registers, clk: bv32, status: bv32)
    requires clk < 31
    ensures SetClkStatus(SetClkStatus(s, clk, status).regs, clk, status) == SetClkStatus(s, clk, status)
  {
    ClkRequestedTwice(s.cr, clk, status);
  }

  // ================================================================ HSE bypass

  /** RCC_HSE_Mode: set (BYPASSED) or clear (NOT_BYPASSED) HSEBYP; reject any other mode. */
  function HseMode(s: Registers, mode: bv32): (o: Outcome)
    ensures o.code == SUCCESS <==> mode == BYPASSED || mode == NOT_BYPASSED
    ensures o.code != SUCCESS ==> o == Outcome(s, FAILURE)
    ensures o.regs == s.(cr := o.regs.cr)
  {
    if mode == BYPASSED then Outcome(s.(cr := SetBit(s.cr, HSEBYP)), SUCCESS)
    else if mode == NOT_BYPASSED then Outcome(s.(cr := ClearBit(s.cr, HSEBYP)), SUCCESS)
    else Outcome(s, FAILURE)
  }

  /** BYPASSED sets HSEBYP, succeeds, and changes no other bit. */
  lemma HseModeBypassed(s: Registers)
    ensures HseMode(s, BYPASSED).code == SUCCESS
    ensures Bit(HseMode(s, BYPASSED).regs.cr, HSEBYP)
    ensures SameExcept(s.cr, HseMode(s, BYPASSED).regs.cr, BitMask(HSEBYP))
    ensures HseMode(s, BYPASSED).regs == s.(cr := HseMode(s, BYPASSED).regs.cr)
  {
    SetBitReads(s.cr, HSEBYP);
  }

  /** NOT_BYPASSED clears HSEBYP, succeeds, and changes no other bit. */
  lemma HseModeNotBypassed(s: Registers)
    ensures HseMode(s, NOT_BYPASSED).code == SUCCESS
    ensures !Bit(HseMode(s, NOT_BYPASSED).regs.cr, HSEBYP)
    ensures SameExcept(s.cr, HseMode(s, NOT_BYPASSED).regs.cr, BitMask(HSEBYP))
    ensures HseMode(s, NOT_BYPASSED).regs == s.(cr := HseMode(s, NOT_BYPASSED).regs.cr)
  {
    ClearBitReads(s.cr, HSEBYP);
  }

  /**
   * BYPASSED followed by NOT_BYPASSED leaves HSEBYP clear whatever it was
   * before and every other bit as it was; the pair restores the registers
   * exactly when HSEBYP started clear.
   */
  lemma HseBypassThenNotBypassed(s: Registers)
    ensures HseMode(HseMode(s, BYPASSED).regs, NOT_BYPASSED).regs == s.(cr := ClearBit(s.cr, HSEBYP))
    ensures !Bit(HseMode(HseMode(s, BYPASSED).regs, NOT_BYPASSED).regs.cr, HSEBYP)
    ensures HseMode(HseMode(s, BYPASSED).regs, NOT_BYPASSED).regs == s <==> !Bit(s.cr, HSEBYP)
  {
    ClearAfterSet(s.cr, HSEBYP);
    ClearBitReads(s.cr, HSEBYP);
    ClearBitNoop(s.cr, HSEBYP);
  }

  // ================================================================ system clock switch

  /** CFGR with the SW field programmed to `sw`. */
  function SelectSysClk(cfgr: bv32, sw: bv32): bv32
    requires sw <= SYSPLLP
  {
    WithField(cfgr, SW, SW_WIDTH, sw)
  }

  /** CFGR once the hardware reports `sw` in the SWS field. */
  function SysClkSwitched(cfgr: bv32, sw: bv32): bv32
    requires sw <= SYSPLLP
  {
    WithField(cfgr, SWS, SW_WIDTH, sw)
  }

  /** Once SWS reports `sw`, the status field reads `sw`. */
  lemma SysClkSwitchedReads(c: bv32, sw: bv32)
    requires sw <= SYSPLLP
    ensures Field(SysClkSwitched(c, sw), SWS, SW_WIDTH) == sw
  {
  }

  /** A status field that already reports `sw` is left as it is. */
  lemma SysClkSwitchedNoop(c: bv32, sw: bv32)
    requires sw <= SYSPLLP && Field(c, SWS, SW_WIDTH) == sw
    ensures SysClkSwitched(c, sw) == c
  {
  }

  /**
   * RCC_SetSysClk: reject a code above SYSPLLP; otherwise program SW and
   * wait until the hardware reports the same code in SWS.
   */
  function SetSysClk(s: Registers, sw: bv32): (o: Outcome)
    ensures o.code == SUCCESS <==> sw <= SYSPLLP
    ensures o.code != SUCCESS ==> o == Outcome(s, FAILURE)
    ensures o.regs == s.(cfgr := o.regs.cfgr)
  {
    if sw > SYSPLLP then Outcome(s, FAILURE)
    else Outcome(s.(cfgr := SysClkSwitched(SelectSysClk(s.cfgr, sw), sw)), SUCCESS)
  }

  lemma SwReadsBack(c: bv32, sw: bv32)
    requires sw <= SYSPLLP
    ensures Field(SysClkSwitched(SelectSysClk(c, sw), sw), SW, SW_WIDTH) == sw
  {
  }

  lemma SwsReadsBack(c: bv32, sw: bv32)
    requires sw <= SYSPLLP
    ensures Field(SysClkSwitched(SelectSysClk(c, sw), sw), SWS, SW_WIDTH) == sw
  {
  }

  lemma SwitchKeepsOtherCfgrBits(c: bv32, sw: bv32)
    requires sw <= SYSPLLP
    ensures SameExcept(c, SysClkSwitched(SelectSysClk(c, sw), sw), FieldMask(SW, SW_WIDTH) | FieldMask(SWS, SW_WIDTH))
  {
  }

  /**
   * A defined code succeeds with SW holding it and SWS mirroring it; no
   * other CFGR bit and no other register changes.
   */
  lemma SetSysClkSwitches(s: Registers, sw: bv32)
    requires sw <= SYSPLLP
    ensures SetSysClk(s, sw).code == SUCCESS
    ensures Field(SetSysClk(s, sw).regs.cfgr, SW, SW_WIDTH) == sw
    ensures Field(SetSysClk(s, sw).regs.cfgr, SWS, SW_WIDTH) == sw
    ensures SameExcept(s.cfgr, SetSysClk(s, sw).regs.cfgr, FieldMask(SW, SW_WIDTH) | FieldMask(SWS, SW_WIDTH))
    ensures SetSysClk(s, sw).regs == s.(cfgr := SetSysClk(s, sw).regs.cfgr)
  {
    SwReadsBack(s.cfgr, sw);
    SwsReadsBack(s.cfgr, sw);
    SwitchKeepsOtherCfgrBits(s.cfgr, sw);
  }

  // ================================================================ PLL

  /** The PLL input is HSI or HSE. */
  predicate PllSourceValid(src: bv32)
  {
    src == HSI || src == HSE
  }

  /** The multiplier PLLN lies in [50, 432] and the divider PLLM in [2, 63]. */
  predicate PllFactorsValid(multiplier: bv32, division: bv8)
  {
    50 <= multiplier <= 432 && 2 <= division <= 63
  }

  /** The divider argument is one the PLLP switch maps to an output-divider code. */
  predicate PllpMapped(division: bv8)
  {
    division == 2 || division == 4 || division == 6 || division == 8
  }

  /** The PLLP code the driver's switch selects for a divider of 2, 4, 6 or 8. */
  function PllpCode(division: bv8): bv32
    requires PllpMapped(division)
  {
    match division
    case 2 => 0
    case 4 => 1
    case 6 => 2
    case 8 => 3
  }

  /** The code is half the divider minus one. */
  lemma PllpCodeIsHalfMinusOne(division: bv8)
    requires PllpMapped(division)
    ensures PllpCode(division) == (division / 2 - 1) as bv32
  {
  }

  /** CR after PLLON is cleared and the hardware has cleared PLLRDY. */
  function StopPll(cr: bv32): bv32
  {
    ClearBit(ClearBit(cr, PLLON), PLLRDY)
  }

  /** CR after PLLON is set and the hardware has set PLLRDY. */
  function StartPll(cr: bv32): bv32
  {
    SetBit(SetBit(cr, PLLON), PLLRDY)
  }

  /** PLLCFGR with PLLSRC cleared for HSI and set for any other source. */
  function SelectPllSource(pllcfgr: bv32, src: bv32): bv32
  {
    if src == HSI then ClearBit(pllcfgr, PLLSRC) else SetBit(pllcfgr, PLLSRC)
  }

  /** PLLCFGR with PLLM programmed to the divider and PLLN to the multiplier. */
  function WritePllFactors(pllcfgr: bv32, multiplier: bv32, division: bv8): bv32
    requires PllFactorsValid(multiplier, division)
  {
    WithField(WithField(pllcfgr, PLLM, PLLM_WIDTH, division as bv32), PLLN, PLLN_WIDTH, multiplier)
  }

  /** PLLCFGR with PLLP programmed to the code of the divider. */
  function WritePllp(pllcfgr: bv32, division: bv8): bv32
    requires PllpMapped(division)
  {
    WithField(pllcfgr, PLLP, PLLP_WIDTH, PllpCode(division))
  }

  /** All three checks of RCC_PLL_Config pass. */
  predicate PllRequestValid(multiplier: bv32, division: bv8, src: bv32)
  {
    PllSourceValid(src) && PllFactorsValid(multiplier, division) && PllpMapped(division)
  }

  /** CR after RCC_PLL_Config: the PLL is stopped, and restarted only when every check passes. */
  function PllConfigCr(cr: bv32, multiplier: bv32, division: bv8, src: bv32): bv32
  {
    if PllRequestValid(multiplier, division, src) then StartPll(StopPll(cr)) else StopPll(cr)
  }

  /**
   * PLLCFGR after RCC_PLL_Config: each check that fails stops the writes,
   * and what was written before it stays.
   */
  function PllConfigPllcfgr(pllcfgr: bv32, multiplier: bv32, division: bv8, src: bv32): bv32
  {
    if !PllSourceValid(src) then pllcfgr
    else
      var selected := SelectPllSource(pllcfgr, src);
      if !PllFactorsValid(multiplier, division) then selected
      else
        var factors := WritePllFactors(selected, multiplier, division);
        if !PllpMapped(division) then factors
        else WritePllp(factors, division)
  }

  /**
   * RCC_PLL_Config: stop the PLL and wait for PLLRDY to clear; select the
   * input; check PLLN and PLLM; write PLLM and PLLN; map the same divider
   * argument to a PLLP code; start the PLL and wait for PLLRDY to read 1.
   * Each rejection returns 1 at once.
   */
  function PllConfig(s: Registers, multiplier: bv32, division: bv8, src: bv32): (o: Outcome)
    ensures o.code == SUCCESS <==> PllSourceValid(src) && PllFactorsValid(multiplier, division) && PllpMapped(division)
    ensures o.code != SUCCESS ==> o.code == FAILURE
    ensures o.regs == s.(cr := o.regs.cr, pllcfgr := o.regs.pllcfgr)
  {
    Outcome(s.(cr := PllConfigCr(s.cr, multiplier, division, src),
               pllcfgr := PllConfigPllcfgr(s.pllcfgr, multiplier, division, src)),
            if PllRequestValid(multiplier, division, src) then SUCCESS else FAILURE)
  }

  // ---------------------------------------------------------------- CR steps

  lemma StopPllClearsOn(cr: bv32)
    ensures !Bit(StopPll(cr), PLLON)
  {
  }

  lemma StopPllClearsReady(cr: bv32)
    ensures !Bit(StopPll(cr), PLLRDY)
  {
  }

  lemma StopPllKeepsOtherBits(cr: bv32)
    ensures SameExcept(cr, StopPll(cr), BitMask(PLLON) | BitMask(PLLRDY))
  {
  }

  lemma StartPllSetsOn(cr: bv32)
    ensures Bit(StartPll(cr), PLLON)
  {
  }

  lemma StartPllSetsReady(cr: bv32)
    ensures Bit(StartPll(cr), PLLRDY)
  {
  }

  lemma StartPllKeepsOtherBits(cr: bv32)
    ensures SameExcept(cr, StartPll(cr), BitMask(PLLON) | BitMask(PLLRDY))
  {
  }

  // ---------------------------------------------------------------- PLLCFGR steps

  lemma SelectPllSourceReads(p: bv32, src: bv32)
    requires PllSourceValid(src)
    ensures Bit(SelectPllSource(p, src), PLLSRC) == (src == HSE)
  {
  }

  lemma SelectPllSourceKeepsOtherBits(p: bv32, src: bv32)
    ensures SameExcept(p, SelectPllSource(p, src), BitMask(PLLSRC))
  {
  }

  lemma FactorsSetPllm(p: bv32, multiplier: bv32, division: bv8)
    requires PllFactorsValid(multiplier, division)
    ensures Field(WritePllFactors(p, multiplier, division), PLLM, PLLM_WIDTH) == division as bv32
  {
  }

  lemma FactorsSetPlln(p: bv32, multiplier: bv32, division: bv8)
    requires PllFactorsValid(multiplier, division)
    ensures Field(WritePllFactors(p, multiplier, division), PLLN, PLLN_WIDTH) == multiplier
  {
  }

  lemma FactorsKeepOtherBits(p: bv32, multiplier: bv32, division: bv8)
    requires PllFactorsValid(multiplier, division)
    ensures SameExcept(p, WritePllFactors(p, multiplier, division), FieldMask(PLLM, PLLM_WIDTH) | FieldMask(PLLN, PLLN_WIDTH))
  {
  }

  lemma FactorsKeepPllsrc(p: bv32, multiplier: bv32, division: bv8)
    requires PllFactorsValid(multiplier, division)
    ensures Bit(WritePllFactors(p, multiplier, division), PLLSRC) == Bit(p, PLLSRC)
  {
  }

  lemma PllpSetsCode(p: bv32, division: bv8)
    requires PllpMapped(division)
    ensures Field(WritePllp(p, division), PLLP, PLLP_WIDTH) == PllpCode(division)
  {
  }

  lemma PllpKeepsPllm(p: bv32, division: bv8)
    requires PllpMapped(division)
    ensures Field(WritePllp(p, division), PLLM, PLLM_WIDTH) == Field(p, PLLM, PLLM_WIDTH)
  {
  }

  lemma PllpKeepsPlln(p: bv32, division: bv8)
    requires PllpMapped(division)
    ensures Field(WritePllp(p, division), PLLN, PLLN_WIDTH) == Field(p, PLLN, PLLN_WIDTH)
  {
  }

  lemma PllpKeepsPllsrc(p: bv32, division: bv8)
    requires PllpMapped(division)
    ensures Bit(WritePllp(p, division), PLLSRC) == Bit(p, PLLSRC)
  {
  }

  lemma PllpKeepsOtherBits(p: bv32, division: bv8)
    requires PllpMapped(division)
    ensures SameExcept(p, WritePllp(p, division), FieldMask(PLLP, PLLP_WIDTH))
  {
  }

  // ---------------------------------------------------------------- whole calls

  /** In CR only PLLON and PLLRDY change, and both end set exactly when the call succeeds. */
  lemma PllConfigRunsPllIffSuccess(s: Registers, multiplier: bv32, division: bv8, src: bv32)
    ensures SameExcept(s.cr, PllConfig(s, multiplier, division, src).regs.cr, BitMask(PLLON) | BitMask(PLLRDY))
    ensures Bit(PllConfig(s, multiplier, division, src).regs.cr, PLLON)
        == (PllConfig(s, multiplier, division, src).code == SUCCESS)
    ensures Bit(PllConfig(s, multiplier, division, src).regs.cr, PLLRDY)
        == (PllConfig(s, multiplier, division, src).code == SUCCESS)
  {
    PllConfigCrRunsPll(s.cr, multiplier, division, src);
  }

  /** CR after RCC_PLL_Config differs from CR before it at most in PLLON and PLLRDY, which both end set exactly when every check passes. */
  lemma PllConfigCrRunsPll(cr: bv32, multiplier: bv32, division: bv8, src: bv32)
    ensures SameExcept(cr, PllConfigCr(cr, multiplier, division, src), BitMask(PLLON) | BitMask(PLLRDY))
    ensures Bit(PllConfigCr(cr, multiplier, division, src), PLLON) == PllRequestValid(multiplier, division, src)
    ensures Bit(PllConfigCr(cr, multiplier, division, src), PLLRDY) == PllRequestValid(multiplier, division, src)
  {
    StopPllKeepsOtherBits(cr);
    if PllRequestValid(multiplier, division, src) {
      StartPllSetsOn(StopPll(cr));
      StartPllSetsReady(StopPll(cr));
      StartPllKeepsOtherBits(StopPll(cr));
      SameExceptTrans(cr, StopPll(cr), StartPll(StopPll(cr)),
                      BitMask(PLLON) | BitMask(PLLRDY), BitMask(PLLON) | BitMask(PLLRDY));
    } else {
      StopPllClearsOn(cr);
      StopPllClearsReady(cr);
    }
  }

  /** A source other than HSI or HSE fails with the PLL stopped and PLLCFGR untouched. */
  lemma PllConfigRejectsSource(s: Registers, multiplier: bv32, division: bv8, src: bv32)
    requires !PllSourceValid(src)
    ensures PllConfig(s, multiplier, division, src) == Outcome(s.(cr := StopPll(s.cr)), FAILURE)
    ensures !Bit(PllConfig(s, multiplier, division, src).regs.cr, PLLON)
    ensures !Bit(PllConfig(s, multiplier, division, src).regs.cr, PLLRDY)
  {
    StopPllClearsOn(s.cr);
    StopPllClearsReady(s.cr);
  }

  /**
   * A valid source with PLLN or PLLM out of range fails with the PLL
   * stopped; PLLSRC has already been written, and every other PLLCFGR bit
   * (PLLM, PLLN and PLLP among them) is unchanged.
   */
  lemma PllConfigRejectsFactors(s: Registers, multiplier: bv32, division: bv8, src: bv32)
    requires PllSourceValid(src) && !PllFactorsValid(multiplier, division)
    ensures PllConfig(s, multiplier, division, src).code == FAILURE
    ensures Bit(PllConfig(s, multiplier, division, src).regs.pllcfgr, PLLSRC) == (src == HSE)
    ensures SameExcept(s.pllcfgr, PllConfig(s, multiplier, division, src).regs.pllcfgr, BitMask(PLLSRC))
    ensures !Bit(PllConfig(s, multiplier, division, src).regs.cr, PLLON)
    ensures !Bit(PllConfig(s, multiplier, division, src).regs.cr, PLLRDY)
  {
    StopPllClearsOn(s.cr);
    StopPllClearsReady(s.cr);
    SelectPllSourceReads(s.pllcfgr, src);
    SelectPllSourceKeepsOtherBits(s.pllcfgr, src);
  }

  /**
   * Partial write: with valid source and factors but a divider outside
   * {2, 4, 6, 8}, the call fails after PLLM and PLLN have been programmed;
   * PLLP and every other bit outside PLLM, PLLN and PLLSRC are unchanged, and
   * the PLL is left stopped.
   */
  lemma PllConfigPartialWrite(s: Registers, multiplier: bv32, division: bv8, src: bv32)
    requires PllSourceValid(src) && PllFactorsValid(multiplier, division) && !PllpMapped(division)
    ensures PllConfig(s, multiplier, division, src).code == FAILURE
    ensures Field(PllConfig(s, multiplier, division, src).regs.pllcfgr, PLLM, PLLM_WIDTH) == division as bv32
    ensures Field(PllConfig(s, multiplier, division, src).regs.pllcfgr, PLLN, PLLN_WIDTH) == multiplier
    ensures Bit(PllConfig(s, multiplier, division, src).regs.pllcfgr, PLLSRC) == (src == HSE)
    ensures SameExcept(s.pllcfgr, PllConfig(s, multiplier, division, src).regs.pllcfgr,
                       BitMask(PLLSRC) | (FieldMask(PLLM, PLLM_WIDTH) | FieldMask(PLLN, PLLN_WIDTH)))
    ensures !Bit(PllConfig(s, multiplier, division, src).regs.cr, PLLON)
    ensures !Bit(PllConfig(s, multiplier, division, src).regs.cr, PLLRDY)
  {
    var selected := SelectPllSource(s.pllcfgr, src);
    StopPllClearsOn(s.cr);
    StopPllClearsReady(s.cr);
    SelectPllSourceReads(s.pllcfgr, src);
    SelectPllSourceKeepsOtherBits(s.pllcfgr, src);
    FactorsSetPllm(selected, multiplier, division);
    FactorsSetPlln(selected, multiplier, division);
    FactorsKeepPllsrc(selected, multiplier, division);
    FactorsKeepOtherBits(selected, multiplier, division);
    SameExceptTrans(s.pllcfgr, selected, WritePllFactors(selected, multiplier, division),
                    BitMask(PLLSRC), FieldMask(PLLM, PLLM_WIDTH) | FieldMask(PLLN, PLLN_WIDTH));
  }

  /**
   * Success: PLLM holds the divider, PLLN the multiplier, PLLP the code
   * divider / 2 - 1 and PLLSRC the source; no other PLLCFGR bit changes; the
   * PLL is on and reports ready.
   */
  lemma PllConfigAccepts(s: Registers, multiplier: bv32, division: bv8, src: bv32)
    requires PllSourceValid(src) && PllFactorsValid(multiplier, division) && PllpMapped(division)
    ensures PllConfig(s, multiplier, division, src).code == SUCCESS
    ensures Field(PllConfig(s, multiplier, division, src).regs.pllcfgr, PLLM, PLLM_WIDTH) == division as bv32
    ensures Field(PllConfig(s, multiplier, division, src).regs.pllcfgr, PLLN, PLLN_WIDTH) == multiplier
    ensures Field(PllConfig(s, multiplier, division, src).regs.pllcfgr, PLLP, PLLP_WIDTH) == (division / 2 - 1) as bv32
    ensures Bit(PllConfig(s, multiplier, division, src).regs.pllcfgr, PLLSRC) == (src == HSE)
    ensures SameExcept(s.pllcfgr, PllConfig(s, multiplier, division, src).regs.pllcfgr,
                       BitMask(PLLSRC) | (FieldMask(PLLM, PLLM_WIDTH) | FieldMask(PLLN, PLLN_WIDTH)) | FieldMask(PLLP, PLLP_WIDTH))
    ensures Bit(PllConfig(s, multiplier, division, src).regs.cr, PLLON)
    ensures Bit(PllConfig(s, multiplier, division, src).regs.cr, PLLRDY)
  {
    var selected := SelectPllSource(s.pllcfgr, src);
    var factors := WritePllFactors(selected, multiplier, division);
    StartPllSetsOn(StopPll(s.cr));
    StartPllSetsReady(StopPll(s.cr));
    SelectPllSourceReads(s.pllcfgr, src);
    SelectPllSourceKeepsOtherBits(s.pllcfgr, src);
    FactorsSetPllm(selected, multiplier, division);
    FactorsSetPlln(selected, multiplier, division);
    FactorsKeepPllsrc(selected, multiplier, division);
    FactorsKeepOtherBits(selected, multiplier, division);
    PllpSetsCode(factors, division);
    PllpCodeIsHalfMinusOne(division);
    PllpKeepsPllm(factors, division);
    PllpKeepsPlln(factors, division);
    PllpKeepsPllsrc(factors, division);
    PllpKeepsOtherBits(factors, division);
    SameExceptTrans(s.pllcfgr, selected, factors,
                    BitMask(PLLSRC), FieldMask(PLLM, PLLM_WIDTH) | FieldMask(PLLN, PLLN_WIDTH));
    SameExceptTrans(s.pllcfgr, factors, WritePllp(factors, division),
                    BitMask(PLLSRC) | (FieldMask(PLLM, PLLM_WIDTH) | FieldMask(PLLN, PLLN_WIDTH)), FieldMask(PLLP, PLLP_WIDTH));
  }

  /**
   * A worked case: multiplier 192, divider 4, source HSE. PLLN reads 192,
   * PLLM 4, PLLP code 1 and PLLSRC 1, and the call succeeds with PLLRDY set.
   */
  lemma PllConfigExample(s: Registers)
    ensures PllConfig(s, 192, 4, HSE).code == SUCCESS
    ensures Field(PllConfig(s, 192, 4, HSE).regs.pllcfgr, PLLN, PLLN_WIDTH) == 192
    ensures Field(PllConfig(s, 192, 4, HSE).regs.pllcfgr, PLLM, PLLM_WIDTH) == 4
    ensures Field(PllConfig(s, 192, 4, HSE).regs.pllcfgr, PLLP, PLLP_WIDTH) == 1
    ensures Bit(PllConfig(s, 192, 4, HSE).regs.pllcfgr, PLLSRC)
    ensures Bit(PllConfig(s, 192, 4, HSE).regs.cr, PLLRDY)
  {
    PllConfigAccepts(s, 192, 4, HSE);
  }

  // ================================================================ peripheral clock gates

  /** RCC_<bus>_EnableClk: reject an index above 31; otherwise set bit `index` of the bus's enable register. */
  function EnableClk(s: Registers, bus: Bus, index: bv32): (o: Outcome)
    ensures o.code == SUCCESS <==> index <= 31
    ensures o.code != SUCCESS ==> o == Outcome(s, FAILURE)
    ensures o.regs == s.WithEnableReg(bus, o.regs.EnableReg(bus))
  {
    if index > 31 then Outcome(s, FAILURE)
    else Outcome(s.WithEnableReg(bus, SetBit(s.EnableReg(bus), index)), SUCCESS)
  }

  /** RCC_<bus>_DisableClk: reject an index above 31; otherwise clear bit `index` of the bus's enable register. */
  function DisableClk(s: Registers, bus: Bus, index: bv32): (o: Outcome)
    ensures o.code == SUCCESS <==> index <= 31
    ensures o.code != SUCCESS ==> o == Outcome(s, FAILURE)
    ensures o.regs == s.WithEnableReg(bus, o.regs.EnableReg(bus))
  {
    if index > 31 then Outcome(s, FAILURE)
    else Outcome(s.WithEnableReg(bus, ClearBit(s.EnableReg(bus), index)), SUCCESS)
  }

  /**
   * Enabling a valid index succeeds, sets that bit, and changes no other bit
   * of that register and no other register.
   */
  lemma EnableClkSets(s: Registers, bus: Bus, index: bv32)
    requires index <= 31
    ensures EnableClk(s, bus, index).code == SUCCESS
    ensures Bit(EnableClk(s, bus, index).regs.EnableReg(bus), index)
    ensures SameExcept(s.EnableReg(bus), EnableClk(s, bus, index).regs.EnableReg(bus), BitMask(index))
    ensures EnableClk(s, bus, index).regs == s.WithEnableReg(bus, EnableClk(s, bus, index).regs.EnableReg(bus))
  {
    SetBitReads(s.EnableReg(bus), index);
  }

  /**
   * Disabling a valid index succeeds, clears that bit, and changes no other
   * bit of that register and no other register.
   */
  lemma DisableClkClears(s: Registers, bus: Bus, index: bv32)
    requires index <= 31
    ensures DisableClk(s, bus, index).code == SUCCESS
    ensures !Bit(DisableClk(s, bus, index).regs.EnableReg(bus), index)
    ensures SameExcept(s.EnableReg(bus), DisableClk(s, bus, index).regs.EnableReg(bus), BitMask(index))
    ensures DisableClk(s, bus, index).regs == s.WithEnableReg(bus, DisableClk(s, bus, index).regs.EnableReg(bus))
  {
    ClearBitReads(s.EnableReg(bus), index);
  }

  /**
   * Enable followed by disable of the same index leaves the bit clear and
   * everything else as it was; it restores the registers exactly when the
   * bit started clear.
   */
  lemma EnableThenDisable(s: Registers, bus: Bus, index: bv32)
    requires index <= 31
    ensures DisableClk(EnableClk(s, bus, index).regs, bus, index).regs
         == s.WithEnableReg(bus, ClearBit(s.EnableReg(bus), index))
    ensures DisableClk(EnableClk(s, bus, index).regs, bus, index).regs == s
        <==> !Bit(s.EnableReg(bus), index)
  {
    ClearAfterSet(s.EnableReg(bus), index);
    ClearBitNoop(s.EnableReg(bus), index);
    EnableRegsRestored(s, bus, ClearBit(s.EnableReg(bus), index));
  }

  /** Writing back the value a register already holds changes nothing, and only that leaves the registers as they were. */
  lemma EnableRegsRestored(s: Registers, bus: Bus, v: bv32)
    ensures s.WithEnableReg(bus, v) == s <==> v == s.EnableReg(bus)
  {
  }

  // ---------------------------------------------------------------- a sequence of gate calls

  /** One gate call: enable or disable the peripheral at `index`. */
  datatype GateRequest = Enable(index: bv32) | Disable(index: bv32)

  /** The outcome of one gate call on `bus`. */
  function Gate(s: Registers, bus: Bus, q: GateRequest): Outcome
  {
    match q
    case Enable(i) => EnableClk(s, bus, i)
    case Disable(i) => DisableClk(s, bus, i)
  }

  /** The registers after the gate calls `qs` on `bus`, made in order; a rejected call writes nothing. */
  function ApplyGates(s: Registers, bus: Bus, qs: seq<GateRequest>): Registers
    decreases |qs|
  {
    if qs == [] then s else Gate(ApplyGates(s, bus, qs[..|qs| - 1]), bus, qs[|qs| - 1]).regs
  }

  /**
   * An independent account of whether peripheral `k` is clocked after the
   * calls `qs`: the last call naming `k` decides, and with no such call the
   * initial state `on` stands.
   */
  function ClockedAfter(on: bool, k: bv32, qs: seq<GateRequest>): bool
    decreases |qs|
  {
    if qs == [] then on
    else if qs[|qs| - 1].index == k then qs[|qs| - 1].Enable?
    else ClockedAfter(on, k, qs[..|qs| - 1])
  }

  lemma SetBitAt(r: bv32, i: bv32, k: bv32)
    requires i < 32 && k < 32
    ensures Bit(SetBit(r, i), k) <==> Bit(r, k) || k == i
  {
  }

  lemma ClearBitAt(r: bv32, i: bv32, k: bv32)
    requires i < 32 && k < 32
    ensures Bit(ClearBit(r, i), k) <==> Bit(r, k) && k != i
  {
  }

  /** The enable register after one gate call, when it held `r` before. */
  function GateReg(r: bv32, q: GateRequest): bv32
  {
    if q.index > 31 then r
    else if q.Enable? then SetBit(r, q.index)
    else ClearBit(r, q.index)
  }

  lemma GateWritesEnableReg(s: Registers, bus: Bus, q: GateRequest)
    ensures Gate(s, bus, q).regs.EnableReg(bus) == GateReg(s.EnableReg(bus), q)
  {
    if q.index <= 31 {
      var v := GateReg(s.EnableReg(bus), q);
      assert Gate(s, bus, q).regs == s.WithEnableReg(bus, v);
    }
  }

  /** One gate call decides the bit it names and leaves every other bit as it was. */
  lemma GateRegAt(r: bv32, q: GateRequest, k: bv32)
    requires k < 32
    ensures Bit(GateReg(r, q), k) == if q.index == k then q.Enable? else Bit(r, k)
  {
    if q.index <= 31 {
      if q.Enable? {
        SetBitAt(r, q.index, k);
      } else {
        ClearBitAt(r, q.index, k);
      }
    }
  }

  /**
   * After any sequence of gate calls on one bus, each peripheral's clock
   * bit is what the per-bit account `ClockedAfter` predicts.
   */
  lemma {:induction false} ApplyGatesClocked(s: Registers, bus: Bus, qs: seq<GateRequest>, k: bv32)
    requires k < 32
    ensures Bit(ApplyGates(s, bus, qs).EnableReg(bus), k) == ClockedAfter(Bit(s.EnableReg(bus), k), k, qs)
    decreases |qs|
  {
    if qs != [] {
      var before := ApplyGates(s, bus, qs[..|qs| - 1]);
      ApplyGatesClocked(s, bus, qs[..|qs| - 1], k);
      GateWritesEnableReg(before, bus, qs[|qs| - 1]);
      GateRegAt(before.EnableReg(bus), qs[|qs| - 1], k);
    }
  }

  /** Gate calls on one bus write that bus's enable register and no other register. */
  lemma {:induction false} ApplyGatesFrame(s: Registers, bus: Bus, qs: seq<GateRequest>)
    ensures ApplyGates(s, bus, qs) == s.WithEnableReg(bus, ApplyGates(s, bus, qs).EnableReg(bus))
    decreases |qs|
  {
    if qs != [] {
      var before := ApplyGates(s, bus, qs[..|qs| - 1]);
      ApplyGatesFrame(s, bus, qs[..|qs| - 1]);
      WithEnableRegTwice(s, bus, before.EnableReg(bus), ApplyGates(s, bus, qs).EnableReg(bus));
    }
  }

  /** A second write to the same enable register overrides the first; a helper for `ApplyGatesFrame`. */
  lemma WithEnableRegTwice(s: Registers, bus: Bus, v: bv32, w: bv32)
    ensures s.WithEnableReg(bus, v).WithEnableReg(bus, w) == s.WithEnableReg(bus, w)
  {
  }
}
