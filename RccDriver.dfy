/**
 * The driver itself: the RCC register block as an object whose fields the
 * driver functions update in place, each function written as the sequence
 * of register operations the C code performs, busy-waits included, and
 * proved to leave the registers as the matching function of RccSpec says.
 *
 * The hardware's side of each busy-wait is a method of its own
 * (HardwareSetsFlag, HardwareClearsFlag, HardwareReportsSysClk): one step in
 * which the peripheral drives the polled flag to the value the driver waits
 * for and touches nothing else. A loop iteration is one such step, and the
 * loop ends after at most one.
 */
module RccDriver {
  import opened Bits
  import opened RccMap
  import RccSpec

  /** The SW write of RCC_SetSysClk (RCC_prog.c:49-52), with its literal masks, programs SW. */
  lemma SwWriteAsWritten(c: bv32, sw: bv32)
    requires sw <= SYSPLLP
    ensures (c & !(3 << 0)) | (sw << 0) == RccSpec.SelectSysClk(c, sw)
  {
  }

  /** The two clears and two ORs of RCC_PLL_Config program PLLM and PLLN. */
  lemma PllFactorsAsWritten(p: bv32, multiplier: bv32, division: bv8)
    requires RccSpec.PllFactorsValid(multiplier, division)
    ensures (((p & !(0x3F << 0)) & !(0x1FF << 6)) | ((division as bv32) << 0)) | (multiplier << 6)
         == RccSpec.WritePllFactors(p, multiplier, division)
  {
  }

  /** Each case of the PLLP switch writes the code of its divider. */
  lemma PllpDiv2AsWritten(p: bv32)
    ensures p & !(0x3 << 16) == RccSpec.WritePllp(p, 2)
  {
  }

  lemma PllpDiv4AsWritten(p: bv32)
    ensures (p & !(0x3 << 16)) | (1 << 16) == RccSpec.WritePllp(p, 4)
  {
  }

  lemma PllpDiv6AsWritten(p: bv32)
    ensures (p & !(0x3 << 16)) | (2 << 16) == RccSpec.WritePllp(p, 6)
  {
  }

  lemma PllpDiv8AsWritten(p: bv32)
    ensures (p & !(0x3 << 16)) | (3 << 16) == RccSpec.WritePllp(p, 8)
  {
  }

  /** The RCC register block, with the registers the driver reads and writes. */
  class Rcc {
    var CR: bv32
    var PLLCFGR: bv32
    var CFGR: bv32
    var AHB1ENR: bv32
    var AHB2ENR: bv32
    var AHB3ENR: bv32
    var APB1ENR: bv32
    var APB2ENR: bv32

    /** The register contents as a value. */
    ghost function Regs(): Registers
      reads this
    {
      Registers(CR, PLLCFGR, CFGR, AHB1ENR, AHB2ENR, AHB3ENR, APB1ENR, APB2ENR)
    }

    /** A register block holding `init`. */
    constructor (init: Registers)
      ensures Regs() == init
    {
      CR := init.cr;
      PLLCFGR := init.pllcfgr;
      CFGR := init.cfgr;
      AHB1ENR := init.ahb1enr;
      AHB2ENR := init.ahb2enr;
      AHB3ENR := init.ahb3enr;
      APB1ENR := init.apb1enr;
      APB2ENR := init.apb2enr;
    }

    // ------------------------------------------------------------ the hardware's side of a busy-wait

    /** The peripheral raises flag `k` of CR (an oscillator or the PLL has become ready). */
    method HardwareSetsFlag(k: bv32)
      requires k < 32
      modifies this`CR
      ensures CR == SetBit(old(CR), k)
    {
      CR := SetBit(CR, k);
    }

    /** The peripheral lowers flag `k` of CR (the PLL has stopped). */
    method HardwareClearsFlag(k: bv32)
      requires k < 32
      modifies this`CR
      ensures CR == ClearBit(old(CR), k)
    {
      CR := ClearBit(CR, k);
    }

    /** The clock switch completes: SWS now reports `sw`. */
    method HardwareReportsSysClk(sw: bv32)
      requires sw <= SYSPLLP
      modifies this`CFGR
      ensures CFGR == RccSpec.SysClkSwitched(old(CFGR), sw)
    {
      CFGR := RccSpec.SysClkSwitched(CFGR, sw);
    }

    // ------------------------------------------------------------ busy-waits

    /** Busy-wait until flag `k` of CR reads 1: the ready waits of RCC_SetClkStatus and RCC_PLL_Config (RCC_prog.c:29, 141). */
    method WaitFlagSet(k: bv32)
      requires k < 32
      modifies this`CR
      ensures CR == SetBit(old(CR), k)
    {
      ghost var start := CR;
      SetBitReads(start, k);
      SetBitNoop(start, k);
      while !Bit(CR, k)
        invariant CR == start || CR == SetBit(start, k)
        decreases if Bit(CR, k) then 0 else 1
      {
        HardwareSetsFlag(k);
      }
    }

    /** Busy-wait until flag `k` of CR reads 0: the PLLRDY wait of RCC_PLL_Config (RCC_prog.c:92). */
    method WaitFlagClear(k: bv32)
      requires k < 32
      modifies this`CR
      ensures CR == ClearBit(old(CR), k)
    {
      ghost var start := CR;
      ClearBitReads(start, k);
      ClearBitNoop(start, k);
      while Bit(CR, k)
        invariant CR == start || CR == ClearBit(start, k)
        decreases if Bit(CR, k) then 1 else 0
      {
        HardwareClearsFlag(k);
      }
    }

    /** Busy-wait until SWS reports `sw`: the switch wait of RCC_SetSysClk (RCC_prog.c:55). */
    method WaitSysClkSwitched(sw: bv32)
      requires sw <= SYSPLLP
      modifies this`CFGR
      ensures CFGR == RccSpec.SysClkSwitched(old(CFGR), sw)
    {
      ghost var start := CFGR;
      RccSpec.SysClkSwitchedReads(start, sw);
      if Field(start, SWS, SW_WIDTH) == sw {
        RccSpec.SysClkSwitchedNoop(start, sw);
      }
      while Field(CFGR, SWS, SW_WIDTH) != sw
        invariant CFGR == start || CFGR == RccSpec.SysClkSwitched(start, sw)
        decreases if Field(CFGR, SWS, SW_WIDTH) == sw then 0 else 1
      {
        HardwareReportsSysClk(sw);
      }
    }

    // ------------------------------------------------------------ oscillators

    /** RCC_SetClkStatus. */
    method SetClkStatus(clk: bv32, status: bv32) returns (code: bv8)
      requires clk < 31
      modifies this`CR
      ensures Regs() == RccSpec.SetClkStatus(old(Regs()), clk, status).regs
      ensures code == RccSpec.SetClkStatus(old(Regs()), clk, status).code
    {
      if status == ON {
        CR := SetBit(CR, clk);
      } else {
        CR := ClearBit(CR, clk);
      }
      WaitFlagSet(clk + 1);
      code := SUCCESS;
    }

    /** RCC_HSE_Mode. */
    method HseMode(mode: bv32) returns (code: bv8)
      modifies this`CR
      ensures Regs() == RccSpec.HseMode(old(Regs()), mode).regs
      ensures code == RccSpec.HseMode(old(Regs()), mode).code
    {
      if mode == BYPASSED {
        CR := SetBit(CR, HSEBYP);
        code := SUCCESS;
      } else if mode == NOT_BYPASSED {
        CR := ClearBit(CR, HSEBYP);
        code := SUCCESS;
      } else {
        code := FAILURE;
      }
    }

    // ------------------------------------------------------------ system clock switch

    /** RCC_SetSysClk. */
    method SetSysClk(sw: bv32) returns (code: bv8)
      modifies this`CFGR
      ensures Regs() == RccSpec.SetSysClk(old(Regs()), sw).regs
      ensures code == RccSpec.SetSysClk(old(Regs()), sw).code
    {
      if sw > SYSPLLP {
        return FAILURE;
      }
      ProgramSw(sw);
      WaitSysClkSwitched(sw);
      code := SUCCESS;
    }

    /** The SW write of RCC_SetSysClk: clear the field, then OR the selection in. */
    method ProgramSw(sw: bv32)
      requires sw <= SYSPLLP
      modifies this`CFGR
      ensures CFGR == RccSpec.SelectSysClk(old(CFGR), sw)
    {
      SwWriteAsWritten(CFGR, sw);
      CFGR := CFGR & !(3 << 0);
      CFGR := CFGR | (sw << 0);
    }

    // ------------------------------------------------------------ PLL

    /** RCC_PLL_Config. */
    method PllConfig(multiplier: bv32, division: bv8, src: bv32) returns (code: bv8)
      modifies this`CR, this`PLLCFGR
      ensures Outcome(Regs(), code) == RccSpec.PllConfig(old(Regs()), multiplier, division, src)
    {
      StopPllAndWait();

      var known := SelectPllSourceBit(src);
      if !known {
        return FAILURE;
      }

      code := ProgramAndStartPll(multiplier, division);
    }

    /**
     * The rest of RCC_PLL_Config once the input is selected: check the
     * factors, write PLLM and PLLN, map the divider to a PLLP code, start the
     * PLL and wait for it. Each rejection keeps what was already written.
     */
    method ProgramAndStartPll(multiplier: bv32, division: bv8) returns (code: bv8)
      requires !Bit(CR, PLLON) && !Bit(CR, PLLRDY)
      modifies this`CR, this`PLLCFGR
      ensures CR == (if RccSpec.PllFactorsValid(multiplier, division) && RccSpec.PllpMapped(division)
                     then RccSpec.StartPll(old(CR)) else old(CR))
      ensures PLLCFGR == (if !RccSpec.PllFactorsValid(multiplier, division) then old(PLLCFGR)
                          else if !RccSpec.PllpMapped(division) then RccSpec.WritePllFactors(old(PLLCFGR), multiplier, division)
                          else RccSpec.WritePllp(RccSpec.WritePllFactors(old(PLLCFGR), multiplier, division), division))
      ensures code == (if RccSpec.PllFactorsValid(multiplier, division) && RccSpec.PllpMapped(division) then SUCCESS else FAILURE)
    {
      if multiplier < 50 || multiplier > 432 {
        return FAILURE;
      }
      if division < 2 || division > 63 {
        return FAILURE;
      }

      ProgramPllFactors(multiplier, division);
      var mapped := ProgramPllp(division);
      if !mapped {
        return FAILURE;
      }

      StartPllAndWait();
      code := SUCCESS;
    }

    /** Clear PLLON, then wait until PLLRDY reads 0. */
    method StopPllAndWait()
      modifies this`CR
      ensures CR == RccSpec.StopPll(old(CR))
      ensures !Bit(CR, PLLON) && !Bit(CR, PLLRDY)
    {
      RccSpec.StopPllClearsOn(CR);
      RccSpec.StopPllClearsReady(CR);
      CR := ClearBit(CR, PLLON);
      WaitFlagClear(PLLRDY);
    }

    /** Set PLLON, then wait until PLLRDY reads 1. */
    method StartPllAndWait()
      modifies this`CR
      ensures CR == RccSpec.StartPll(old(CR))
    {
      CR := SetBit(CR, PLLON);
      WaitFlagSet(PLLRDY);
    }

    /**
     * The source selection of RCC_PLL_Config: clear PLLSRC for HSI, set it
     * for HSE; `known` is false, and nothing is written, for any other source.
     */
    method SelectPllSourceBit(src: bv32) returns (known: bool)
      requires !Bit(CR, PLLON) && !Bit(CR, PLLRDY)
      modifies this`PLLCFGR
      ensures known == RccSpec.PllSourceValid(src)
      ensures known ==> PLLCFGR == RccSpec.SelectPllSource(old(PLLCFGR), src)
      ensures !known ==> PLLCFGR == old(PLLCFGR)
    {
      known := true;
      if src == HSI {
        PLLCFGR := ClearBit(PLLCFGR, PLLSRC);
      } else if src == HSE {
        PLLCFGR := SetBit(PLLCFGR, PLLSRC);
      } else {
        known := false;
      }
    }

    /**
     * The PLLM and PLLN writes of RCC_PLL_Config: clear both fields, then OR
     * in the divider and the multiplier.
     */
    method ProgramPllFactors(multiplier: bv32, division: bv8)
      requires !Bit(CR, PLLON) && !Bit(CR, PLLRDY)
      requires RccSpec.PllFactorsValid(multiplier, division)
      modifies this`PLLCFGR
      ensures PLLCFGR == RccSpec.WritePllFactors(old(PLLCFGR), multiplier, division)
    {
      PllFactorsAsWritten(PLLCFGR, multiplier, division);
      PLLCFGR := PLLCFGR & !(0x3F << 0);
      PLLCFGR := PLLCFGR & !(0x1FF << 6);
      PLLCFGR := PLLCFGR | ((division as bv32) << 0);
      PLLCFGR := PLLCFGR | (multiplier << 6);
    }

    /**
     * The PLLP switch of RCC_PLL_Config; `mapped` is false where the C code
     * takes the `default` branch and returns 1.
     */
    method ProgramPllp(division: bv8) returns (mapped: bool)
      requires !Bit(CR, PLLON) && !Bit(CR, PLLRDY)
      modifies this`PLLCFGR
      ensures mapped == RccSpec.PllpMapped(division)
      ensures mapped ==> PLLCFGR == RccSpec.WritePllp(old(PLLCFGR), division)
      ensures !mapped ==> PLLCFGR == old(PLLCFGR)
    {
      mapped := true;
      if division == 2 {
        PllpDiv2();
      } else if division == 4 {
        PllpDiv4();
      } else if division == 6 {
        PllpDiv6();
      } else if division == 8 {
        PllpDiv8();
      } else {
        mapped := false;
      }
    }

    /** `case 2:` of the PLLP switch. */
    method PllpDiv2()
      modifies this`PLLCFGR
      ensures PLLCFGR == RccSpec.WritePllp(old(PLLCFGR), 2)
    {
      PllpDiv2AsWritten(PLLCFGR);
      PLLCFGR := PLLCFGR & !(0x3 << 16);
    }

    /** `case 4:` of the PLLP switch. */
    method PllpDiv4()
      modifies this`PLLCFGR
      ensures PLLCFGR == RccSpec.WritePllp(old(PLLCFGR), 4)
    {
      PllpDiv4AsWritten(PLLCFGR);
      PLLCFGR := (PLLCFGR & !(0x3 << 16)) | (1 << 16);
    }

    /** `case 6:` of the PLLP switch. */
    method PllpDiv6()
      modifies this`PLLCFGR
      ensures PLLCFGR == RccSpec.WritePllp(old(PLLCFGR), 6)
    {
      PllpDiv6AsWritten(PLLCFGR);
      PLLCFGR := (PLLCFGR & !(0x3 << 16)) | (2 << 16);
    }

    /** `case 8:` of the PLLP switch. */
    method PllpDiv8()
      modifies this`PLLCFGR
      ensures PLLCFGR == RccSpec.WritePllp(old(PLLCFGR), 8)
    {
      PllpDiv8AsWritten(PLLCFGR);
      PLLCFGR := (PLLCFGR & !(0x3 << 16)) | (3 << 16);
    }

    // ------------------------------------------------------------ peripheral clock gates

    /** RCC_AHB1_EnableClk. */
    method Ahb1EnableClk(index: bv32) returns (code: bv8)
      modifies this`AHB1ENR
      ensures Regs() == RccSpec.EnableClk(old(Regs()), AHB1, index).regs
      ensures code == RccSpec.EnableClk(old(Regs()), AHB1, index).code
    {
      if index > 31 {
        return FAILURE;
      }
      AHB1ENR := SetBit(AHB1ENR, index);
      code := SUCCESS;
    }

    /** RCC_AHB1_DisableClk. */
    method Ahb1DisableClk(index: bv32) returns (code: bv8)
      modifies this`AHB1ENR
      ensures Regs() == RccSpec.DisableClk(old(Regs()), AHB1, index).regs
      ensures code == RccSpec.DisableClk(old(Regs()), AHB1, index).code
    {
      if index > 31 {
        return FAILURE;
      }
      AHB1ENR := ClearBit(AHB1ENR, index);
      code := SUCCESS;
    }

    /** RCC_AHB2_EnableClk. */
    method Ahb2EnableClk(index: bv32) returns (code: bv8)
      modifies this`AHB2ENR
      ensures Regs() == RccSpec.EnableClk(old(Regs()), AHB2, index).regs
      ensures code == RccSpec.EnableClk(old(Regs()), AHB2, index).code
    {
      if index > 31 {
        return FAILURE;
      }
      AHB2ENR := SetBit(AHB2ENR, index);
      code := SUCCESS;
    }

    /** RCC_AHB2_DisableClk. */
    method Ahb2DisableClk(index: bv32) returns (code: bv8)
      modifies this`AHB2ENR
      ensures Regs() == RccSpec.DisableClk(old(Regs()), AHB2, index).regs
      ensures code == RccSpec.DisableClk(old(Regs()), AHB2, index).code
    {
      if index > 31 {
        return FAILURE;
      }
      AHB2ENR := ClearBit(AHB2ENR, index);
      code := SUCCESS;
    }

    /** RCC_AHB3_EnableClk. */
    method Ahb3EnableClk(index: bv32) returns (code: bv8)
      modifies this`AHB3ENR
      ensures Regs() == RccSpec.EnableClk(old(Regs()), AHB3, index).regs
      ensures code == RccSpec.EnableClk(old(Regs()), AHB3, index).code
    {
      if index > 31 {
        return FAILURE;
      }
      AHB3ENR := SetBit(AHB3ENR, index);
      code := SUCCESS;
    }

    /** RCC_AHB3_DisableClk. */
    method Ahb3DisableClk(index: bv32) returns (code: bv8)
      modifies this`AHB3ENR
      ensures Regs() == RccSpec.DisableClk(old(Regs()), AHB3, index).regs
      ensures code == RccSpec.DisableClk(old(Regs()), AHB3, index).code
    {
      if index > 31 {
        return FAILURE;
      }
      AHB3ENR := ClearBit(AHB3ENR, index);
      code := SUCCESS;
    }

    /** RCC_APB1_EnableClk. */
    method Apb1EnableClk(index: bv32) returns (code: bv8)
      modifies this`APB1ENR
      ensures Regs() == RccSpec.EnableClk(old(Regs()), APB1, index).regs
      ensures code == RccSpec.EnableClk(old(Regs()), APB1, index).code
    {
      if index > 31 {
        return FAILURE;
      }
      APB1ENR := SetBit(APB1ENR, index);
      code := SUCCESS;
    }

    /** RCC_APB1_DisableClk. */
    method Apb1DisableClk(index: bv32) returns (code: bv8)
      modifies this`APB1ENR
      ensures Regs() == RccSpec.DisableClk(old(Regs()), APB1, index).regs
      ensures code == RccSpec.DisableClk(old(Regs()), APB1, index).code
    {
      if index > 31 {
        return FAILURE;
      }
      APB1ENR := ClearBit(APB1ENR, index);
      code := SUCCESS;
    }

    /** RCC_APB2_EnableClk. */
    method Apb2EnableClk(index: bv32) returns (code: bv8)
      modifies this`APB2ENR
      ensures Regs() == RccSpec.EnableClk(old(Regs()), APB2, index).regs
      ensures code == RccSpec.EnableClk(old(Regs()), APB2, index).code
    {
      if index > 31 {
        return FAILURE;
      }
      APB2ENR := SetBit(APB2ENR, index);
      code := SUCCESS;
    }

    /** RCC_APB2_DisableClk. */
    method Apb2DisableClk(index: bv32) returns (code: bv8)
      modifies this`APB2ENR
      ensures Regs() == RccSpec.DisableClk(old(Regs()), APB2, index).regs
      ensures code == RccSpec.DisableClk(old(Regs()), APB2, index).code
    {
      if index > 31 {
        return FAILURE;
      }
      APB2ENR := ClearBit(APB2ENR, index);
      code := SUCCESS;
    }
  }
}
