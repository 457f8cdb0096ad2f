/**
 * The part of the STM32F446 RCC register block that the driver touches, the
 * bit positions it uses, and the values of the enumerations it takes as
 * arguments.
 */
module RccMap {

  // RCC_CR: each oscillator's enable bit, with its ready flag one bit above.
  const HSEBYP: bv32 := 18  // HSE bypass
  const PLLON: bv32 := 24   // main PLL enable
  const PLLRDY: bv32 := 25  // main PLL ready flag

  // RCC_PLLCFGR fields: position of the lowest bit, and width.
  const PLLM: bv32 := 0     // input divider, bits [5:0]
  const PLLM_WIDTH: bv32 := 6
  const PLLN: bv32 := 6     // multiplier, bits [14:6]
  const PLLN_WIDTH: bv32 := 9
  const PLLP: bv32 := 16    // output divider code, bits [17:16]
  const PLLP_WIDTH: bv32 := 2
  const PLLSRC: bv32 := 22  // PLL input: 0 = HSI, 1 = HSE

  // RCC_CFGR fields.
  const SW: bv32 := 0       // system clock select, bits [1:0]
  const SWS: bv32 := 2      // system clock status, bits [3:2]
  const SW_WIDTH: bv32 := 2

  // CLK_t: an oscillator, named by the position of its enable bit in CR.
  const HSI: bv32 := 0
  const HSE: bv32 := 16
  const PLL: bv32 := 24

  // STATUS_t.
  const OFF: bv32 := 0
  const ON: bv32 := 1

  // SYS_CLK_t: the codes of the SW field.
  const SYSHSI: bv32 := 0
  const SYSHSE: bv32 := 1
  const SYSPLLP: bv32 := 2

  // HSE_t.
  const NOT_BYPASSED: bv32 := 0
  const BYPASSED: bv32 := 1

  // The driver's return codes.
  const SUCCESS: bv8 := 0
  const FAILURE: bv8 := 1

  /** The five peripheral buses, each with one 32-bit clock-enable register. */
  datatype Bus = AHB1 | AHB2 | AHB3 | APB1 | APB2

  /** The contents of the registers the driver reads and writes. */
  datatype Registers = Registers(
    cr: bv32,
    pllcfgr: bv32,
    cfgr: bv32,
    ahb1enr: bv32,
    ahb2enr: bv32,
    ahb3enr: bv32,
    apb1enr: bv32,
    apb2enr: bv32)
  {
    /** The clock-enable register of `bus`. */
    function EnableReg(bus: Bus): bv32
    {
      match bus
      case AHB1 => ahb1enr
      case AHB2 => ahb2enr
      case AHB3 => ahb3enr
      case APB1 => apb1enr
      case APB2 => apb2enr
    }

    /** These registers with the enable register of `bus` replaced by `v` and nothing else changed. */
    function WithEnableReg(bus: Bus, v: bv32): (s: Registers)
      ensures s.EnableReg(bus) == v
      ensures forall b :: b != bus ==> s.EnableReg(b) == EnableReg(b)
      ensures s.cr == cr && s.pllcfgr == pllcfgr && s.cfgr == cfgr
    {
      match bus
      case AHB1 => this.(ahb1enr := v)
      case AHB2 => this.(ahb2enr := v)
      case AHB3 => this.(ahb3enr := v)
      case APB1 => this.(apb1enr := v)
      case APB2 => this.(apb2enr := v)
    }
  }

  /** The registers after a driver call, and the code the call returns. */
  datatype Outcome = Outcome(regs: Registers, code: bv8)
}
