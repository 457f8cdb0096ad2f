# STM32F446 RCC driver, modelled in Dafny

This project models the reset-and-clock-control (RCC) driver in `Src/RCC_prog.c`. The driver works on one register block, of which it touches eight registers:

- CR: the oscillator enable and ready bits, HSE bypass, PLLON and PLLRDY;
- PLLCFGR: PLLM, PLLN, PLLP and PLLSRC;
- CFGR: the SW and SWS fields;
- the five peripheral clock-enable registers AHB1ENR, AHB2ENR, AHB3ENR, APB1ENR and APB2ENR.

Every driver function is a read-modify-write of those 32-bit registers. All but `RCC_SetClkStatus` check their arguments. Three of them (`RCC_SetClkStatus`, `RCC_SetSysClk` and `RCC_PLL_Config`) busy-wait on a hardware status bit. Each returns 0 for success and 1 for a rejected argument.

The project has four modules:

- `Bits`: the C bit idioms on `bv32`. Reading a flag is `(r >> k) & 1`, setting is `r | (1 << k)` and clearing is `r & ~(1 << k)`. A field is programmed by clearing it and ORing a value in. Lemmas say what each idiom does to the bits.
- `RccMap`: the bit positions and field widths, the values of the enumerations, the register contents as a value (`Registers`), and the result of a call (`Outcome`: the new registers and the returned code).
- `RccSpec`: one function per driver function, from the registers before a call to its `Outcome`. The lemmas state what the driver promises: which bits each call sets and clears, that no other bit or register changes, the error cases, and the partial write of `RCC_PLL_Config`. The same module holds a sequence-of-calls model of the clock gates, with an independent per-bit reference.
- `RccDriver`: class `Rcc`. Its `bv32` fields are the registers, and each C function is a method that updates them in place in the order the C code does. Each busy-wait is a `while` loop. Each method's postcondition ties the new register contents and the return code to the matching `RccSpec` function, or states them directly for the three sub-steps of `RCC_PLL_Config`. Lemmas show that the literal masks and shifts in the C code (`~(0x3F << 0)`, `(1 << 16)`, ...) compute the `RccSpec` steps.

**Busy-waits.** The four polling loops (lines 29, 55, 92 and 141) have no timeout. In the model, the hardware's side of each loop is one step, `HardwareSetsFlag`, `HardwareClearsFlag` or `HardwareReportsSysClk`, taken in the loop body. That step drives the polled flag to the awaited value and changes nothing else. So a loop runs its body at most once, and each call ends in exactly one state: the polled flag as awaited, and every other bit as the software left it.

**Enumeration values.** `RCC_private.h` is not part of this model, so the numeric values of its enumerations are constants in `RccMap`:

- `CLK_t`: each oscillator is the position of its CR enable bit (HSI = 0, HSE = 16, PLL = 24).
- `STATUS_t`: OFF = 0, ON = 1.
- `SYS_CLK_t`: the SW code (SYSHSI = 0, SYSHSE = 1, SYSPLLP = 2).
- `HSE_t`: NOT_BYPASSED = 0, BYPASSED = 1.

`PLL_Multiplexer` is `uint32_t` and so `bv32`, and `PLL_Division` is `uint8_t` and so `bv8`; their comparisons are unsigned, as in C. The enumeration-typed arguments (`CLK_t`, `STATUS_t`, `SYS_CLK_t`, `HSE_t` and the `RCC_*_PERIPHERAL_t` types) have an underlying type that C leaves to the implementation, and their header is not available; the model takes them, by assumption, as unsigned 32-bit values (`bv32`).

**Behaviour the model reproduces as written:**

- `RCC_SetClkStatus` waits for the ready flag (`Clk_Type + 1`) to read 1 even after an OFF request (line 29). So an OFF call returns with the ready flag set.
- `RCC_SetClkStatus` has a comment announcing a range check on the clock type (line 17), but no check follows. The model requires `clk < 31`, so that both `1 << Clk_Type` and the ready flag lie inside the register.
- The `@return` comment of `RCC_SetClkStatus` (line 14) says it returns 1 for an invalid clock type, but the body always returns 0 (line 31). `RccSpec.SetClkStatus` ensures the code is always 0.
- `RCC_PLL_Config` stops the PLL before validating anything. Each failing check then returns at once and leaves earlier writes in place:
  - an unknown source leaves the PLL stopped;
  - bad factors also leave PLLSRC written;
  - a divider in [2, 63] outside {2, 4, 6, 8} also leaves PLLM and PLLN written.
- `RCC_PLL_Config` uses its one `PLL_Division` argument for both PLLM (the input divider) and, through the switch, PLLP (the output divider).
- A gate index of 31 shifts a signed `1` into the sign bit in C. The model uses the `bv32` shift, which gives the bit pattern the register write ends with.

**Round trips that restore the registers only in part.**

- Enable then disable of one clock gate ends with the bit clear, and restores the register only when the bit started clear (`RccSpec.EnableThenDisable`).
- BYPASSED then NOT_BYPASSED ends with HSEBYP clear for any starting value, and restores CR only when HSEBYP started clear (`RccSpec.HseBypassThenNotBypassed`).

**Order of the PLL writes.** `RCC_PLL_Config` writes PLLCFGR only after the PLL is stopped and PLLRDY reads 0 (lines 91-92 come before the writes at 96-133). The sub-steps that write PLLCFGR (`Rcc.SelectPllSourceBit`, `Rcc.ProgramPllFactors`, `Rcc.ProgramPllp`, `Rcc.ProgramAndStartPll`) require PLLON and PLLRDY to be clear, and `Rcc.StopPllAndWait` ensures they are.

**Prototype.** `Inc/RCC_interface.h:23` declares `RCC_SetSysClk` with a `CLK_t` parameter, while the definition takes `SYS_CLK_t`. The model follows the definition.

## Model

| member | source | states |
|---|---|---|
| Bits.Bit | Src/RCC_prog.c:29 | body: bit k of the register reads 1, as `(r >> k) & 1`; the read the waits poll (also lines 92 and 141) |
| Bits.SetBit | Src/RCC_prog.c:23 | body: the register ORed with `1 << k`, for k below 32 |
| Bits.ClearBit | Src/RCC_prog.c:25 | body: the register ANDed with the complement of `1 << k`, for k below 32 |
| Bits.Field | Src/RCC_prog.c:55 | body: the register shifted right by the field's low bit and masked to the field's width, the read of the SWS poll |
| Bits.WithField | Src/RCC_prog.c:49-52 | body: the register with the field's bits cleared and the value shifted into them, the clear-then-OR write of SW |
| Bits.SetBitReads | Src/RCC_prog.c:23 | ORing in `1 << k` makes bit k read 1 and keeps every other bit |
| Bits.ClearBitReads | Src/RCC_prog.c:25 | `r & ~(1 << k)` makes bit k read 0 and keeps every other bit |
| Bits.ClearAfterSet | Src/RCC_prog.c:157-172 | clearing a bit just set equals clearing it in the original register |
| Bits.ClearBitNoop | Src/RCC_prog.c:172 | clearing a bit leaves the register unchanged exactly when the bit already reads 0 |
| Bits.SetBitNoop | Src/RCC_prog.c:157 | setting a bit leaves the register unchanged exactly when the bit already reads 1 |
| Bits.SameExceptTrans | Src/RCC_prog.c:113-119 | two writes in a row change at most the bits of both masks |
| RccMap.Registers.EnableReg | Src/RCC_prog.c:157 | body: the enable register of the given bus, AHB1ENR through APB2ENR, the register each gate function writes (also lines 172, 187, 202, 217, 232, 247, 262, 277 and 292) |
| RccMap.Registers.WithEnableReg | Src/RCC_prog.c:157 | replacing one bus's enable register changes that register to the given value and no other register |
| RccSpec.RequestClk | Src/RCC_prog.c:22-26 | body: CR with bit clk set when the status is ON and cleared for any other status |
| RccSpec.ClkRequested | Src/RCC_prog.c:22-29 | body: the request, then the ready flag at clk + 1 set, which is how the wait ends |
| RccSpec.ClkRequestedEnable | Src/RCC_prog.c:22-26 | after the request, the enable bit reads 1 exactly when the status is ON |
| RccSpec.ClkRequestedReady | Src/RCC_prog.c:29 | after the wait, the ready flag at clk + 1 reads 1 |
| RccSpec.ClkRequestedKeepsOtherBits | Src/RCC_prog.c:22-29 | only the enable bit and the ready flag of the oscillator can change |
| RccSpec.ClkRequestedTwice | Src/RCC_prog.c:22-29 | repeating the request on the resulting CR changes nothing more |
| RccSpec.SetClkStatus | Src/RCC_prog.c:16-32 | always returns 0 and writes CR only, for every clock and status |
| RccSpec.SetClkStatusResult | Src/RCC_prog.c:16-32 | returns 0; enable bit == (status is ON); ready flag set for ON and OFF alike; no other CR bit and no other register changes |
| RccSpec.SetClkStatusOnThenOff | Src/RCC_prog.c:22-29 | OFF after ON leaves the enable bit clear, the ready flag set, and every other bit as before ON |
| RccSpec.SetClkStatusIdempotent | Src/RCC_prog.c:16-32 | a repeated request gives the same outcome as the first |
| RccSpec.HseMode | Src/RCC_prog.c:68-78 | returns 0 exactly for BYPASSED and NOT_BYPASSED; any other mode returns 1 and writes nothing; only CR is written |
| RccSpec.HseModeBypassed | Src/RCC_prog.c:69-71 | BYPASSED returns 0, sets bit 18 and changes no other bit |
| RccSpec.HseModeNotBypassed | Src/RCC_prog.c:72-74 | NOT_BYPASSED returns 0, clears bit 18 and changes no other bit |
| RccSpec.HseBypassThenNotBypassed | Src/RCC_prog.c:68-78 | BYPASSED then NOT_BYPASSED leaves bit 18 clear and every other bit as it was, and restores the registers exactly when bit 18 started clear |
| RccSpec.SelectSysClk | Src/RCC_prog.c:48-52 | body: CFGR with the 2-bit SW field replaced by the code |
| RccSpec.SysClkSwitched | Src/RCC_prog.c:55 | body: CFGR with the 2-bit SWS field replaced by the code, which is how the wait ends |
| RccSpec.SysClkSwitchedReads | Src/RCC_prog.c:55 | once the switch completes, SWS reads the requested code |
| RccSpec.SysClkSwitchedNoop | Src/RCC_prog.c:55 | when SWS already reports the code, the completion step changes nothing, so the loop can exit at once |
| RccSpec.SetSysClk | Src/RCC_prog.c:42-58 | returns 0 exactly for a code up to SYSPLLP; a code above it returns 1 and writes nothing; only CFGR is written |
| RccSpec.SwReadsBack | Src/RCC_prog.c:48-52 | after the call, SW holds the requested code |
| RccSpec.SwsReadsBack | Src/RCC_prog.c:54-55 | after the call, SWS mirrors the requested code |
| RccSpec.SwitchKeepsOtherCfgrBits | Src/RCC_prog.c:48-55 | no CFGR bit outside SW and SWS changes |
| RccSpec.SetSysClkSwitches | Src/RCC_prog.c:48-57 | a defined code returns 0 with SW == SWS == code, no other CFGR bit and no other register changed |
| RccSpec.PllSourceValid | Src/RCC_prog.c:95-100 | body: the source is HSI or HSE, the two cases the source test accepts |
| RccSpec.PllFactorsValid | Src/RCC_prog.c:104-111 | body: the multiplier is in [50, 432] and the divider in [2, 63] |
| RccSpec.PllpMapped | Src/RCC_prog.c:122-136 | body: the divider is one of the switch's cases 2, 4, 6 and 8 |
| RccSpec.PllpCode | Src/RCC_prog.c:122-136 | body: the PLLP code each case writes, 0, 1, 2 and 3 for 2, 4, 6 and 8 |
| RccSpec.StopPll | Src/RCC_prog.c:91-92 | body: CR with PLLON cleared, then PLLRDY cleared, which is how the wait ends |
| RccSpec.StartPll | Src/RCC_prog.c:140-141 | body: CR with PLLON set, then PLLRDY set, which is how the wait ends |
| RccSpec.SelectPllSource | Src/RCC_prog.c:95-98 | body: PLLCFGR with PLLSRC cleared for HSI and set otherwise; applied only to HSI and HSE |
| RccSpec.WritePllFactors | Src/RCC_prog.c:113-119 | body: PLLCFGR with PLLM replaced by the divider, then PLLN replaced by the multiplier |
| RccSpec.WritePllp | Src/RCC_prog.c:122-134 | body: PLLCFGR with the 2-bit PLLP field replaced by the divider's code |
| RccSpec.PllRequestValid | Src/RCC_prog.c:95-136 | body: the source is valid, the factors are in range and the divider maps, the three checks that decide the return code and the restart of the PLL |
| RccSpec.PllConfigCr | Src/RCC_prog.c:89-144 | body: CR stopped, then started again when all three checks pass |
| RccSpec.PllConfigPllcfgr | Src/RCC_prog.c:89-144 | body: PLLCFGR after the writes the call reaches: none for an unknown source; the source write, then the factor write if the factors pass, then the PLLP write if the divider maps |
| RccSpec.PllpCodeIsHalfMinusOne | Src/RCC_prog.c:122-134 | the switch's PLLP code for 2, 4, 6, 8 is divider / 2 - 1 |
| RccSpec.StopPllClearsOn | Src/RCC_prog.c:91 | stopping leaves PLLON clear |
| RccSpec.StopPllClearsReady | Src/RCC_prog.c:92 | the stop wait ends with PLLRDY clear |
| RccSpec.StopPllKeepsOtherBits | Src/RCC_prog.c:91-92 | stopping changes only PLLON and PLLRDY |
| RccSpec.StartPllSetsOn | Src/RCC_prog.c:140 | starting sets PLLON |
| RccSpec.StartPllSetsReady | Src/RCC_prog.c:141 | the start wait ends with PLLRDY set |
| RccSpec.StartPllKeepsOtherBits | Src/RCC_prog.c:140-141 | starting changes only PLLON and PLLRDY |
| RccSpec.SelectPllSourceReads | Src/RCC_prog.c:95-98 | PLLSRC reads 1 exactly for HSE |
| RccSpec.SelectPllSourceKeepsOtherBits | Src/RCC_prog.c:95-98 | the source write changes only PLLSRC |
| RccSpec.FactorsSetPllm | Src/RCC_prog.c:114-118 | PLLM reads the divider |
| RccSpec.FactorsSetPlln | Src/RCC_prog.c:115-119 | PLLN reads the multiplier |
| RccSpec.FactorsKeepOtherBits | Src/RCC_prog.c:113-119 | the factor writes change only PLLM and PLLN |
| RccSpec.FactorsKeepPllsrc | Src/RCC_prog.c:113-119 | the factor writes keep PLLSRC |
| RccSpec.PllpSetsCode | Src/RCC_prog.c:122-134 | PLLP reads the code of the divider |
| RccSpec.PllpKeepsPllm | Src/RCC_prog.c:122-134 | the PLLP write keeps PLLM |
| RccSpec.PllpKeepsPlln | Src/RCC_prog.c:122-134 | the PLLP write keeps PLLN |
| RccSpec.PllpKeepsPllsrc | Src/RCC_prog.c:122-134 | the PLLP write keeps PLLSRC |
| RccSpec.PllpKeepsOtherBits | Src/RCC_prog.c:122-134 | the PLLP write changes only PLLP |
| RccSpec.PllConfig | Src/RCC_prog.c:89-144 | returns 0 exactly when the source is HSI or HSE, PLLN is in [50, 432], PLLM is in [2, 63] and the divider is 2, 4, 6 or 8, and 1 otherwise; only CR and PLLCFGR are written |
| RccSpec.PllConfigRunsPllIffSuccess | Src/RCC_prog.c:91-141 | in CR only PLLON and PLLRDY change; both end set exactly when the call returns 0 |
| RccSpec.PllConfigCrRunsPll | Src/RCC_prog.c:91-141 | CR after the call differs from CR before it at most in PLLON and PLLRDY, and both read 1 exactly when all three checks pass |
| RccSpec.PllConfigRejectsSource | Src/RCC_prog.c:91-101 | an unknown source returns 1 with the PLL stopped and PLLCFGR untouched |
| RccSpec.PllConfigRejectsFactors | Src/RCC_prog.c:95-111 | bad PLLN or PLLM returns 1 with the PLL stopped and PLLSRC written; no other PLLCFGR bit changes |
| RccSpec.PllConfigPartialWrite | Src/RCC_prog.c:113-136 | a divider outside {2, 4, 6, 8} returns 1 after writing PLLM = divider, PLLN = multiplier and PLLSRC; PLLP and all other bits unchanged; PLL stopped |
| RccSpec.PllConfigAccepts | Src/RCC_prog.c:113-143 | success: PLLM = divider, PLLN = multiplier, PLLP = divider / 2 - 1, PLLSRC = source, no other PLLCFGR bit changed, PLLON and PLLRDY set |
| RccSpec.PllConfigExample | Src/RCC_prog.c:113-143 | multiplier 192, divider 4, HSE: PLLN 192, PLLM 4, PLLP code 1, PLLSRC set, PLLRDY set, returns 0 |
| RccSpec.EnableClk | Src/RCC_prog.c:152-159 | returns 0 exactly for an index up to 31; a larger index returns 1 and writes nothing; only the bus's own enable register is written |
| RccSpec.DisableClk | Src/RCC_prog.c:167-174 | returns 0 exactly for an index up to 31; a larger index returns 1 and writes nothing; only the bus's own enable register is written |
| RccSpec.EnableClkSets | Src/RCC_prog.c:152-159 | a valid index returns 0, sets exactly that bit of the bus's register, no other register changes |
| RccSpec.DisableClkClears | Src/RCC_prog.c:167-174 | a valid index returns 0, clears exactly that bit of the bus's register, no other register changes |
| RccSpec.EnableThenDisable | Src/RCC_prog.c:152-174 | disable after enable equals clearing the bit in the original registers; the pair restores the registers exactly when the bit started clear |
| RccSpec.EnableRegsRestored | Src/RCC_prog.c:157-172 | writing a bus register leaves the registers unchanged exactly when the value written is the one already there |
| RccSpec.GateReg | Src/RCC_prog.c:152-294 | body: the bus register unchanged for an index above 31; otherwise with that bit set for an enable and cleared for a disable |
| RccSpec.Gate | Src/RCC_prog.c:152-294 | body: one enable or disable call on the bus, as the request names it |
| RccSpec.ApplyGates | Src/RCC_prog.c:152-294 | body: a sequence of gate calls on one bus, applied in order; models repeated calls and has no single source counterpart |
| RccSpec.ClockedAfter | Src/RCC_prog.c:152-294 | body: reference definition of a clock bit after a sequence of gate calls: the last call naming the bit decides it, otherwise it keeps its initial value; no single source counterpart |
| RccSpec.SetBitAt | Src/RCC_prog.c:157 | after the enable write, bit k reads 1 exactly when it did before or k is the index |
| RccSpec.ClearBitAt | Src/RCC_prog.c:172 | after the disable write, bit k reads 1 exactly when it did before and k is not the index |
| RccSpec.GateWritesEnableReg | Src/RCC_prog.c:152-174 | one gate call leaves the bus register as the per-register step says, rejection included |
| RccSpec.GateRegAt | Src/RCC_prog.c:152-174 | one gate call decides the bit it names and keeps every other bit |
| RccSpec.ApplyGatesClocked | Src/RCC_prog.c:152-294 | after any sequence of gate calls on one bus, each clock bit is what the last call naming it decided, or the initial bit if no call named it |
| RccSpec.ApplyGatesFrame | Src/RCC_prog.c:152-294 | gate calls on one bus write only that bus's enable register |
| RccDriver.SwWriteAsWritten | Src/RCC_prog.c:49-52 | clearing with `~(0b11 << 0)` and then ORing in `SYSClkType << 0` programs SW |
| RccDriver.PllFactorsAsWritten | Src/RCC_prog.c:114-119 | the two literal clears and two ORs program PLLM and PLLN |
| RccDriver.PllpDiv2AsWritten | Src/RCC_prog.c:123-125 | `case 2` writes PLLP code 0 |
| RccDriver.PllpDiv4AsWritten | Src/RCC_prog.c:126-128 | `case 4` writes PLLP code 1 |
| RccDriver.PllpDiv6AsWritten | Src/RCC_prog.c:129-131 | `case 6` writes PLLP code 2 |
| RccDriver.PllpDiv8AsWritten | Src/RCC_prog.c:132-134 | `case 8` writes PLLP code 3 |
| RccDriver.Rcc.HardwareSetsFlag | Src/RCC_prog.c:29 | the environment step of the ready waits (also line 141): the hardware sets flag k of CR and changes nothing else |
| RccDriver.Rcc.HardwareClearsFlag | Src/RCC_prog.c:92 | the environment step of the PLLRDY wait: the hardware clears flag k of CR and changes nothing else |
| RccDriver.Rcc.HardwareReportsSysClk | Src/RCC_prog.c:55 | the environment step of the switch wait: the hardware reports the code in SWS and changes nothing else |
| RccDriver.Rcc.WaitFlagSet | Src/RCC_prog.c:29 | the ready-flag wait ends with the flag set and every other CR bit as it was |
| RccDriver.Rcc.WaitFlagClear | Src/RCC_prog.c:92 | the PLLRDY wait ends with the flag clear and every other CR bit as it was |
| RccDriver.Rcc.WaitSysClkSwitched | Src/RCC_prog.c:55 | the SWS wait ends with SWS reporting the code and every other bit as it was |
| RccDriver.Rcc.SetClkStatus | Src/RCC_prog.c:16-32 | new registers and code are those of `RccSpec.SetClkStatus` |
| RccDriver.Rcc.SetSysClk | Src/RCC_prog.c:42-58 | new registers and code are those of `RccSpec.SetSysClk` |
| RccDriver.Rcc.ProgramSw | Src/RCC_prog.c:48-52 | CFGR becomes the SW write of the requested code |
| RccDriver.Rcc.HseMode | Src/RCC_prog.c:68-78 | new registers and code are those of `RccSpec.HseMode` |
| RccDriver.Rcc.PllConfig | Src/RCC_prog.c:89-144 | new registers and code are those of `RccSpec.PllConfig` |
| RccDriver.Rcc.ProgramAndStartPll | Src/RCC_prog.c:103-143 | called only with the PLL stopped; after each failing check, CR and PLLCFGR hold exactly what was written before it; on success, the factor, PLLP and start writes |
| RccDriver.Rcc.StopPllAndWait | Src/RCC_prog.c:90-92 | CR becomes the stopped-PLL value, with PLLON and PLLRDY clear |
| RccDriver.Rcc.StartPllAndWait | Src/RCC_prog.c:139-141 | CR becomes the running-PLL value |
| RccDriver.Rcc.SelectPllSourceBit | Src/RCC_prog.c:94-101 | called only with the PLL stopped; reports whether the source is HSI or HSE; if so, writes PLLSRC, otherwise writes nothing |
| RccDriver.Rcc.ProgramPllFactors | Src/RCC_prog.c:113-119 | called only with the PLL stopped; PLLCFGR becomes the PLLM/PLLN write |
| RccDriver.Rcc.ProgramPllp | Src/RCC_prog.c:121-137 | called only with the PLL stopped; reports whether the divider is 2, 4, 6 or 8; if so, writes its PLLP code, otherwise writes nothing |
| RccDriver.Rcc.PllpDiv2 | Src/RCC_prog.c:123-125 | PLLCFGR becomes the PLLP write for divider 2 |
| RccDriver.Rcc.PllpDiv4 | Src/RCC_prog.c:126-128 | PLLCFGR becomes the PLLP write for divider 4 |
| RccDriver.Rcc.PllpDiv6 | Src/RCC_prog.c:129-131 | PLLCFGR becomes the PLLP write for divider 6 |
| RccDriver.Rcc.PllpDiv8 | Src/RCC_prog.c:132-134 | PLLCFGR becomes the PLLP write for divider 8 |
| RccDriver.Rcc.Ahb1EnableClk | Src/RCC_prog.c:152-159 | new registers and code are those of `RccSpec.EnableClk` on AHB1 |
| RccDriver.Rcc.Ahb1DisableClk | Src/RCC_prog.c:167-174 | new registers and code are those of `RccSpec.DisableClk` on AHB1 |
| RccDriver.Rcc.Ahb2EnableClk | Src/RCC_prog.c:182-189 | new registers and code are those of `RccSpec.EnableClk` on AHB2 |
| RccDriver.Rcc.Ahb2DisableClk | Src/RCC_prog.c:197-204 | new registers and code are those of `RccSpec.DisableClk` on AHB2 |
| RccDriver.Rcc.Ahb3EnableClk | Src/RCC_prog.c:212-219 | new registers and code are those of `RccSpec.EnableClk` on AHB3 |
| RccDriver.Rcc.Ahb3DisableClk | Src/RCC_prog.c:227-234 | new registers and code are those of `RccSpec.DisableClk` on AHB3 |
| RccDriver.Rcc.Apb1EnableClk | Src/RCC_prog.c:242-249 | new registers and code are those of `RccSpec.EnableClk` on APB1 |
| RccDriver.Rcc.Apb1DisableClk | Src/RCC_prog.c:257-264 | new registers and code are those of `RccSpec.DisableClk` on APB1 |
| RccDriver.Rcc.Apb2EnableClk | Src/RCC_prog.c:272-279 | new registers and code are those of `RccSpec.EnableClk` on APB2 |
| RccDriver.Rcc.Apb2DisableClk | Src/RCC_prog.c:287-294 | new registers and code are those of `RccSpec.DisableClk` on APB2 |

## Left out

- Volatile, memory-mapped access and the pointer cast that places the register block at its base address (`Src/RCC_prog.c:5`): the registers are plain fields of one object.
- Timing and liveness of the busy-waits: in the model each wait ends after at most one hardware step. The C loops have no timeout and hang forever when the hardware never reaches the awaited state.
- What the hardware does besides raising or lowering the polled flag, for example the other ready flags and SWS changing on their own: the hardware steps change only the polled flag.
- Concurrency: interrupts or a second context racing on a read-modify-write are not modelled. The driver is single-context.
- C undefined behaviour of `1 << 31` on a signed `int`, and of `1 << Clk_Type` for a clock type of 31 or more: shifts are `bv32` shifts, and `SetClkStatus` requires `clk < 31`.
- `RCC_private.h` is not part of this model: the numeric values of `CLK_t`, `STATUS_t`, `SYS_CLK_t` and `HSE_t` are the constants stated above.
- `STM32F446xx.h`: only the register names of the RCC block are used. The base addresses, the GPIO register layout and the reserved words are not modelled.
- The other RCC registers (low-power enables, resets, BDCR, CSR, PLLI2S, PLLSAI): the driver does not touch them.
