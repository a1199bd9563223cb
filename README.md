# libhwsunxi register drivers in Dafny

A model of three register-level drivers for Allwinner (sunxi) SoCs from the
libhwsunxi C library:

- **GPIO**: nine banks of 32 pins. A pin id packs the bank and the pin's
  number in the bank. Each bank has four configuration words with one 4-bit
  function slot per pin, and a data word with one level bit per pin.
- **LRADC**, the low-rate ADC: one control word with seven multi-bit fields,
  a hold-on bit and an enable bit, plus two data words.
- **PWM**: one control word with a 15-bit group per channel (prescaler,
  enable, active state, clock gate) and one period word per channel. The
  period word is computed by a first-fit search over a 16-entry prescaler
  table.

Each driver is a `class` whose `initialized` flag stands for the C global
register pointer (or base address) being non-NULL. Its registers are fields
that the methods update in place. The methods return what the C functions
return: 0 on success, `-EPERM` when the driver was never initialized, `-EINVAL`
for a PWM configuration that no prescaler fits, `-errno` from a failed `open`
or `mmap` in `Init` (a negative number, since `errno` is positive then), and the pin's function or level from
`Gpio.Controller.GetCfgPin` and `Gpio.Controller.Input`. A method's
`ensures` ties the new register values to a spec function of the old ones.
Lemmas then prove, about those functions, what the driver promises: which
bits change, what reads back, and which bits stay as they were.

Files:

- `bits.dfy`: the read-modify-write of a 32-bit register (`r &= ~mask; r |= bits;`, single-bit set and clear) and its laws.
- `window.dfy`: the page arithmetic of the three init functions.
- `errno.dfy`: the error numbers.
- `gpio.dfy`, `lradc.dfy`, `pwm.dfy`: the three drivers.

Registers are `bv32` (C `unsigned int`), with one exception: the PWM period
words are integers in [0, 2^32), because they are built from the solver's
64-bit counts. C `__u64` values are integers in [0, 2^64), and every product
that may wrap is written with `% 2^64`.

The LRADC macros and `SUNXI_GPIO_PIN` shift by constants, and so does the
model (`Lradc.FieldBits`, `Gpio.PinId`). Each shift by a variable amount is
modelled as follows:

- `0xf << offset` and `val << offset` (gpio.c:135-136): `Gpio.SlotMask` and
  `Gpio.Place`, a table of the eight constant shifts by 0, 4, ..., 28.
  `Gpio.PlaceIsShift` proves the table equal to `val << offset`.
- `cfg >> offset` followed by `& 0xf` (gpio.c:162-163): `Gpio.Field`, a table
  of the same eight shifts. `Gpio.FieldIsShift` proves it equal to the C
  expression.
- `dat >>= num` followed by `& 0x1` (gpio.c:185-186): `Bits.Test`, which is
  the `bv32` shift `(r >> b) & 1` itself.
- `1 << num` (gpio.c:208 and gpio.c:210): `Bits.Bit`, which is the `bv32`
  shift `1 << b` itself.
- `<< (15 * ch)` in the four PWM macros (pwm.c:20-23): `Pwm.EnMask`,
  `Pwm.ActMask`, `Pwm.GateMask` and `Pwm.PrescalerBits`, each a table for
  channels 0 and 1. `Pwm.MasksAreMacros` proves them equal to the macros.

## Model

| member | source | states |
|---|---|---|
| `Gpio.PortIndex` | gpio.h:24 | a port letter 'A'..'I' gives a bank index below 9 |
| `Gpio.PinId` | gpio.h:24 | `SUNXI_GPIO_PIN(port, n)`; for `n` below 32 the pin decodes back to the port's bank and to `n` |
| `Gpio.Bank` | gpio.c:36 | `pin >> 5` is a bank index below 9 for every pin below 288 |
| `Gpio.Num` | gpio.c:37 | the pin's number in its bank is below 32 |
| `Gpio.CfgIndex` | gpio.c:38 | the configuration word index is below 4 |
| `Gpio.CfgOffset` | gpio.c:39 | the slot offset is a multiple of 4, at most 28 |
| `Gpio.Slot` | gpio.c:39 | the slot number is below 8, and the C offset is four times it |
| `Gpio.DecodeRecomposes` | gpio.c:36-39 | bank, word index and slot put back together give the pin id |
| `Gpio.SlotsDistinct` | gpio.c:38-39 | two different pins of one bank never share a configuration slot |
| `Gpio.DecodeEncode` | gpio.c:38-39 | pin `n` of a port built by `SUNXI_GPIO_PIN` lies in configuration word `n >> 3` of its bank, at slot `n & 7` |
| `Gpio.EncodeInjective` | gpio.h:24 | different (port, number) pairs give different pin ids |
| `Gpio.PortName` | gpio.h:24 | every bank below 9 has a port letter that maps back to it |
| `Gpio.EncodeOnto` | gpio.h:24 | every pin id below 288 is the encoding of its bank's letter and its number |
| `Gpio.EncodeBelow` | gpio.h:24 | every encoding of a port A..I and a number below 32 is below 288 |
| `Gpio.EncodeImage` | gpio.h:24 | the ids the macro can produce are exactly the ids below 288 |
| `Gpio.Place` | gpio.c:136 | `val << offset` for a slot; reading the slot back gives the low four bits of `val` |
| `Gpio.Field` | gpio.c:162-163 | `(cfg >> offset) & 0xf` for a slot; the value read is below 16 |
| `Gpio.SlotMask` | gpio.c:135 | `0xf << offset`, the four bits of a slot; `Gpio.FitsSlot` proves a value below 16 stays inside them |
| `Gpio.PlaceIsShift` | gpio.c:136 | the slot table is the C shift `val << offset` |
| `Gpio.FieldIsShift` | gpio.c:162-163 | the field table is the C `(cfg >> offset) & 0xf` |
| `Gpio.CfgWord` | gpio.c:134-136 | the configuration word after `cfg &= ~(0xf << offset)` and OR-ing in `val << offset`; its properties are the lemmas below |
| `Gpio.CfgReadBack` | gpio.c:135-136 | after `set_cfgpin`, the slot reads the low four bits of the value written |
| `Gpio.CfgSpills` | gpio.c:135-136 | the value is not masked: high bits of an out-of-range value land in the slots above |
| `Gpio.CfgInRange` | gpio.c:135-136 | a value below 16 reads back whole, and no bit outside the slot changes |
| `Gpio.FitsSlot` | gpio.c:135-136 | a value below 16 placed in a slot stays inside the slot's mask |
| `Gpio.CfgOtherSlots` | gpio.c:135-136 | the other seven pins' slots read the same after an in-range write |
| `Gpio.CfgIdempotent` | gpio.c:135-136 | writing the same configuration twice equals writing it once |
| `Gpio.FunctionCodesKeepOtherPins` | gpio.h:27-29 | INPUT, OUTPUT and PER each read back and disturb no other pin |
| `Gpio.OutputWord` | gpio.c:206-210 | the data word after `output(pin, val)`; reading the pin back gives 1 exactly when `val` is nonzero |
| `Gpio.InputValue` | gpio.c:183-186 | `(dat >> num) & 0x1`, always 0 or 1 |
| `Gpio.InputAfterOutput` | gpio.c:185-186 | after `output(pin, val)`, `input(pin)` is 1 exactly when `val` is nonzero |
| `Gpio.OutputKeepsOtherPins` | gpio.c:207-210 | writing a pin leaves the other 31 pins of the bank reading as before |
| `Gpio.OutputOneBit` | gpio.c:207-210 | writing a pin changes no bit of the data word but its own |
| `Gpio.OutputIdempotent` | gpio.c:207-210 | writing the same level twice equals writing it once |
| `Gpio.WindowCoversRegisters` | gpio.c:95-99 | for 4 KiB, 16 KiB and 64 KiB pages, the two mapped pages reach past the register block |
| `Gpio.Controller.constructor` | gpio.c:70 | before init, the base address is unset |
| `Gpio.Controller.Init` | gpio.c:79-112 | returns 0 exactly when `open` and `mmap` both succeed, and then maps two pages from the page holding 0x01c20800; a failed `open` or `mmap` returns `-errno`, which is negative, and changes nothing |
| `Gpio.Controller.SetCfgPin` | gpio.c:120-140 | without init: `-EPERM` and no write; otherwise the pin's word becomes the read-modify-write of its slot, and every other word stays |
| `Gpio.Controller.GetCfgPin` | gpio.c:147-164 | without init: `-EPERM`; otherwise the pin's 4-bit slot, a value in 0..15 |
| `Gpio.Controller.Input` | gpio.c:171-187 | without init: `-EPERM`; otherwise the pin's bit of its bank's data word |
| `Gpio.Controller.Output` | gpio.c:195-212 | without init: `-EPERM` and no write; otherwise sets or clears the pin's bit depending on `val`, and every other bank stays |
| `Gpio.OutputHighScenario` | gpio.c:120-212 | a fresh controller, initialized, with PC5 set to OUTPUT and driven high, reads back function 1 and level 1 |
| `Lradc.FieldBits` | lradc.c:20-27 | a field's macro: the argument shifted by the field's constant, high bits lost past bit 31 |
| `Lradc.Max` | lradc.c:100 | the argument each setter passes to the macro to clear its field (255, 3 or 15): a nonzero run of low ones |
| `Lradc.Mask` | lradc.c:100 | the bits a setter clears, the macro applied to the field's maximum; `Lradc.MasksDisjoint` proves the masks disjoint |
| `Lradc.Value` | lradc.c:20-27 | a field as it reads back, at most the field's maximum |
| `Lradc.SetWord` | lradc.c:100-101 | `ctrl` after a setter: `ctrl &= ~MACRO(max)`, then OR-ing in `MACRO(v)`; its properties are the setter lemmas below |
| `Lradc.HoldOnWord` | lradc.c:195-198 | `ctrl` after `set_hold_on`: bit 6 cleared for 0, set otherwise; `Lradc.HoldOnBit` proves it |
| `Lradc.MasksDisjoint` | lradc.c:20-28 | the nine groups of `ctrl` (the seven field masks, the hold-on bit and the enable bit) are pairwise disjoint |
| `Lradc.InRangeFits` | lradc.c:20-27 | a setter argument up to the field's maximum stays inside its field |
| `Lradc.SetterInRange` | lradc.c:100-101 | an in-range setter stores its argument in the field and changes no other bit |
| `Lradc.SetterAnyValue` | lradc.c:100-236 | any argument: the field reads its low bits, and its high bits are OR-ed into the bits above |
| `Lradc.DelayModulo` | lradc.c:20 | the delay field is the top byte: it stores the delay modulo 256 and disturbs no other bit |
| `Lradc.DelayAlwaysFits` | lradc.c:20 | `delay << 24` never leaves bits 24-31 |
| `Lradc.SetterIdempotent` | lradc.c:100-236 | repeating a setter call changes nothing more |
| `Lradc.SettersCommute` | lradc.c:100-236 | in-range setters of two different fields commute; the field case of `Lradc.WritesCommute` |
| `Lradc.GroupMask` | lradc.c:20-28 | the bits of each of the nine groups: a field's mask, `SUNXI_LRADC_HOLD_ON` or `SUNXI_LRADC_EN` |
| `Lradc.Target` | lradc.c:92-292 | the group each write changes: a setter its field, `set_hold_on` bit 6, `enable` and `disable` bit 0 |
| `Lradc.Apply` | lradc.c:92-292 | `ctrl` after one write of a field setter, `set_hold_on`, `enable` or `disable`, as each controller method computes it |
| `Lradc.InRange` | lradc.c:92-236 | a setter's argument is at most the field's maximum; the one-bit writes are always in range |
| `Lradc.NewBits` | lradc.c:92-292 | the bits each write ORs into its group: the shifted argument, bit 6 or nothing for hold-on, bit 0 for enable, nothing for disable |
| `Lradc.WriteIsUpdate` | lradc.c:92-292 | every write is a clear-then-OR of its own group, and an in-range write puts no bit outside it |
| `Lradc.WritesCommute` | lradc.c:92-292 | any two in-range writes to different groups commute: two field setters, a setter and `set_hold_on`, `enable` or `disable`, and `set_hold_on` with `enable` or `disable` |
| `Lradc.SetterKeepsOtherFields` | lradc.c:100-236 | an in-range setter leaves every other field's value unchanged |
| `Lradc.OutsideAgree` | lradc.c:20-27 | two words that agree outside one field agree on every other field |
| `Lradc.MaskAgree` | lradc.c:20-27 | two words that agree outside one field agree on every other field's mask |
| `Lradc.ValueAgree` | lradc.c:20-27 | a field's value depends only on the bits of its mask |
| `Lradc.HoldOnBit` | lradc.c:195-198 | hold-on 0 clears bit 6, anything else sets it; no other bit changes |
| `Lradc.WindowCoversRegisters` | lradc.c:69-73 | for 4 KiB, 16 KiB and 64 KiB pages, the mapping reaches past the 20-byte register block |
| `Lradc.Controller.constructor` | lradc.c:44 | before init, the register pointer is NULL |
| `Lradc.Controller.Init` | lradc.c:53-85 | returns 0 exactly when `open` and `mmap` both succeed, and then maps the pages holding 0x01c22800; a failure returns `-errno`, which is negative, and changes nothing |
| `Lradc.Controller.SetField` | lradc.c:92-239 | the setters: without init `-EPERM` and `ctrl` unchanged; otherwise `ctrl` is cleared by the field's mask and OR-ed with the shifted argument |
| `Lradc.Controller.SetHoldOn` | lradc.c:187-201 | without init `-EPERM`; otherwise bit 6 is cleared for 0 and set for any other value |
| `Lradc.Controller.Read` | lradc.c:247-258 | without init `-EPERM` and `*val` untouched; otherwise 0 and the channel's data word |
| `Lradc.Controller.Enable` | lradc.c:264-275 | without init `-EPERM`; otherwise bit 0 is set |
| `Lradc.Controller.Disable` | lradc.c:281-292 | without init `-EPERM`; otherwise bit 0 is cleared |
| `Lradc.ContinuousKeyScenario` | lradc.c:149-275 | a fresh controller, initialized, set to continuous key mode and enabled, reads key mode 2 and the enable bit set |
| `Pwm.Counter` | pwm.c:122-125 | the solver's counter `24000000 / table[i] * period_ns / 1000000000` in `__u64`, the product wrapping modulo 2^64; `Pwm.CounterExact` and `Pwm.ExactCounter` relate it to the exact value |
| `Pwm.RateBounds` | pwm.c:112 | dividing 24 MHz by any nonzero table entry gives 333 to 200000 |
| `Pwm.Fits` | pwm.c:126 | the test `div - 1 <= 0xFFFF` in `__u64`; `Pwm.FitsRange` gives the counters it accepts |
| `Pwm.FitsRange` | pwm.c:126 | the unsigned test `div - 1 <= 0xFFFF` accepts exactly the counters 1 to 65536, so a counter of 0 is rejected |
| `Pwm.FirstFit` | pwm.c:120-127 | the first index from `from` with a nonzero divisor whose counter fits, and no earlier one fits; 15 when none fits |
| `Pwm.Solve` | pwm.c:120-127 | the solver loop ends on the first-fit index, and its `div` passes the test exactly when the index is below 15, being that index's counter |
| `Pwm.DutyCount` | pwm.c:132-134 | `div *= duty_ns; div /= period_ns; dty = div`, with the 64-bit wrap and the truncation to `unsigned int`; `Pwm.HalfDutyAtOneKilohertz` shows a value |
| `Pwm.DutyExact` | pwm.c:132-134 | for a period count of 1 to 65536 and a duty no longer than a period up to 92233720368547 ns, the duty count is the exact floor of `prd * duty_ns / period_ns`, and at most the period count |
| `Pwm.PeriodWord` | pwm.c:141 | `((prd - 1) << 16) + (dty & 0xFFFF)` in `unsigned int`; the three lemmas below read it back |
| `Pwm.PeriodWordFields` | pwm.c:141 | the period word's high half is the period count less one, and its low half is the duty count's low 16 bits |
| `Pwm.PeriodWordNoWrap` | pwm.c:141 | for a period count of 1 to 65536 the unsigned expression does not wrap |
| `Pwm.PeriodWordInjective` | pwm.c:141 | different period counts, or duty counts differing in the low 16 bits, give different words |
| `Pwm.Configure` | pwm.c:119-134 | a call is accepted exactly when some index fits; the chosen index is the first that fits (no earlier unreserved index fits), it is never one of the reserved 5, 6, 7, 13, 14, and its period count is its counter, 1 to 65536 |
| `Pwm.Compute` | pwm.c:119-134 | the computing half of `set_config` returns what `Configure` specifies |
| `Pwm.CounterExact` | pwm.c:122-125 | below the wrap bound the counter is the exact floor of the product |
| `Pwm.CounterGrowsWithPeriod` | pwm.c:122-125 | for periods up to 92233720368547 ns, where no product wraps, a longer period never gives a smaller counter at the same index |
| `Pwm.RateShrinks` | pwm.c:112 | the table's nonzero divisors grow with the index |
| `Pwm.CounterShrinksWithIndex` | pwm.c:122-125 | for a period up to 92233720368547 ns, a larger index never gives a larger counter |
| `Pwm.LongerPeriodNoSmallerPrescaler` | pwm.c:120-127 | of two accepted calls, the longer period never has the smaller prescaler index |
| `Pwm.WrapBreaksOrder` | pwm.c:124 | with wrap-around the order breaks: 1 s selects index 4, while 92233720373548 ns wraps to a counter of 1 at index 0 |
| `Pwm.HalfDutyAtOneKilohertz` | pwm.c:120-141 | period 1000000 ns with duty 500000 ns gives index 0, counts 200 and 100, and word 0x00C70064 |
| `Pwm.FullDutyStoresNoActiveCycles` | pwm.c:120-141 | as written, a duty equal to a period of 327680000 ns gives index 0 and counts 65536 and 65536; `dty & 0xFFFF` then stores 0 active cycles in the word 0xFFFF0000 |
| `Pwm.RejectedExactly` | pwm.c:128-130 | without wrap-around a call is rejected exactly when the period is below 5000 ns or above 196807807807 ns |
| `Pwm.ShortPeriodRejected` | pwm.c:128-130 | periods below 5000 ns are rejected |
| `Pwm.TooShortAt` | pwm.c:126 | below 5000 ns no index's counter fits |
| `Pwm.LongPeriodRejected` | pwm.c:128-130 | periods from 196807807808 ns up to the wrap bound are rejected |
| `Pwm.TooLongAt` | pwm.c:126 | above 196807807807 ns no index's counter fits, up to the wrap bound |
| `Pwm.InRangeAccepted` | pwm.c:120-127 | every period from 5000 to 196807807807 ns is accepted |
| `Pwm.Index0Fits` | pwm.c:126 | index 0 fits periods 5000 to 327684999 ns |
| `Pwm.Index8Fits` | pwm.c:126 | index 8 fits periods 500000 to 32768499999 ns |
| `Pwm.Index12Fits` | pwm.c:126 | index 12 fits periods 3003004 to 196807807807 ns |
| `Pwm.ExactCounter` | pwm.c:122-125 | the counter without the 64-bit wrap; up to 92233720368547 ns it equals the solver's counter |
| `Pwm.FirstExactFit` | pwm.c:120-127 | the first-fit search on the exact counter, with the same first-fit and minimality guarantees |
| `Pwm.ConfigureExact` | pwm.c:119-134 | the intended `set_config` outcome: accepted exactly when some exact counter fits, at the first index that fits |
| `Pwm.FirstExactFitAgrees` | pwm.c:120-127 | up to 92233720368547 ns both searches end on the same index |
| `Pwm.ExactAgreesBelowWrap` | pwm.c:119-134 | up to 92233720368547 ns the code as written has the intended outcome |
| `Pwm.ExactRejectedExactly` | pwm.c:128-130 | without the wrap, a call is rejected exactly when the period is below 5000 ns or above 196807807807 ns, for every 64-bit period |
| `Pwm.ExactTooLongAt` | pwm.c:126 | above 92233720368547 ns no exact counter fits |
| `Pwm.WrapAcceptsLongPeriod` | pwm.c:124-130 | as written, a period of 92233720373548 ns is accepted at index 0 with counts 1 and 0, although the intended search rejects it |
| `Pwm.EnMask` | pwm.c:20 | `SUNXI_PWM_EN(ch)`, bit 4 of the channel's group; `Pwm.MasksAreMacros` proves it the macro |
| `Pwm.ActMask` | pwm.c:21 | `SUNXI_PWM_ACT_STATE(ch)`, bit 5 of the group |
| `Pwm.GateMask` | pwm.c:22 | `SUNXI_PWM_CLK_GATING(ch)`, bit 6 of the group |
| `Pwm.PrescalerBits` | pwm.c:23 | `SUNXI_PWM_PRESCALAR(ch, p)`, `p` in bits 0-3 of the group |
| `Pwm.PrescalerMask` | pwm.c:139 | `SUNXI_PWM_PRESCALAR(ch, 0x0F)`, the four prescaler bits that `set_config` clears |
| `Pwm.MasksAreMacros` | pwm.c:20-23 | the per-channel masks are the C macros, whose groups lie 15 bits apart |
| `Pwm.MasksDisjoint` | pwm.c:20-23 | a channel's enable, active-state, gate and prescaler bits are disjoint and fill its group; the two groups are disjoint |
| `Pwm.Index` | pwm.c:141 | the position in `ch_period` that `ch_period[ch]` writes, for channels 0 and 1 |
| `Pwm.OtherIndex` | pwm.c:141 | the position of the other channel's period word, which `Pwm.Controller.SetConfig` keeps |
| `Pwm.PolarityWord` | pwm.c:94-97 | `ctrl` after `set_polarity`; `Pwm.PolarityBits` gives its bits |
| `Pwm.EnableWord` | pwm.c:160-161 | `ctrl` after `enable`; `Pwm.EnableBits` gives its bits |
| `Pwm.DisableWord` | pwm.c:179-180 | `ctrl` after `disable`; `Pwm.DisableBits` gives its bits |
| `Pwm.ConfigWord` | pwm.c:137-142 | `ctrl` after `set_config`: gate saved and cleared, prescaler field replaced, gate restored; `Pwm.ConfigWordBits` gives its bits |
| `Pwm.PolarityBits` | pwm.c:94-97 | normal polarity sets the active-state bit, any other value clears it, and no other bit changes |
| `Pwm.EnableBits` | pwm.c:160-161 | enable sets the enable and clock-gate bits and nothing else |
| `Pwm.DisableBits` | pwm.c:179-180 | disable clears the enable and clock-gate bits and nothing else |
| `Pwm.EnableDisableUndo` | pwm.c:160-180 | disable after enable equals disable, and enable after disable equals enable |
| `Pwm.ConfigWordBits` | pwm.c:137-142 | the chosen index lands in the channel's prescaler field, and every other bit, the gate included, keeps its value |
| `Pwm.ConfigKeepsGate` | pwm.c:137-142 | the channel's clock-gate bit survives the configuration |
| `Pwm.WindowCoversRegisters` | pwm.c:62-66 | for 4 KiB, 16 KiB and 64 KiB pages, the mapping reaches past the 12-byte register block |
| `Pwm.Controller.constructor` | pwm.c:37 | before init, the register pointer is NULL |
| `Pwm.Controller.Init` | pwm.c:46-78 | returns 0 exactly when `open` and `mmap` both succeed, and then maps the pages holding 0x01c20e00; a failure returns `-errno`, which is negative, and changes nothing |
| `Pwm.Controller.SetPolarity` | pwm.c:86-100 | without init `-EPERM` and no write; otherwise `ctrl` becomes the polarity word |
| `Pwm.Controller.SetConfig` | pwm.c:109-145 | without init `-EPERM`, and when no index fits `-EINVAL`, neither writing anything; otherwise `ctrl` gets the chosen prescaler with the gate kept, and the channel's period word gets the two counts; the other channel's word never changes |
| `Pwm.Controller.Store` | pwm.c:137-142 | the writes of an accepted call: `ctrl` becomes the configuration word for the chosen index, the channel's period word gets the two counts, and the other channel's word is kept |
| `Pwm.Controller.Enable` | pwm.c:152-164 | without init `-EPERM`; otherwise sets the enable and gate bits |
| `Pwm.Controller.Disable` | pwm.c:171-183 | without init `-EPERM`; otherwise clears the enable and gate bits |
| `Pwm.HalfDutyScenario` | pwm.c:48-145 | a fresh controller, initialized and set to 1 ms at half duty on channel 0, holds the period word 0x00C70064 |
| `Bits.Update` | gpio.c:135-136 | the read-modify-write `r &= ~mask` followed by OR-ing in `bits`, used by the GPIO and LRADC multi-bit setters; its laws are the lemmas below |
| `Bits.UpdateReads` | lradc.c:100-101 | inside the mask, a read-modify-write leaves exactly the new bits |
| `Bits.UpdateSpills` | gpio.c:135-136 | outside the mask it keeps the old bits, plus any new bits that stray there |
| `Bits.UpdateKeepsOthers` | gpio.c:135-136 | an in-range update changes the masked bits and nothing else |
| `Bits.UpdateIdempotent` | lradc.c:100-101 | repeating an update changes nothing more |
| `Bits.UpdateBoth` | lradc.c:100-101 | two in-range updates of disjoint masks clear both masks and set both groups of new bits |
| `Bits.UpdatesCommute` | lradc.c:100-101 | in-range updates of disjoint masks commute |
| `Bits.SameOutside` | pwm.c:137-142 | words that agree outside one mask agree on every disjoint mask |
| `Bits.Bit` | gpio.c:208 | `1 << b` |
| `Bits.Test` | gpio.c:185-186 | `(r >> b) & 1` is 1 |
| `Bits.SetBit` | gpio.c:208 | OR-ing `1 << b` into `r` |
| `Bits.ClearBit` | gpio.c:210 | `r &= ~(1 << b)` |
| `Bits.SetBitIsUpdate` | lradc.c:198 | OR-ing in `1 << b` is the update of that bit to 1 |
| `Bits.ClearBitIsUpdate` | lradc.c:196 | `r &= ~(1 << b)` is the update of that bit to 0 |
| `Bits.TestAfterWrite` | gpio.c:207-210 | a set bit tests set, a cleared bit tests clear |
| `Bits.OneBitOnly` | gpio.c:207-210 | setting or clearing one bit changes no other bit |
| `Bits.OtherBitsTestSame` | gpio.c:207-210 | every other bit tests the same after setting or clearing one bit |
| `Bits.BitOpsIdempotent` | gpio.c:207-210 | setting or clearing a bit twice is the same as once |
| `RegisterWindow.IsPageSize` | gpio.c:95 | what `sysconf(_SC_PAGESIZE)` is taken to return, here and at lradc.c:69 and pwm.c:62: a nonzero power of two |
| `RegisterWindow.PageMask` | lradc.c:70 | `~(page_size - 1)`, in `unsigned int` |
| `RegisterWindow.PageStart` | gpio.c:97 | `base & page_mask` is page-aligned |
| `RegisterWindow.PageOffset` | gpio.c:98 | `base & ~page_mask` is below the page size |
| `RegisterWindow.StartPlusOffset` | lradc.c:71-72 | the page start plus the offset is the base address |
| `RegisterWindow.BlockLength` | lradc.c:73 | the mapped length `((block_size + addr_offset) / page_size + 1) * page_size`, in `unsigned int` |
| `RegisterWindow.BlockWindow` | lradc.c:69-73 | the mapped start is page-aligned and below the base by the offset, which is less than a page |
| `RegisterWindow.TwoPageWindow` | gpio.c:95-99 | the same for the GPIO's two-page window |

## Left out

- The SPI driver (spi.c, spi.h) is not part of this model.
- `open("/dev/mem")`, `sysconf`, `mmap` and `close` are operating-system calls. Their outcome is the `Access` parameter of each `Init`, and the page size is a parameter. The file descriptor that C leaks when `mmap` fails is not modelled.
- Registers are plain memory. `volatile` semantics are not modelled: the chip itself changing `dat` or `data[]`, or reacting to a write.
- Concurrent use of the shared mapping is not modelled; the C code has no locking.
- GPIO `init` truncates the mapped pointer to `unsigned int` (gpio.c:105). The model keeps the page-aligned window but no pointer value.
- The registers the drivers never touch are counted in the block sizes but not modelled as state: GPIO's `drv`, `pull` and interrupt block, and LRADC's `intc` and `ints` (lradc.c:33-34).
- `Gpio.Controller.SetCfgPin`, `Gpio.Controller.GetCfgPin`, `Gpio.Controller.Input`, `Gpio.Controller.Output`: pin ids of 288 and above are excluded by a precondition, because C then indexes past the nine banks.
- `Lradc.Controller.Read`: channels other than 0 and 1 are excluded by a precondition, because C then reads past `data[2]`.
- `Pwm.Controller.SetPolarity`, `Pwm.Controller.SetConfig`, `Pwm.Controller.Enable`, `Pwm.Controller.Disable`: channels other than 0 and 1 are excluded by a precondition. For them the C shifts reach past bit 31 and `ch_period[ch]` is out of bounds. The mask functions themselves treat any channel other than 0 as channel 1.
- `Pwm.LongerPeriodNoSmallerPrescaler`: proved only for periods up to 92233720368547 ns. Above that, `div * period_ns` wraps modulo 2^64 and the order fails; `Pwm.WrapBreaksOrder` shows this.
- `Pwm.RejectedExactly`: stated only up to the same bound, for the same reason. Above it the code as written accepts periods it should reject; see "## Findings".
- `Pwm.Controller.SetConfig` follows the code as written, wrap-around included. `Pwm.ExactAgreesBelowWrap` shows that it has the intended outcome, `Pwm.ConfigureExact`, for every period up to 92233720368547 ns.
- `Gpio.WindowCoversRegisters`, `Lradc.WindowCoversRegisters`, `Pwm.WindowCoversRegisters`: coverage is proved for the page sizes of 4 KiB, 16 KiB and 64 KiB, not for every power of two.
- Three shifts of a signed `int` can reach its sign bit, which is undefined behaviour in C: `0xf << 28` in gpio.c:135, `255 << 24` in `~SUNXI_LRADC_FIRST_CONVERT_DELAY(255)` (lradc.c:20, lradc.c:100), and `1 << num` for pin number 31 in gpio.c:208 and gpio.c:210. The model takes the usual two's-complement results `0xf0000000`, `0xff000000` and `0x80000000` (`Bits.Bit(31)`).
- The LRADC setters, `Pwm.Controller.SetConfig`, `Pwm.Controller.Enable` and `Pwm.Controller.Disable` write `ctrl` in several steps (lradc.c:100-101 and the other setters, pwm.c:137-142, pwm.c:160-161, pwm.c:179-180); the model writes the final value once. The intermediate values the hardware sees between the steps are not modelled. In `sunxi_pwm_set_config` the `ch_period` write also comes between the `ctrl` updates.
- A duty equal to the period when the period count is 65536 gives a duty count of 65536. The 16-bit field then holds 0 active cycles (pwm.c:132-141). The model does the same as the C code; `Pwm.FullDutyStoresNoActiveCycles` shows the case. Whether the chip then runs at no duty or at full duty is hardware behaviour and is not modelled.
- In `sunxi_pwm_set_config`, `div` starts uninitialized. The model starts it at 0; index 0 is never reserved, so the loop assigns `div` before anything reads it.
- The enumerations of lradc.h and pwm.h (key modes, voltages, sample rates, polarity) have no behaviour beyond their values. The setters take any `unsigned int`, and the model allows the same.

## Findings

| source | as written | input that shows it | evidently intended | confidence | as-written member | corrected member |
|---|---|---|---|---|---|---|
| pwm.c:120-130 | `div = div * period_ns` is a 64-bit product that wraps, so a period far too long for any prescaler can still pass `div - 1 <= 0xFFFF` | `period_ns` = 92233720373548 (about 25.6 hours), `duty_ns` = 0: at index 0, 200000 times the period wraps to 1000048384, a counter of 1, and the call returns 0 with a period count of 1 | every period above 196807807807 ns is rejected with `-EINVAL`, as for shorter too-long periods | high; not executed | `Pwm.WrapAcceptsLongPeriod` | `Pwm.ExactRejectedExactly` |

`Pwm.ConfigureExact` is the corrected search, on the exact counter
`Pwm.ExactCounter`; `Pwm.ExactRejectedExactly` proves its rejection band
for every 64-bit period. The controller keeps the code as written (see
"## Left out").
