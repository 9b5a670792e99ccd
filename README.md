# PSLab oscilloscope and power-source command handlers in Dafny

This project models the foreground command handlers of two PSLab firmware
instruments. Each handler is a deterministic operation on explicit state.

* **Oscilloscope capture setup** (`instruments/oscilloscope.c`). The firmware's
  globals are the fields of one `Oscilloscope.Scope` object. They are the
  channel count `CHANNELS`, `SAMPLES_REQUESTED`, `DELAY`, the write cursors
  `BUFFER_IDX[]` (an `array<nat>` of four offsets into `BUFFER`), the session
  (`CONVERSION_DONE`, `SAMPLES_CAPTURED`), the trigger flags
  (`TRIGGERED`, `TRIGGER_WAITING`, `TRIGGER_READY`) and the trigger
  configuration (`TRIGGER_CHANNEL`, `TRIGGER_PRESCALER`, `TRIGGER_LEVEL`).
  The peripherals are abstract records of the values the handlers pass to their
  drivers: ADC1 (mode, sample-and-hold inputs, channel count, interrupt flag,
  interrupt enable), DMA channel 0 (destination, source, transfer count,
  interrupt bits, channel enable), TMR5 (period, prescaler, stop-in-idle,
  interrupt bits, running) and the three chip-select pins.
  Four handlers arm an interrupt-per-sample capture of 1–4 channels:
  `CaptureOne`, `CaptureTwo`, `CaptureThree` and `CaptureFour`. `CaptureDMA`
  arms a single-channel DMA burst. `GetCaptureStatus` reports the session.
  `ConfigureTrigger` stores the trigger settings. `SetPGAGain` programs a
  MAX5400 potentiometer behind the 3-line chip-select encoder `SetCS`.
  The gain table and `SetCS` are total functions. The handlers that update
  globals step by step are methods with field-level `modifies` frames.
* **Power source** (`instruments/powersource.c`). `SetPower` packs an MCP4822
  command word from a masked channel index, the constant
  `channel_mapping_table` and a 12-bit value. `SetDAC` builds a four-byte I2C
  DAC frame. Both are pure functions that return the bus trace they emit.

Bytes read from the UART (`UART1_Read`, `UART1_ReadInt`) are parameters of
each handler. UART output is a returned sequence of `WriteByte` / `WriteInt`
calls. SPI and I2C activity is a returned sequence of `Bus.BusEvent`s:
close, open, chip-select levels, exchanged byte or word, I2C start,
transmitted byte and stop. Modules: `Bus`, `ChipSelect`, `PgaGain`,
`Oscilloscope`, `PowerSource`.

Integer widths. `UART1_ReadInt` yields 16 bits, so `SAMPLES_REQUESTED`,
`DELAY`, `SAMPLES_CAPTURED` and `TRIGGER_LEVEL` are `uint16`. The DMA
count `SAMPLES_REQUESTED - 1` and the timer period `DELAY - 1` are written
to 16-bit driver arguments. Both are therefore modelled as 16-bit modular
subtraction (`Oscilloscope.MinusOne16`): exact for every value ≥ 1, and 0
wraps to 0xFFFF. No precondition excludes 0, because the code does not
reject it. Values that are bit patterns (configuration bytes, the MCP4822
word, I2C bytes) are `bv8` / `bv16`.

The code does not guard these cases, and the model adds no guard:
* A delay or sample count of 0 wraps as above.
* A sample count larger than `BUFFER` is accepted.

Further facts about the code that the model keeps:
* On the interrupt path, bit 7 of the capture configuration enables the
  trigger.
* `CaptureDMA` does not touch the trigger flags or `BUFFER_IDX`.

## Model

| member | source | states |
|---|---|---|
| ChipSelect.SetCS | pslab-core.X/instruments/oscilloscope.c:181-220 | for channels 1..6 the pins present multiplexer address `channel - 1`; every other channel, including 0 and 7, presents address 7 |
| ChipSelect.PinsDetermined | pslab-core.X/instruments/oscilloscope.c:181-218 | the 3-pin encoding is a bijection: the address fixes all three pin levels |
| ChipSelect.SetCSIsBinary | pslab-core.X/instruments/oscilloscope.c:181-218 | (CS1, CS2, CS3) are the binary digits of `c - 1`, least significant first, High meaning 1, for 1 ≤ c ≤ 6; all High otherwise |
| ChipSelect.SetCSInjective | pslab-core.X/instruments/oscilloscope.c:181-218 | distinct connected channels give distinct pin patterns, and none of them equals the released pattern |
| ChipSelect.UnsetCS | pslab-core.X/instruments/oscilloscope.c:127-129 | `UnsetCS` equals `SetCS(7)`: all three pins High, the unconnected address 7 |
| PgaGain.GainFactor | pslab-core.X/instruments/oscilloscope.c:135-168 | the amplification each selector names is between 1 (the default, including selector 0) and 32 |
| PgaGain.GainResistor | pslab-core.X/instruments/oscilloscope.c:135-168 | the resistor byte is 255 exactly for selectors outside 1..7, and never below 8 |
| PgaGain.GainResistorIsRoundedQuotient | pslab-core.X/instruments/oscilloscope.c:136-166 | every table entry (128, 64, 51, 32, 26, 16, 8, default 255) is 255 / gain rounded half up |
| PgaGain.GainResistorDecreasing | pslab-core.X/instruments/oscilloscope.c:135-168 | a higher selector in 1..7 gives a strictly smaller resistor, and the default is larger than all of them |
| PgaGain.PgaGainTrace | pslab-core.X/instruments/oscilloscope.c:170-175 | close, open `PGA_CONFIG`, `SetCS(channel)`, exchange `GainResistor(gain)`, `UnsetCS`, close; the exchange is the only SPI transfer in the sequence |
| PgaGain.PgaGainExchangesOneByte | pslab-core.X/instruments/oscilloscope.c:170-175 | exactly one SPI byte, the table's resistor, is exchanged, right after `SetCS(channel)`; then `UnsetCS` and SPI close follow |
| Oscilloscope.DecodeCaptureConfig | pslab-core.X/instruments/oscilloscope.c:47-49 | channel-0 sample-and-hold is `config & 0x0F` (< 16); the channels 1–3 input is 0 or 0x10; trigger iff bit 7; the three fields rebuild `config & 0x9F` |
| Oscilloscope.DecodeCaptureConfigIgnoresBits5And6 | pslab-core.X/instruments/oscilloscope.c:47-49 | bytes that differ only in bits 5 and 6 decode alike |
| Oscilloscope.DmaMode | pslab-core.X/instruments/oscilloscope.c:77 | 12-bit DMA mode iff bit 7 of the configuration is set, else 10-bit DMA mode |
| Oscilloscope.DecodeTriggerConfig | pslab-core.X/instruments/oscilloscope.c:120-122 | trigger channel is the low nibble and prescaler the high nibble, both ≤ 15; together they rebuild the byte |
| Oscilloscope.MinusOne16 | pslab-core.X/instruments/oscilloscope.c:84 | the value given to the 16-bit transfer-count and period registers is `x - 1` for x ≥ 1 and 0xFFFF for 0 |
| Oscilloscope.SegmentsDisjoint | pslab-core.X/instruments/oscilloscope.c:57-60 | the segment starting at `i * S` ends no later than any later segment `j * S` starts |
| Oscilloscope.SegmentOwnerUnique | pslab-core.X/instruments/oscilloscope.c:57-60 | no `BUFFER` slot lies in two channels' segments |
| Oscilloscope.SegmentsCover | pslab-core.X/instruments/oscilloscope.c:57-60 | the segments are contiguous: each slot below `(CHANNELS + 1) * S` lies in the segment of active channel `k / S` |
| Oscilloscope.PacingTimer | pslab-core.X/instruments/oscilloscope.c:103-111 | TMR5 gets period `MinusOne16(DELAY)` (`DELAY - 1`, 0xFFFF for 0) and prescaler 8, stops in idle, has its flag cleared and interrupt disabled, and runs |
| Oscilloscope.DmaToBuffer | pslab-core.X/instruments/oscilloscope.c:82-87 | DMA channel 0 copies from `ADC1BUF0` to `&BUFFER[0]` with count `MinusOne16(SAMPLES_REQUESTED)` (`SAMPLES_REQUESTED - 1`, 0xFFFF for 0), flag cleared, interrupt and channel enabled |
| Oscilloscope.Scope.CaptureOne | pslab-core.X/instruments/oscilloscope.c:18-22 | `CHANNELS = 0`, then the full `Capture` post-state |
| Oscilloscope.Scope.CaptureTwo | pslab-core.X/instruments/oscilloscope.c:24-28 | `CHANNELS = 1`, then the full `Capture` post-state |
| Oscilloscope.Scope.CaptureThree | pslab-core.X/instruments/oscilloscope.c:30-34 | `CHANNELS = 2`, then the full `Capture` post-state |
| Oscilloscope.Scope.CaptureFour | pslab-core.X/instruments/oscilloscope.c:36-40 | `CHANNELS = 3`, then the full `Capture` post-state |
| Oscilloscope.Scope.Capture | pslab-core.X/instruments/oscilloscope.c:42-69 | stores the request; ADC set to 10-bit simultaneous mode with the decoded inputs and `CHANNELS`; trigger armed (three flags cleared) or bypassed (only `TRIGGERED` set); `BUFFER_IDX[i] = i * S` for i ≤ `CHANNELS` and later cursors unchanged, `BUFFER_IDX[0] = 0`; done = 0 and captured = 0; pacing timer started; ADC flag cleared and interrupt enabled |
| Oscilloscope.Scope.SelectSimultaneousMode | pslab-core.X/instruments/oscilloscope.c:51-52 | the ADC record gets simultaneous 10-bit mode, the two sample-and-hold inputs and the channel count; nothing else changes |
| Oscilloscope.Scope.ArmOrBypassTrigger | pslab-core.X/instruments/oscilloscope.c:54-55 | with the trigger bit, WAITING, READY and TRIGGERED are all cleared; without it only TRIGGERED is set |
| Oscilloscope.Scope.LaySegments | pslab-core.X/instruments/oscilloscope.c:57-60 | after the loop `BUFFER_IDX[i] = i * SAMPLES_REQUESTED` for every 0 ≤ i ≤ `CHANNELS`; the entries beyond are untouched |
| Oscilloscope.Scope.ResetSession | pslab-core.X/instruments/oscilloscope.c:62-64 | done = 0, captured = 0, `BUFFER_IDX[0] = 0`; the other cursors are untouched |
| Oscilloscope.Scope.EnableAdcInterrupt | pslab-core.X/instruments/oscilloscope.c:66-67 | the ADC interrupt flag is cleared and the interrupt enabled |
| Oscilloscope.Scope.CaptureDMA | pslab-core.X/instruments/oscilloscope.c:71-95 | `CHANNELS = 0`; ADC mode from bit 7 with input `config & 0x0F` and 0; DMA armed as `DmaToBuffer`; captured = requested and done = 1 at arm time; pacing timer started; trigger state, cursors and chip selects unchanged |
| Oscilloscope.Scope.ArmDma | pslab-core.X/instruments/oscilloscope.c:82-87 | the six DMA driver calls leave DMA channel 0 in the `DmaToBuffer` state for the current request |
| Oscilloscope.Scope.ResetTrigger | pslab-core.X/instruments/oscilloscope.c:97-101 | clears TRIGGER_WAITING, TRIGGER_READY and TRIGGERED and nothing else |
| Oscilloscope.Scope.SetTimeGap | pslab-core.X/instruments/oscilloscope.c:103-111 | TMR5 is left as `PacingTimer(DELAY)`; no other state changes |
| Oscilloscope.Scope.GetCaptureStatus | pslab-core.X/instruments/oscilloscope.c:113-117 | emits exactly the byte `CONVERSION_DONE` followed by the int `SAMPLES_CAPTURED`, and modifies nothing |
| Oscilloscope.Scope.ConfigureTrigger | pslab-core.X/instruments/oscilloscope.c:119-125 | stores the low nibble as trigger channel, the high nibble as prescaler and the read int as level; changes nothing else, the trigger flags included |
| Oscilloscope.Scope.SetPGAGain | pslab-core.X/instruments/oscilloscope.c:131-179 | emits the `PgaGainTrace` for the two bytes read, and leaves the chip-select pins released |
| Oscilloscope.InterruptCaptureScenario | pslab-core.X/instruments/oscilloscope.c:57-64 | after arming any 1–4 channel capture the status poll reports (0, 0), and the first `count` cursors are `0, S, 2S, …` |
| Oscilloscope.DmaCaptureScenario | pslab-core.X/instruments/oscilloscope.c:89-90 | after arming a DMA capture, the status poll already reports (1, requested) |
| Oscilloscope.TriggeredCaptureScenario | pslab-core.X/instruments/oscilloscope.c:119-125 | a capture after `ConfigureTrigger` keeps channel, prescaler and level; it has already fired iff config bit 7 is clear |
| PowerSource.MappingRowFor | pslab-core.X/instruments/powersource.c:29-44 | the masked index `channel & 0x03` is always in bounds; every row selects CS channel 2; even channels use MCP4822 output A (0), odd ones output B (0x8000) |
| PowerSource.CommandWord | pslab-core.X/instruments/powersource.c:40-45 | the low 12 bits are `power & 0xFFF`; bit 12 (active) is set; bits 13 and 14 are clear; bit 15 is set iff the channel is odd |
| PowerSource.DecodeMcp4822 | pslab-core.X/instruments/powersource.c:14-21 | the data field of any command word is below 4096 |
| PowerSource.CommandWordDecodes | pslab-core.X/instruments/powersource.c:40-45 | decoded as the MCP4822 reads it, the word selects output B iff the channel is odd, has the gain bit clear, is active, and carries `power & 0xFFF` |
| PowerSource.CommandWordMasks | pslab-core.X/instruments/powersource.c:40-41 | the word depends only on the channel's low bit and the low 12 bits of the value |
| PowerSource.SetPowerTrace | pslab-core.X/instruments/powersource.c:47-51 | the bus trace is exactly SPI close, open `DAC_CONFIG`, `SetCS(2)`, one `ExchangeWord(send_data)`, `UnsetCS`, for every channel |
| PowerSource.SetPowerExchangesOneWord | pslab-core.X/instruments/powersource.c:47-51 | exactly one SPI word, the command word, is exchanged, with multiplexer address 1 selected; the chip select is released last |
| PowerSource.DacCommandByte | pslab-core.X/instruments/powersource.c:63 | the second I2C byte `64 \| (channel << 1)` has bit 6 set and bit 0 clear; for channel < 32 it equals 64 + 2·channel |
| PowerSource.SetDacTraceAsWritten | pslab-core.X/instruments/powersource.c:56-66 | between start and stop exactly four bytes go out: address, command byte, 0, and the low byte of the read int |
| PowerSource.SetDacAsWrittenLosesHighByte | pslab-core.X/instruments/powersource.c:59-65 | a request of 0x100 produces the same frame as a request of 0, with data bytes 0, 0 |
| PowerSource.SetDacTrace | pslab-core.X/instruments/powersource.c:61-66 | corrected frame: the two data bytes rebuild the full 16-bit value |
| PowerSource.SetDacAgreesBelow256 | pslab-core.X/instruments/powersource.c:59-65 | for values below 256 the corrected frame and the as-written frame coincide |

## Findings

| source | as written | input that shows it | evidently intended | confidence | as-written member | corrected member |
|---|---|---|---|---|---|---|
| pslab-core.X/instruments/powersource.c:59 | the 16-bit value read from UART is stored in an 8-bit variable, so the high data byte sent at line 64 is always 0 | a requested value of 0x0100 is transmitted as data bytes 0x00, 0x00, the same as 0 | a 16-bit `power`, so that `(power >> 8) & 0xFF` carries the upper bits of the DAC value | not executed; medium (the shift by 8 only makes sense for a wider value) | PowerSource.SetDacAsWrittenLosesHighByte | PowerSource.SetDacTrace |

## Left out

- The ADC conversion-complete interrupt handler, the trigger comparator and the filling of `BUFFER` are not part of this model. Their source is not among the modelled files. So the model covers only the setup the handlers perform. It does not cover the Waiting → Ready → Triggered transitions or the completion of an interrupt-path capture.
- Interleaving of interrupt handlers with the foreground handlers is concurrency and is not modelled. Each handler runs atomically.
- The capacity of `BUFFER` is declared in `helpers/buffer.h`, which is not part of this model. The code never checks `SAMPLES_REQUESTED * (CHANNELS + 1)` against it, and the model claims no such check. Cursor offsets are unbounded naturals. The 16-bit wrap of `i * SAMPLES_REQUESTED` that would happen far beyond any real buffer is not modelled.
- Driver internals are not modelled: the register semantics of UART1, ADC1, DMA, TMR5, SPI and I2C. `TMR5_Initialize` resets registers that `SetTimeGap` then overwrites, and its own reset values are not modelled. `UART1_WriteInt` is recorded as one int write; its byte order is not modelled.
- The reset values of the peripherals are parameters of the constructor. The firmware globals start zeroed, as C statics do.
- `I2C_Transmit` and the SPI exchange are assumed to take 8-bit (bytes) and 16-bit (words) arguments. So the command byte `64 | (channel << 1)` is transmitted as its low 8 bits.
- `SetPower` is modelled as a function that returns its trace. Its effect on the chip-select pins shows only in that trace (released last). It is not reflected in the oscilloscope object's `cs` field.
- The `LED_SetLow` / `LED_SetHigh` calls and `DELAY_us(6)` have no logical content and are left out.
- Every handler returns `SUCCESS` unconditionally. The return value is not modelled.
- The local `gain` of `SetPGAGain` is never used after the switch. It appears only as the ghost function `PgaGain.GainFactor`, which documents what each resistor setting stands for.
- The device commands declared in `helpers/device.h` are declarations without bodies and are not modelled.
