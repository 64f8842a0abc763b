# LTR-559 light and proximity sensor driver, modelled in Dafny

This project models `LTR559.js`, a Node.js driver for the Lite-On
LTR-559ALS-01 ambient-light and proximity sensor, which talks to the device
over an I2C bus. The model covers:

- the register constants and bit fields;
- the 16-bit decoding helpers `uint16` and `int16`;
- how `readSensorData` unpacks its 7-byte data block;
- the lux conversion;
- the power-on reset handshake (`reset`);
- the identity check (`init`);
- the configuration chain of six register writes (`loadDefaults`).

Modules, one per file:

| module | file | contents |
|---|---|---|
| `Wrappers` | `wrappers.dfy` | `Option`, `Outcome` and `Result` |
| `Registers` | `registers.dfy` | register addresses and bit-field constants; the layout of the LED control byte |
| `Bytes` | `bytes.dfy` | conversions between bytes and the numbers 0..255 |
| `Conversion` | `conversion.dfy` | `uint16`, `int16`, their inverses, and decoding and encoding of the data block |
| `LuxConversion` | `lux.dfy` | coefficient-set selection, with an integer reference definition; lux as an exact `real` |
| `Reading` | `reading.dfy` | turns a data block into the reading `readSensorData` resolves with |
| `Transport` | `transport.dfy` | the bus as a value `BusState` with the pure steps `Write`, `Read` and `ReadBlock`, and the class `Bus` whose methods perform one transaction each |
| `Protocol` | `protocol.dfy` | the reset handshake, the configuration chain and `init` as functions of the bus state, with the lemmas about them |
| `Driver` | `driver.dfy` | class `Ltr559` with the imperative methods `Reset`, `LoadDefaults`, `Init` and `ReadSensorData` |

The simulated bus has four parts:

- a 256-byte register store;
- a trace of every operation issued, failed ones included;
- a script of replies that single-byte reads consume before they fall back to the store (this is how a device that clears its reset bit is described);
- a set of operation numbers at which the transport reports an error.

`Reset`, `LoadDefaults` and `Init` are each proved to leave the bus exactly
as the matching `Protocol` function says (`ResetSpec`, `LoadDefaultsSpec`,
`InitSpec`). The lemmas about those functions state what that means: the
exact trace, the outcome, and the register contents. `ReadSensorData` is a
single block read; its contract gives the trace and the reading, which is
`Reading.ReadingOf` of the stored bytes, directly.

A "byte" is a `bv8` throughout. Lux is `Option<real>`: `None` stands for
the NaN the driver computes when the channels are not both zero and the
status byte carries a gain code (2 or 5) that has no entry in the gain
table. Without light the driver reports 0 lux for every gain code, and so
does the model.

The code does not clamp lux at 0, and the model does not either;
`LuxConversion.LuxNonNegative` proves that no clamp is needed. The code
raises no error for gain codes 2 and 5; its arithmetic yields NaN, which
the model writes as `None`.

Some of the code's behaviour looks unintended. It is modelled as written,
each with a lemma that exhibits it:

- The last configuration write ORs the proximity constant
  `PS_MEAS_RATE_500` (0x04) into the ALS measurement-rate register. To the
  device, that byte means a measurement rate of 1000 ms, not the 500 ms
  the comment intends (`Protocol.DefaultWritesDecode`).
- The gain table keys the multiplier 4 at code 3. The register constants
  call code 2 "4X", and code 2 has no entry in the gain table
  (`Reading.AlsGainTableQuirk`).

## Model

| member | source | states |
|---|---|---|
| Registers.DefaultI2cAddress | LTR559.js:255-257 | returns the default device address 0x23; its contract bounds it below 0x80, a valid 7-bit address |
| Registers.PartId | LTR559.js:259-261 | the expected part and revision ID is 0x92 (146), equal to the PART_ID constant |
| Registers.LedControl | LTR559.js:216 | for one pulse-period, one duty-cycle and one current constant, the OR-ed LED control byte gives back each setting under its mask (bits 7:5, 4:3 and 2:0); the first configuration write is built with it |
| Registers.LedFieldsRecoverable | LTR559.js:24-42 | pulse-period, duty-cycle and current constants occupy disjoint bits; OR-ing one of each gives a byte below 256 from which each field is recovered by its mask |
| Registers.LedControlInjective | LTR559.js:24-42 | distinct LED settings give distinct LED control bytes |
| Registers.AlsMeasRateFieldsOverlap | LTR559.js:61-75 | integration-time and measurement-rate constants share bit 2, so distinct settings can OR to the same byte |
| Conversion.Uint16 | LTR559.js:268-270 | the unsigned value of a byte pair lies in [0, 65535] |
| Conversion.Uint16IsShiftOr | LTR559.js:268-270 | `msb * 256 + lsb` is the value of `msb << 8` OR-ed with `lsb` |
| Conversion.Uint16RoundTrip | LTR559.js:268-270 | splitting the value into high and low byte gives back the pair |
| Conversion.Bytes16RoundTrip | LTR559.js:268-270 | every value below 65536 is the `uint16` of its byte pair |
| Conversion.Int16 | LTR559.js:263-266 | the signed value lies in [-32768, 32767] |
| Conversion.Int16Reinterprets | LTR559.js:263-266 | `int16` is `uint16 - 65536` exactly when `uint16 > 32767`, else `uint16`; both agree modulo 65536 |
| Conversion.Int16Sign | LTR559.js:263-266 | the signed value is negative exactly when bit 7 of the high byte is set |
| Conversion.Int16RoundTrip | LTR559.js:263-266 | every signed 16-bit value comes from the byte pair of its two's-complement encoding |
| Conversion.Bit7 | LTR559.js:172 | `Boolean(b & 0x80)` holds exactly when the byte is at least 128 |
| Conversion.GainField | LTR559.js:173 | `(b & 0x70) >> 4` is `(b / 16) mod 8`, a code below 8 |
| Conversion.LowBits3 | LTR559.js:200 | `b & 0x07` is `b mod 8` |
| Conversion.DecodeBlock | LTR559.js:172-201 | channel 1 from bytes 1/0, channel 0 from bytes 3/2, the invalid flag and the gain code from byte 4, proximity `(b6 mod 8) * 256 + b5` (at most 2047), saturation from bit 7 of byte 6 |
| Conversion.DecodeEncode | LTR559.js:172-201 | every sample whose fields fit their widths is decoded from the block that encodes it |
| Conversion.DecodeWellFormed | LTR559.js:172-201 | every decoded sample fits the register widths, and clearing the unused bits (3:0 of the status byte, 6:3 of the high proximity byte) does not change the decoded sample |
| LuxConversion.Ratio | LTR559.js:181 | the channel-1 share `ch1 * 100 / (ch1 + ch0)` lies in [0, 100], and is 100 exactly when channel 0 is 0 |
| LuxConversion.CoefficientIndex | LTR559.js:183-190 | the coefficient set is one of the four table entries |
| LuxConversion.CoefficientIndexBands | LTR559.js:183-190 | set 0 iff ratio < 45, set 1 iff 45 <= ratio < 64, set 2 iff 64 <= ratio < 85, set 3 iff ratio >= 85 |
| LuxConversion.CoefficientIndexBoundaries | LTR559.js:184-190 | a ratio of exactly 45, 64 or 85 selects set 1, 2 or 3 |
| LuxConversion.CoefficientIndexMonotone | LTR559.js:183-190 | the coefficient set never decreases as the ratio grows |
| LuxConversion.IntegerIndex | LTR559.js:181-190 | reference selection with integer cross-multiplication: a valid coefficient set |
| LuxConversion.RatioBelow | LTR559.js:181-190 | `ch1 * 100 / (ch0 + ch1) < k` exactly when `100 * ch1 < k * (ch0 + ch1)` |
| LuxConversion.IndexOfChannels | LTR559.js:180-190 | the driver's ratio test and the integer reference pick the same set |
| LuxConversion.Lux | LTR559.js:179-197 | no light gives 0 lux; with light, lux is undefined exactly when the gain code has no multiplier |
| LuxConversion.LuxFormula | LTR559.js:192-196 | with light and a known gain, lux is `(ch0 * C0[i] - ch1 * C1[i]) / (gain * 10000)` for the integer-selected set `i` |
| LuxConversion.LuxHighRatioIsZero | LTR559.js:183-196 | coefficient set 3 always gives 0 lux |
| LuxConversion.CalibratedNonNegative | LTR559.js:77-79 | the calibrated difference is never negative for the set the ratio selects |
| LuxConversion.LuxNonNegative | LTR559.js:179-197 | every defined lux value is non-negative although the driver does not clamp |
| Reading.ReadingOf | LTR559.js:162-210 | the reading's proximity and saturation are the decoded fields, proximity is at most 2047, lux is non-negative, and lux is undefined exactly when there is light and the gain code is 2 or 5 |
| Reading.ReadingExample | LTR559.js:172-207 | the block with channel 1 = 100, channel 0 = 200, gain code 0 and proximity 5 reads as 465.45 lux, proximity 5, not saturated |
| Reading.AlsGainTableQuirk | LTR559.js:54-79 | the code of the 4X constant has no multiplier, and the code of the 8X constant has multiplier 4 |
| Protocol.ResetSpec | LTR559.js:131-160 | reset issues between 1 and 1 + 3 operations and leaves the faults alone; a successful reset leaves the command byte 0x02 in 0x80 and every other register as it was; a failure is a transport error or the time-out |
| Protocol.Poll | LTR559.js:140-156 | the poll loop issues at least one and at most the remaining retries operations, never changes the store, and fails only with a transport error or the time-out |
| Protocol.PollShape | LTR559.js:138-157 | the poll loop issues between 1 and the remaining retries reads of 0x80 and nothing else; every read before the last saw a nonzero byte; the last read decides the outcome; a time-out uses every retry |
| Protocol.PollTrace | LTR559.js:138-157 | the poll loop issues only reads of 0x80, at least one and at most the retries left, leaving store and faults unchanged |
| Protocol.PollOutcome | LTR559.js:140-156 | success, transport error and time-out each correspond exactly to what the last read returned |
| Protocol.ResetTrace | LTR559.js:131-160 | reset issues exactly the write (0x80, 0x02) followed by at most 3 reads of 0x80, and no read when the write fails |
| Protocol.ResetSucceedsIff | LTR559.js:131-160 | reset succeeds iff the write succeeds and one of the first 3 reads returns 0 with no error before it |
| Protocol.ResetTimeoutIff | LTR559.js:145-151 | reset times out iff the write succeeds and 3 reads all return nonzero bytes; it has then issued exactly 3 reads |
| Protocol.ResetTransportErrorStops | LTR559.js:134-144 | reset fails with a transport error iff its last operation failed; no earlier operation failed |
| Protocol.ResetClearsOnSecondPoll | LTR559.js:140-157 | a device that reads 1 and then 0 is reset after exactly one write and two reads |
| Protocol.ResetTimesOutWhenBitStaysSet | LTR559.js:131-151 | a device that keeps the command byte in 0x80 makes reset time out after 3 reads |
| Protocol.DefaultWritesValues | LTR559.js:216-241 | the configuration writes are (0x82, 0x1B), (0x83, 0x01), (0x80, 0x01), (0x81, 0x23), (0x84, 0x02), (0x85, 0x04) |
| Protocol.DefaultWritesDecode | LTR559.js:216-241 | the LED byte decodes to 30 ms, 100 % and 50 mA; the 0x85 byte is integration time 100 ms with rate 1000 ms, not 500 ms |
| Protocol.WriteAll | LTR559.js:216-249 | the write chain issues at most one operation per write, all of them when it succeeds, at least one when it fails, and fails only with a transport error; script and faults are unchanged |
| Protocol.WriteAllTrace | LTR559.js:216-249 | the write chain issues a prefix of its writes in order and nothing else: all of them on success, at least one on failure |
| Protocol.WriteAllStopsAtFirstFailure | LTR559.js:216-249 | the chain succeeds iff none of its writes fails; on failure its last write is the first one that failed |
| Protocol.WriteAllStore | LTR559.js:216-241 | a completed chain leaves the store with all writes applied in order |
| Protocol.DefaultStoreContents | LTR559.js:216-241 | after the six default writes the store holds 0x01, 0x23, 0x1B, 0x01, 0x02, 0x04 at 0x80..0x85 and every other register is unchanged |
| Protocol.LoadDefaultsSpec | LTR559.js:212-253 | the configuration issues between 1 and 1 + 3 + 6 operations and fails only with a transport error or the reset time-out |
| Protocol.LoadDefaultsChain | LTR559.js:212-253 | a failed reset issues no configuration write; after a successful reset the six writes are issued in order, each only after the previous one succeeded, and the result reflects the first failure |
| Protocol.LoadDefaultsExtends | LTR559.js:212-253 | the configuration appends at least one operation to the trace and keeps what came before |
| Protocol.InitSpec | LTR559.js:101-124 | init issues between 1 and 2 + 1 + 3 + 6 operations, leaves the faults alone, and resolves only with 0x92 |
| Protocol.InitChecksIdentity | LTR559.js:101-124 | init starts with the write (0x86, 0) and the read of 0x86; a failed write or read rejects with the transport error and issues nothing further; a byte other than 0x92 rejects with that byte and nothing further; init resolves only with 0x92, exactly when the configuration succeeds, and otherwise rejects with the configuration's error |
| Protocol.InitOnHealthyDevice | LTR559.js:101-124 | a device answering 0x92 and clearing its reset bit at once is identified and configured with exactly ten operations |
| Protocol.InitStopsAtFailedWrite | LTR559.js:101-124 | when the fourth configuration write fails, init reports the transport error and the last two writes are never issued |
| Transport.Write | LTR559.js:103-106 | a write succeeds exactly when the next operation is not a fault; it appends its operation to the trace, sets the register only on success, and changes no other register, the script or the faults |
| Transport.Read | LTR559.js:107-110 | a read fails exactly when the next operation is a fault; otherwise it returns the next scripted reply, or the stored byte when none is left, and consumes that reply; it appends its operation and leaves store and faults alone |
| Transport.ReadBlock | LTR559.js:167-170 | a block read fails exactly when the next operation is a fault; otherwise it returns the `length` stored bytes from `reg` on; it appends its operation and changes nothing else |
| Transport.Bus.WriteByte | LTR559.js:103 | one single-byte write, as the step function `Write` describes |
| Transport.Bus.ReadByte | LTR559.js:107 | one single-byte read, as the step function `Read` describes |
| Transport.Bus.ReadI2cBlock | LTR559.js:167 | one block read, as the step function `ReadBlock` describes |
| Driver.Ltr559.Reset | LTR559.js:131-160 | the write and the bounded poll loop leave outcome and bus exactly as `ResetSpec` |
| Driver.Ltr559.LoadDefaults | LTR559.js:212-253 | reset and the six sequential writes leave outcome and bus exactly as `LoadDefaultsSpec` |
| Driver.Ltr559.Init | LTR559.js:101-125 | select, ID read, check and configuration leave outcome and bus exactly as `InitSpec` |
| Driver.Ltr559.ReadSensorData | LTR559.js:162-210 | one block read of 7 bytes at 0x88; on success the reading of the store's bytes 0x88..0x8E, else a transport error |

## Left out

- Opening the bus and choosing the bus number and device address (LTR559.js:15-19): the bus is a given `Bus` object, and the device address is not part of the operations recorded in the trace.
- The 20 ms `setTimeout` between polls: only the retry count is modelled, not time.
- The `console.log` in `init`: output only.
- JavaScript double arithmetic: lux is an exact rational. NaN for gain codes 2 and 5 becomes `None`. Rounding cannot change the ratio comparisons, which `LuxConversion.IndexOfChannels` ties to exact integer tests.
- The promise and callback wiring of `loadDefaults` and `init`:
  - `loadDefaults` calls its callback right after issuing the first configuration write (LTR559.js:251), so `init` resolves as soon as the reset succeeds, whatever the writes do.
  - A failing write calls an undefined `reject`.
  - A rejected `reset` is never handled, so `init` never settles.
  - After the last write nothing further happens; its failure, like every other write's, calls the undefined `reject`.
  - Instead, the model stops at the first failure and reports it, and `init` resolves only after the whole chain succeeds.
- Driver.Ltr559.ReadSensorData: the transport always returns all 7 bytes of a successful block read; the driver ignores the byte count and its 8-byte buffer, so a short read is not modelled.
- The pulse-count validation `psNumberOfPulses`: it appears only in a test; the driver has no such method.
- The constants that are declared but never used: declared in `Registers`, with no theorems about them. These are:
  - `MANUFAC_ID`, `REGISTER_MANUFACID`, `REGISTER_INTERRUPT`, `REGISTER_DATA_STATUS` and `REGISTER_PS_DATA`;
  - `ALS_DATA_GAIN_1X`, `_2X`, `_48X` and `_96X`;
  - `ALS_INTEGRAL_TIME_150` to `_400`;
  - `ALS_MEAS_RATE_100` and `_200`;
  - `PS_MEAS_RATE_*` other than 100 and 500.

  The other unused constants appear in `Reading.AlsGainTableQuirk`, `Registers.AlsMeasRateFieldsOverlap`, `Protocol.DefaultWritesDecode` and `Registers.LedFieldsRecoverable`.
- The example program with its endless polling loop, and the hardware-dependent tests: I/O only.
