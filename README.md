# TSL2572 ambient-light-sensor driver, modelled in Dafny

This project models the driver for the TSL2572 ambient-light sensor (`lib/tsl2572.js`). The driver talks to the sensor through its registers on a two-wire bus. It does four things:
- it sets and reads back the analog gain and the integration time;
- it exposes the status bits;
- it runs one measurement: stop, start, poll for completion, stop, sleep, then read the four channel-data bytes;
- it turns the two raw channel counts into lux.

The bus is replaced by a register file (`Registers.RegisterFile`). This is a map from the register address sent on the wire to the byte stored there. That address is always the command with the command bit 0x80 added. The file keeps a ghost trace of every block read and block write the driver makes, in order, each read with the bytes it returned (`Registers.BusOp`). The sensor's own changes to its status register are not bus transfers, so they are not in the trace. A block read of `n` bytes returns the bytes at `n` consecutive addresses. An address that was never given a value reads as 0.

The source waits 10 ms before each status poll. In the model, that wait is the moment the sensor may change its status register. `Measure` takes a `feed` of status values: before poll `k`, the sensor stores `feed[k]` if there is one. Otherwise the register keeps its last value.

Modules:
- `Registers`: the register addresses, the bus trace, the register file and block writes.
- `Gain`: the setter's table and the getter's decoding.
- `Timing`: the timing-register byte and the milliseconds read back from it.
- `Status`: the status mask and the count of polls.
- `Lux`: the channel decode and the lux formula.
- `Tsl2572Driver`: the class `Tsl2572` and the lemmas that relate its methods to the pure modules.

Choices and observations:
- Bytes are `bv8` because the source masks them with `&`. Gains, milliseconds and lux are `real`.
- The constructor performs the default writes, as the source does: gain 1, then 50 ms. The 50 ms request writes 0xED, and the getter then reports 51.87 ms (`DefaultsReadBack`).
- In `measure`, the counts-per-lux value is always positive. Every gain the getter can report is positive, and so is every integration time. So the lux formula never divides by zero along this path, and the NaN case needs no precondition (`MeasuredLuxAfterPolling`).
- A measurement that never sees status 0x11 still returns a value (`Measure` has no precondition and no error result). Its gain and integration time are the ones read at the start. Its channel counts come from the four data bytes read after the sleep write. The model sensor never changes those bytes, so the value is `MeasuredLux` of the registers as they were when the measurement started.
- The saturating branch of the integration-time setter writes 0xFF for requests of at least 699 ms. The getter reads 0xFF back as 2.73 ms, the shortest integration time. A request just below 699 ms obtains the longest, 698.88 ms (`SaturationIsShortest`, `WithinOneStep`).
- A request of 0 ms gives 256, which wraps to register 0x00 (`ZeroRequestWraps`).

## Model

| member | source | states |
|---|---|---|
| `Registers.Stored` | lib/tsl2572.js:24-27 | a block write stores byte `i` of the data at start address + `i` and leaves every other address as it was |
| `Registers.StoredSingle` | lib/tsl2572.js:33-35 | a one-byte write updates exactly the one addressed register |
| `Registers.RegisterFile.constructor` | lib/tsl2572.js:7 | the register file starts with the given contents and an empty bus trace |
| `Registers.RegisterFile.ReadI2cBlockSync` | lib/tsl2572.js:17 | the buffer receives the `length` bytes at consecutive addresses from the start address; the rest of the buffer is untouched; no register changes and one read, carrying those bytes, is appended to the trace |
| `Registers.RegisterFile.WriteI2cBlockSync` | lib/tsl2572.js:26 | the registers are updated by the block write and the write is appended to the trace |
| `Registers.RegisterFile.Settle` | lib/tsl2572.js:130 | while the driver waits, the sensor changes only its status register, and nothing is added to the bus trace |
| `Gain.EncodeGain` | lib/tsl2572.js:43-62 | the configuration byte is 0 or 4, and it is 4 exactly for 0.16; the control byte is at most 3; the pair is (0, 3) exactly for requests outside {0.16, 1, 8, 16} |
| `Gain.DecodeGain` | lib/tsl2572.js:64-82 | the getter always reports one of 0.16, 1, 8, 16 or the sentinel 120 |
| `Gain.DecodeGainPositive` | lib/tsl2572.js:67-81 | every gain the getter can report is positive |
| `Gain.GainRoundTrip` | lib/tsl2572.js:43-82 | decoding the setter's bytes gives back a recognised request, and 120 for any other request |
| `Gain.DecodeGainMasked` | lib/tsl2572.js:67-68 | the getter depends only on bit 0x04 of the configuration register and bits 0x03 of the control register |
| `Gain.DecodeGainSentinel` | lib/tsl2572.js:69-79 | 120 is reported exactly for boost with a non-zero selector, or for selector 3 without boost |
| `Gain.EncodeDecodeGain` | lib/tsl2572.js:43-82 | a register pattern in the table is exactly, after masking, what the setter writes for the gain it decodes to |
| `Timing.Trunc` | lib/tsl2572.js:25 | truncation toward zero: within one unit of the argument, on the side of zero |
| `Timing.ToUint8` | lib/tsl2572.js:25 | storing a number into a byte buffer gives its floor for values in [0, 256), and 0 for values in (-1, 0) |
| `Timing.TimingRegister` | lib/tsl2572.js:84-93 | a request of at least 699 ms writes 0xFF |
| `Timing.IntegrationTime` | lib/tsl2572.js:95-99 | the reported time lies in [2.73, 698.88] ms; it is 2.73 exactly for 0xFF and 698.88 exactly for 0x00 |
| `Timing.IntegrationTimeDecreasing` | lib/tsl2572.js:98 | a larger register value reads back as a strictly shorter time |
| `Timing.SaturatedReadsBack` | lib/tsl2572.js:84-99 | after a request of at least 699 ms, the register is 0xFF and the getter reports 2.73 ms |
| `Timing.WithinOneStep` | lib/tsl2572.js:84-99 | for 0 < ms < 699 the time read back is within one 2.73 ms step of the request; up to 698.88 ms it is never below the request |
| `Timing.ZeroRequestWraps` | lib/tsl2572.js:90 | a request of 0 ms wraps to register 0x00 and reads back as 698.88 ms |
| `Timing.SaturationIsShortest` | lib/tsl2572.js:86-98 | a saturated request reads back no longer than any request below 699 ms |
| `Timing.DefaultTiming` | lib/tsl2572.js:11 | the default 50 ms request writes 0xED and reads back as 51.87 ms |
| `Status.StatusBits` | lib/tsl2572.js:101-104 | the result is one of 0x00, 0x01, 0x10, 0x11, and it agrees with the status byte on bits 0 and 4 |
| `Status.PollsFromBounds` | lib/tsl2572.js:129-134 | from poll `k`, between 1 and 100 - `k` polls are made; every poll but the last sees an unfinished conversion; the last poll sees a finished one unless the budget ran out |
| `Status.PollsBounds` | lib/tsl2572.js:129-134 | a measurement makes at least 1 and at most 100 status reads; every read before the last sees an unfinished conversion; fewer than 100 reads are made only when the last read sees 0x11 |
| `Status.PollsStopAtFirst` | lib/tsl2572.js:129-134 | no status read happens after the first read that shows 0x11 |
| `Status.PollsFromSkip` | lib/tsl2572.js:129-134 | polls that see an unfinished conversion each add one to the count |
| `Lux.Channel` | lib/tsl2572.js:141-142 | a channel count lies in [0, 65535]; its low byte is the first data byte and its high byte the second |
| `Lux.CountsPerLux` | lib/tsl2572.js:144 | counts per lux is positive for a positive time and gain |
| `Lux.Lux` | lib/tsl2572.js:145-148 | the lux value is at least 0, at least lux1 and at least lux2, and equal to one of the three |
| `Lux.LuxPositive` | lib/tsl2572.js:145-148 | the lux value is positive exactly when ch0 > 1.87 ch1 or 0.63 ch0 > ch1 |
| `Lux.LuxExample` | lib/tsl2572.js:144-148 | counts 100 and 20 at gain 1 and 50 ms give 75.12 lux |
| `Tsl2572Driver.MeasureOrder` | lib/tsl2572.js:121-140 | in a measurement's bus trace the gain and time reads come before every write; the status is read exactly `polls` times, at the positions after the start write (0x03) and before the following stop write; the only writes are 0x01, 0x03, 0x01, 0x00 to the enable register, in that order; the channel data are read last, in one 4-byte read |
| `Tsl2572Driver.MeasureStopsAtReady` | lib/tsl2572.js:129-134 | in a measurement's bus trace no status read follows a read whose byte has both watched bits set (`& 0x11 == 0x11`); there are between 1 and 100 status reads; with fewer than 100, the last one returned both bits set |
| `Tsl2572Driver.Polled` | lib/tsl2572.js:129-134 | the sensor's updates during polling touch no register except the status register |
| `Tsl2572Driver.PolledStep` | lib/tsl2572.js:129-134 | each poll stores the next status value, if the feed has one, and the driver reads that poll's observed status |
| `Tsl2572Driver.PolledBetweenEnables` | lib/tsl2572.js:125-137 | the four enable writes around polling leave only the last one, 0x00, in the enable register |
| `Tsl2572Driver.MeasuredLux` | lib/tsl2572.js:121-150 | the lux value a measurement computes from the starting registers is never negative |
| `Tsl2572Driver.MeasuredLuxAfterPolling` | lib/tsl2572.js:122-148 | the captured gain and integration time are positive; the channel data read after polling give the lux of the starting registers |
| `Tsl2572Driver.SetGainThenGetGain` | lib/tsl2572.js:43-82 | after the setter's two writes, the getter reports the request if it is recognised, and 120 otherwise |
| `Tsl2572Driver.SetIntegrationTimeThenGet` | lib/tsl2572.js:84-99 | after the setter's write, the getter reports 2.73 ms for a saturated request and a value within one step of the request for 0 < ms < 699 |
| `Tsl2572Driver.DefaultsReadBack` | lib/tsl2572.js:10-11 | after the constructor's writes, the getters report gain 1 and 51.87 ms |
| `Tsl2572Driver.Tsl2572.constructor` | lib/tsl2572.js:6-12 | construction writes gain 1 (0x0D := 0, 0x0F := 0) and then 50 ms (0x01 := 0xED), in that order |
| `Tsl2572Driver.Tsl2572.ReadBlock` | lib/tsl2572.js:14-22 | the result has exactly `length` bytes, byte `i` being the register at 0x80 + command + `i`; exactly one block read at 0x80 + command is made, and it is logged with the bytes returned; no register changes |
| `Tsl2572Driver.Tsl2572.WriteBlock` | lib/tsl2572.js:24-27 | the data is stored from 0x80 + command on, and one write at that address is logged |
| `Tsl2572Driver.Tsl2572.Read` | lib/tsl2572.js:29-31 | the same as `ReadBlock`, on the driver's own register file: one logged block read of the bytes returned, no register changes |
| `Tsl2572Driver.Tsl2572.Write` | lib/tsl2572.js:33-35 | exactly one single-byte write goes to 0x80 + command, and only that register changes |
| `Tsl2572Driver.Tsl2572.Id` | lib/tsl2572.js:37-41 | the ID register's byte is returned as it is, after one one-byte read of 0x92 that is logged with that byte |
| `Tsl2572Driver.Tsl2572.SetGain` | lib/tsl2572.js:43-62 | exactly two writes are made, 0x0D and then 0x0F, with the table's bytes; no other register changes |
| `Tsl2572Driver.Tsl2572.GetGain` | lib/tsl2572.js:64-82 | the result is the getter's decoding of the two registers, read with one-byte reads of 0x8D and then 0x8F, each logged with its byte |
| `Tsl2572Driver.Tsl2572.SetIntegrationTime` | lib/tsl2572.js:84-93 | exactly one write goes to 0x01, with 0xFF for requests of at least 699 ms; no other register changes |
| `Tsl2572Driver.Tsl2572.GetIntegrationTime` | lib/tsl2572.js:95-99 | the result is (256 - register) * 2.73 for the timing register, read with one one-byte read of 0x81 that is logged with its byte |
| `Tsl2572Driver.Tsl2572.State` | lib/tsl2572.js:101-104 | the result is the status register masked with 0x11, read with one one-byte read of 0x93 that is logged with its byte |
| `Tsl2572Driver.Tsl2572.StopAls` | lib/tsl2572.js:106-109 | one write of 0x01 to the enable register |
| `Tsl2572Driver.Tsl2572.StartAls` | lib/tsl2572.js:111-114 | one write of 0x03 to the enable register |
| `Tsl2572Driver.Tsl2572.SetSleep` | lib/tsl2572.js:116-119 | one write of 0x00 to the enable register |
| `Tsl2572Driver.Tsl2572.PollOnce` | lib/tsl2572.js:130-131 | one poll: the sensor stores the next status value, if any, and the driver makes one one-byte read of 0x93 that returns that poll's status; the result is its two watched bits |
| `Tsl2572Driver.Tsl2572.WaitForConversion` | lib/tsl2572.js:129-134 | the loop's bus transfers are exactly `polls` one-byte reads of 0x93, where `polls` is the count of `Status.Polls`; read `j` returns the status the sensor presents at poll `j`; it writes nothing, and the sensor's status updates are the only change to the registers |
| `Tsl2572Driver.Tsl2572.ReadChannels` | lib/tsl2572.js:139-142 | ch0 and ch1 are the little-endian counts of data bytes 0-1 and 2-3, read with one 4-byte read of 0x94 that is logged with the four bytes |
| `Tsl2572Driver.Tsl2572.Measure` | lib/tsl2572.js:121-151 | the bus trace grows by exactly `MeasureTrace` of the starting registers: reads of 0x8D, 0x8F and 0x81 returning their bytes; the enable writes 0x01 and 0x03; `polls` status reads, each returning the status the sensor presents at that poll, with `polls` as `Status.Polls` counts it and between 1 and 100; the enable writes 0x01 and 0x00; then one 4-byte read of 0x94 returning the data bytes; the enable register ends at 0x00; nothing but the enable and status registers changes; no error is raised on timeout; the result is the lux of the starting registers |

## Left out

- I2C transport: opening the bus (`i2c.openSync`), the bus number and the slave address are not modelled. The register file stands for the one sensor at that address.
- Transport failures: the foreign library's read and write calls can throw, and the driver would then abort. The model's register file never fails.
- The sensor's choice between repeated-byte and auto-increment block reads is not modelled. A block read returns consecutive registers.
- The wall-clock `sleep(10)` with its `async`/`await` suspension is not modelled. Only the bounded count of 100 polls and the sensor's status updates between them are kept.
- The sensor's own conversion writes to the channel-data registers are not modelled. During a measurement the model sensor changes only its status register, so `Measure` reads the data bytes present when it started. The order of the transfers is still fixed by the trace: the channel data are read after polling, after the stop and sleep writes.
- The number of polls is a ghost output of `Measure` and `WaitForConversion`. The source does not return it.
- JavaScript number semantics are not modelled: gains, milliseconds and lux are exact reals. The same holds for the loose `==` in the gain setter, which would also accept strings such as "8". NaN and infinity are not modelled either; with this driver's getters, the division in the lux formula never reaches them.
- Timing.TimingRegister: the non-saturating branch is computed in exact rational arithmetic. The source computes `256 - ms / 2.73` in IEEE doubles before the byte conversion, so the written byte can differ from the model's by one near the requests where the exact quotient is an integer.
- Timing.WithinOneStep: states the one-step round trip in exact arithmetic only, for the same reason.
- test/test-tsl2572.js only prints values read from hardware and makes no assertions, so it contributes no properties.
