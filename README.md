# BalboaSpa protocol engine, modelled in Dafny

This project models the `balboa_spa` ESPHome component. The component is a client on the
RS-485 bus of a Balboa hot-tub controller. It does six things:

- it reassembles telegrams byte by byte in a bounded input queue;
- it checks their CRC-8;
- it registers with the controller for a client id;
- on each clear-to-send it answers with exactly one telegram: a pending command, one of the
  three staged information requests (configuration, fault log, filter settings) or "nothing
  to send";
- it decodes the configuration, fault-log, status and filter-configuration telegrams into
  its records;
- it tracks the runtime and the cycles of the two filter windows.

The model has three layers:

- **Reference functions.** These are pure functions over values: the bounded queue's `push`
  (`CircularBuffer.Pushed`), the checksum (`Crc.Crc8`), one `read_serial` step of the
  reassembler (`Framing.Receive`), the wire image of a sent telegram (`Framing.Frame`), and
  the whole component object as a state machine (`Protocol.Engine`, with one function per
  entry point).
- **Imperative code.** This follows the source's own form:
  - the bounded queue is the class `CircularBuffer.ByteQueue`;
  - `crc8` is a method with the source's two nested loops;
  - the component is the class `Balboa.BalboaSpa`, with the source's fields, updated in
    place.
  Most methods of `BalboaSpa` are proved against the engine function of the same name:
  `Abstract()` after the call equals that function applied to `Abstract()` before it.
  The exceptions are these:
  - `IdRequest` and `IdAck` are proved against `Framing.Frame`, with only `written` changed;
  - `AcceptId` is proved against `Protocol.GrantedId`;
  - `HandleTelegram` and `HandleRecord` are proved against `Protocol.Dispatch`;
  - `Toggle` is proved against `Protocol.Command`;
  - `ReplyToClearToSend` is proved against `Protocol.ClearToSend`, and `FinishTelegram`
    against `Protocol.Dispatch`;
  - `SetFilter1Schedule` and `SetFilter2Schedule` are proved against
    `Protocol.SetFilterSchedule`, for the first and the second filter;
  - the helpers `StoreSchedule`, `SendReply` and `ChooseTelegram` state their effect
    directly: the stored settings, the written reply with its new stages, and the chosen
    payload cast as `Protocol.ReplyPayload` of `Protocol.ChooseReply`.
- **Properties.** These are proved about the reference functions, mostly in
  `ProtocolProperties`:
  - the reassembler's behaviour;
  - the CRC's error detection;
  - the clear-to-send priority;
  - the staging of the requests;
  - registration;
  - the liveness timeout;
  - what each decoder changes;
  - the setters' validation;
  - the schedule telegram layout;
  - the filter tracker.

How the environment is modelled:

- **The UART.** What `rs485_send` writes is appended to the field `written`.
- **Incoming bytes.** These are a parameter: one byte for `ReadSerial(b, now)`, and the
  sequence `rx` of bytes available during the loop for `Update(now, rx)`.
- **The clock.** `millis()` is the parameter `now`, one reading per call of `update` and
  `read_serial`.
- **Machine widths.** Wrap-around of the source's unsigned arithmetic is written out:
  - `uint32_t` subtraction is `Bytes.Sub32`;
  - `uint16_t` counters use `Bytes.Add16`;
  - 5- and 6-bit struct bit-fields use `Bytes.Low5` and `Bytes.Low6`.
- **`crc8`'s window length** is a `uint8_t` and is reduced modulo 256.
- **Out-of-range queue reads.** The queue's `operator[]` returns 0 out of range, and so does
  `Bytes.At`.

In these places the code behaves differently from what a reader might expect, and the
model follows the code:

- **Resynchronisation.** One might expect any run of spurious delimiters to be absorbed.
  The comment at balboaspa.cpp:173 describes dropping the second of two start markers, and
  that is what the code does: only an even number of extra delimiters is absorbed (`Framing.LeadingDelimiterPair`,
  `Framing.DelimiterRuns`). A single extra delimiter costs the telegram its length byte
  (`Framing.LeadingDelimiterSingle`).
- **Truncated telegrams.** A delimiter that arrives before the length byte is satisfied does
  not clear the queue. It is stored (`Framing.TruncatedFrameKept`).
- **Fault-log request.** The fault log is requested as soon as the configuration stage has
  left "want it". It does not wait for the configuration to arrive
  (`ProtocolProperties.FaultLogAskedBeforeConfigArrives`).
- **Filter-settings request.** The clear-to-send chain asks for the filter settings only once
  the fault log is "got it".

## Model

| member | source | states |
|---|---|---|
| Bytes.At | components/balboa_spa/CircularBuffer.h:74-80 | an indexed read yields the element when the index is in range and 0 (the value `T()`) otherwise |
| Bytes.BitRead | components/balboa_spa/balboaspa.h:20 | `bitRead(v, b)` is 1 exactly when bit `b` of `v` is set |
| Bytes.Sub32 | components/balboa_spa/balboaspa.cpp:905 | `uint32_t` subtraction equals the difference, plus 2^32 when it would be negative |
| Bytes.Add16 | components/balboa_spa/spa_state.h:40-43 | a `uint16_t` counter addition agrees with the mathematical sum modulo 2^16 |
| Bytes.Low5 | components/balboa_spa/spa_types.h:15 | a byte stored into a 5-bit field keeps its value below 32 and is congruent to it modulo 32 |
| Bytes.Low6 | components/balboa_spa/spa_types.h:16 | a byte stored into a 6-bit field keeps its value below 64 and is congruent to it modulo 64 |
| Bytes.ByteOfNat | components/balboa_spa/balboaspa.cpp:347 | a count below 256 survives conversion to a byte and back |
| CircularBuffer.PushedKeepsNewest | components/balboa_spa/CircularBuffer.h:52-60 | `push` ends with the new element, keeps the newest elements in order, evicts the front only when the queue already held more than `max_size`, and never lets it exceed `max_size + 1` |
| CircularBuffer.Pushed | components/balboa_spa/CircularBuffer.h:52-60 | `push` leaves the new element at the back and never takes a queue of at most `max_size + 1` elements past that bound |
| CircularBuffer.PushAllBounded | components/balboa_spa/CircularBuffer.h:52-60 | a queue of at most `max_size + 1` elements stays within that bound under any run of pushes |
| CircularBuffer.ByteQueue.constructor | components/balboa_spa/CircularBuffer.h:32 | a new queue is empty with the given capacity |
| CircularBuffer.ByteQueue.Size | components/balboa_spa/CircularBuffer.h:37-39 | the number of elements |
| CircularBuffer.ByteQueue.CopyToArray | components/balboa_spa/CircularBuffer.h:41-46 | the elements are written in order to the front of the array, the rest of it is untouched, and their number is returned |
| CircularBuffer.ByteQueue.Push | components/balboa_spa/CircularBuffer.h:52-60 | the new contents are `Pushed(old contents, x, max_size)`; the answer is false exactly when the front was evicted |
| CircularBuffer.ByteQueue.Last | components/balboa_spa/CircularBuffer.h:62-64 | the back element of a non-empty queue |
| CircularBuffer.ByteQueue.First | components/balboa_spa/CircularBuffer.h:66-68 | the front element of a non-empty queue |
| CircularBuffer.ByteQueue.Get | components/balboa_spa/CircularBuffer.h:74-80 | element `index`, or 0 when out of range; nothing changes |
| CircularBuffer.ByteQueue.Clear | components/balboa_spa/CircularBuffer.h:82-84 | the queue is empty |
| CircularBuffer.ByteQueue.Pop | components/balboa_spa/CircularBuffer.h:86-90 | the back element is removed and returned; the old contents are the new ones followed by it |
| CircularBuffer.ByteQueue.Unshift | components/balboa_spa/CircularBuffer.h:92-98 | prepends exactly when the queue holds at most `max_size` elements, otherwise changes nothing, and says which happened |
| Crc.WideRegisterLowByte | components/balboa_spa/balboaspa.cpp:307-323 | the unmasked `unsigned long` accumulator's low byte equals the 8-bit CRC register, so the returned byte is the CRC-8 of the window |
| Crc.WindowInbound | components/balboa_spa/balboaspa.cpp:309-312 | for a received telegram the checksummed window is everything between the leading delimiter and the checksum byte |
| Crc.WindowOutbound | components/balboa_spa/balboaspa.cpp:309-312 | for an outgoing telegram it is the whole staged telegram |
| Crc.ShiftEight | components/balboa_spa/balboaspa.cpp:314-321 | the inner loop is eight steps of shift-left-and-xor-0x07-on-carry |
| Crc.Accumulate | components/balboa_spa/balboaspa.cpp:311-322 | the byte loop leaves the accumulator equal to the reference register of the window |
| Crc.Crc8Of | components/balboa_spa/balboaspa.cpp:306-324 | `crc8(data, ignore_delimiter)` is the CRC-8 (seed 0x02, polynomial 0x07, final xor 0x02) of the window |
| Crc.ByteErrorDetected | components/balboa_spa/balboaspa.cpp:306-324 | changing any one byte of the checksummed range always changes the checksum |
| Crc.Crc8Residue | components/balboa_spa/balboaspa.cpp:306-324 | for any data, running the CRC register on over the data followed by its own checksum ends in one fixed value, whatever the data |
| Framing.Receive | components/balboa_spa/balboaspa.cpp:162-304 | one received byte keeps the queue within `max_size + 1`; a completed, mismatched or dropped step leaves it empty; completion happens only on a delimiter; an accepted telegram's checksum matches |
| Framing.NonDelimiterAtEmptyQueueDropped | components/balboa_spa/balboaspa.cpp:168-171 | a byte other than 0x7E arriving at an empty queue is dropped |
| Framing.CompletionRequiresLength | components/balboa_spa/balboaspa.cpp:183 | a telegram completes only on a delimiter, with more than two bytes queued and at least its length byte plus two |
| Framing.TruncatedFrameKept | components/balboa_spa/balboaspa.cpp:179-183 | a delimiter before the length is satisfied is stored, and the queue is not cleared |
| Framing.DoubleDelimiterLosesNextByte | components/balboa_spa/balboaspa.cpp:174-177 | after two delimiters, whatever byte comes next is popped off |
| Framing.DelimiterRuns | components/balboa_spa/balboaspa.cpp:174-177 | after a delimiter, an even run of further delimiters leaves one delimiter queued and an odd run leaves two |
| Framing.FeedConcat | components/balboa_spa/balboaspa.cpp:162-304 | feeding two byte strings one after the other is feeding their concatenation |
| Framing.FeedLast | components/balboa_spa/balboaspa.cpp:58-60 | feeding one more byte is one more `read_serial` step on the queue fed so far |
| Framing.Frame | components/balboa_spa/balboaspa.cpp:345-366 | the wire image of a staged telegram is well framed: delimiters at both ends, length byte `|p| + 2`, the telegram, and a matching checksum |
| Framing.FrameAccepted | components/balboa_spa/balboaspa.cpp:162-304 | a sent telegram fed into an empty queue is stored byte by byte and accepted as itself on its closing delimiter |
| Framing.CorruptedChecksum | components/balboa_spa/balboaspa.cpp:192-198 | altering one byte between the length byte and the closing delimiter makes the checksum mismatch |
| Framing.CorruptedFrameRejected | components/balboa_spa/balboaspa.cpp:192-198 | such a telegram is received completely and then rejected |
| Framing.LeadingDelimiterPair | components/balboa_spa/balboaspa.cpp:174-177 | two extra delimiters before a telegram are absorbed |
| Framing.LeadingDelimiterSingle | components/balboa_spa/balboaspa.cpp:174-177 | one extra delimiter before a telegram loses its length byte |
| SpaTypes.FaultMessage | components/balboa_spa/balboaspa.cpp:620-681 | unknown codes, and only they, give "Unknown error"; codes 18 and 21, and only they, give "The settings have been reset" |
| SpaTypes.FaultMessagesDistinct | components/balboa_spa/balboaspa.cpp:620-681 | apart from 18 and 21, distinct known codes have distinct messages |
| Temperature.ScaleCode | components/balboa_spa/balboaspa.h:32-36 | `TEMP_SCALE` codes are F = 0, C = 1 and UNDEFINED = 254 |
| Temperature.ScaleOfBit | components/balboa_spa/balboaspa.cpp:412-414 | the configuration's scale bit maps to the scale with that code |
| Temperature.ConversionsInverse | components/balboa_spa/balboaspa.cpp:710-716 | Celsius-to-Fahrenheit and Fahrenheit-to-Celsius are inverse to each other and increasing |
| Temperature.DecodeTemp | components/balboa_spa/balboaspa.cpp:424-477 | a temperature byte is adopted exactly when it is not 0xFF, its reading is within 7 to 40 degrees Celsius and the display scale is defined; the value is then in the display scale |
| Temperature.EncodeTarget | components/balboa_spa/balboaspa.cpp:77-110 | a set-point byte is produced exactly when the spa scale is known and the set-point is within the display scale's limits; it is twice the Celsius value, fraction dropped, on a Celsius spa and the Fahrenheit value, fraction dropped, on a Fahrenheit spa, whichever scale the set-point was given in |
| Temperature.SetPointRoundTripCelsius | components/balboa_spa/balboaspa.cpp:77-110 | with a Celsius spa and display, an accepted set-point encodes to the byte that decodes back to it, rounded down to half degrees |
| Temperature.SetPointRoundTripFahrenheit | components/balboa_spa/balboaspa.cpp:77-110 | with a Fahrenheit spa and display, an accepted set-point comes back as its whole degrees |
| Temperature.SetPointRoundTripCelsiusSpaFahrenheitDisplay | components/balboa_spa/balboaspa.cpp:77-110 | with a Celsius spa and a Fahrenheit display, an accepted set-point is staged as twice its Celsius value and comes back at most 0.9 degrees Fahrenheit below it |
| Temperature.SetPointRoundTripFahrenheitSpaCelsiusDisplay | components/balboa_spa/balboaspa.cpp:77-110 | with a Fahrenheit spa and a Celsius display, an accepted set-point is staged as its whole Fahrenheit degrees, comes back less than 5/9 of a degree below it when taken back, and is always taken back from 7.5 degrees Celsius up |
| Temperature.LowestCelsiusSetPointOnFahrenheitSpa | components/balboa_spa/balboaspa.cpp:77-110 | 7 degrees Celsius on a Fahrenheit spa is sent as 44 degrees Fahrenheit, which the status decoder will not take back, as it is below 7 degrees Celsius |
| Temperature.CelsiusSpaFahrenheitDisplay | components/balboa_spa/balboaspa.cpp:424-447 | a Celsius spa reporting 0x28 shows 68 degrees on a Fahrenheit display |
| Filters.CheckFilterSchedule | components/balboa_spa/balboaspa.cpp:853-877 | a window without duration never runs; for a start and a clock within the day and a duration of at most a day, the schedule holds exactly when the clock is less than `duration` minutes past the start, counting round midnight |
| Filters.MidnightWindow | components/balboa_spa/balboaspa.cpp:853-877 | a window from 23:50 lasting 20 minutes covers 23:55 and 00:05 but not 23:45 or 00:25 |
| Filters.Step | components/balboa_spa/balboaspa.cpp:896-929 | one filter's update: a start records the time; a stop adds the elapsed whole hours (32-bit wrap) to the runtime and counts a cycle (16-bit wrap); otherwise nothing changes |
| Filters.UpdateFilterStatus | components/balboa_spa/balboaspa.cpp:849-930 | afterwards each filter runs exactly when its schedule says so, and filter 2 never while disabled; each filter's bookkeeping takes one `Step`; nothing else in the state changes |
| Filters.UpdateIdempotent | components/balboa_spa/balboaspa.cpp:849-930 | a second update at the same clock reading changes nothing |
| Filters.CurrentRuntimeMinutes | components/balboa_spa/balboaspa.cpp:831-847 | 0 when the filter is not running, otherwise the whole minutes elapsed since its start |
| Protocol.Setup | components/balboa_spa/balboaspa.cpp:13-28 | the result satisfies the engine invariant; the input queue is empty, the id 0, no command pending, all three stages "want it", and the reception time, filter-request time and last status checksum 0; everything else (records, scales, targets, error flag, output) is as before |
| Protocol.InitialInv | components/balboa_spa/balboaspa.h:70-89 | a fresh object satisfies the engine invariant |
| Protocol.GrantedId | components/balboa_spa/balboaspa.cpp:206-208 | a granted id is clamped to at most 0x2F and kept when already within it |
| Protocol.ReplyPayload | components/balboa_spa/balboaspa.cpp:219-276 | every reply is 3 to 6 bytes and starts with the client id and 0xBF |
| Protocol.IsCommunicating | components/balboa_spa/balboaspa.cpp:696-698 | communicating exactly when a client id is held |
| Protocol.ChooseReply | components/balboa_spa/balboaspa.cpp:221-273 | a command reply is chosen exactly when a command is pending, set time and set temperature exactly for their codes; each request only under its stage conditions: the configuration while it is wanted, the fault log once the configuration has left "want it", the filter settings once the fault log is "got it" |
| Protocol.ClearToSend | components/balboa_spa/balboaspa.cpp:219-276 | a clear-to-send writes exactly one framed reply and consumes the pending command; a stage moves only from want to requested, and then no other stage moves; nothing else changes |
| Protocol.DecodeSettings | components/balboa_spa/balboaspa.cpp:380-415 | the configuration stage becomes got; every equipment field is read as in the source: pumps 1-4 the two-bit fields of byte 5, pumps 5 and 6 bits 0-1 and 6-7 of byte 6, the lights bits 0-1 and 2-3 of byte 7, circulation bit 7 and the blower bits 0-1 of byte 8, the mister bits 4-5 and the auxiliaries bits 0 and 1 of byte 9; the scale bit (bit 0 of byte 3) is stored and adopted as the spa scale only while that is undefined; nothing else changes |
| Protocol.DecodeFault | components/balboa_spa/balboaspa.cpp:616-694 | the fault entry's fields are the telegram's bytes cut to their widths, the message that of the six-bit code; the fault stage becomes got; nothing else changes |
| Protocol.DecodeFilterSettings | components/balboa_spa/balboaspa.cpp:585-614 | every field is read as in the source: filter 1's window from bytes 5 to 8, filter 2's enable flag from bit 7 of byte 9, its hour from the low 5 bits of that byte and the rest of its window from bytes 10 to 12, each cut to its bit-field width; the filter stage becomes got; only the filter settings and that stage change |
| Protocol.ClockGuard | components/balboa_spa/balboaspa.cpp:486-492 | whichever way the clock's guard goes, the clock ends up as the received bytes cut to 5 and 6 bits, and the filter bookkeeping is untouched |
| Protocol.StatusFields | components/balboa_spa/balboaspa.cpp:417-577 | the decoded clock is bytes 8 and 9 cut to 5 and 6 bits, and the filter bookkeeping is left to the tracker |
| Protocol.StatusFlags | components/balboa_spa/balboaspa.cpp:494-573 | rest mode is byte 10; the heater and the range are bits 4 and 2 of byte 15; jets 1-4 are bits 1, 3, 5 and 7 of byte 16, pump 1 its low two bits, pump 2 its bits 3-4, pump 3 off; circulation and blower are bits 1 and 2 of byte 18; the light is on exactly when byte 19 is 3 |
| Protocol.DecodeState | components/balboa_spa/balboaspa.cpp:417-583 | a status update changes only the state, the clock targets and the last status checksum: the targets become bytes 8 and 9, the checksum the telegram's, and each filter runs exactly as its schedule says on the decoded clock |
| Protocol.Unregistered | components/balboa_spa/balboaspa.cpp:201-219 | the registration branch changes at most the id and the output: the id stays or becomes the granted one, and nothing written is taken back |
| Protocol.RouteOf | components/balboa_spa/balboaspa.cpp:201-298 | registration exactly when no id is held; every other route implies its destination and type bytes; for a client with an id, a clear-to-send addressed to it and a broadcast status update are always routed as such |
| Protocol.DecodersScope | components/balboa_spa/balboaspa.cpp:380-694 | no decoder touches the queue, the times, the output, the id or the display scale; each leaves the other stages alone; only the status decoder sets the last status checksum, to the telegram's |
| Protocol.Dispatch | components/balboa_spa/balboaspa.cpp:201-298 | dispatch keeps the queue and the reception and filter-request times and takes nothing written back; an ignored telegram changes nothing |
| Protocol.ReadSerial | components/balboa_spa/balboaspa.cpp:162-304 | after one received byte the queue is the reassembler's, the reception time is `now` or unchanged, the filter-request time is kept and nothing written is taken back |
| Protocol.Drain | components/balboa_spa/balboaspa.cpp:58-60 | after the available bytes the queue is the reassembler's over all of them, the filter-request time is kept and nothing written is taken back |
| Protocol.Tick | components/balboa_spa/balboaspa.cpp:31-55 | more than 10000 ms of silence after a reception drops the id and raises the error, otherwise the error is cleared and the id kept; the filter-request time is renewed after more than 60000 ms; nothing is written unless the request is due and an id is held; nothing else changes |
| Protocol.Update | components/balboa_spa/balboaspa.cpp:30-70 | after a polling tick the queue is the reassembler's over the available bytes, nothing written is taken back and the filter-request time is renewed exactly when it was due |
| Protocol.SetTemp | components/balboa_spa/balboaspa.cpp:77-111 | a set-point is accepted exactly when within the display scale's limits with a known spa scale; then the encoded byte is stored and the temperature command pending, and nothing else changes; otherwise nothing changes |
| Protocol.SetHour | components/balboa_spa/balboaspa.cpp:120-127 | an hour from 0 to 23 is stored and marks the time pending; anything else changes nothing |
| Protocol.SetMinute | components/balboa_spa/balboaspa.cpp:129-136 | a minute from 0 to 59 is stored and marks the time pending; anything else changes nothing |
| Protocol.Command | components/balboa_spa/balboaspa.cpp:138-160 | a toggle queues its command code and nothing else; the next clear-to-send then answers `id BF 11 code 00` |
| Protocol.SetHighrange | components/balboa_spa/balboaspa.cpp:113-118 | the range toggle is queued exactly when the requested range differs from the reported one; otherwise nothing changes |
| Protocol.SetFilterSchedule | components/balboa_spa/balboaspa.cpp:719-789 | an invalid schedule changes nothing; a valid one is sent, as the schedule telegram of the new settings, only by a client with an id; only the filters and the output change |
| Protocol.RequestFilterSettings | components/balboa_spa/balboaspa.cpp:793-805 | a client with an id writes the framed request `id BF 22 01 00 00`; without an id nothing changes; nothing but the output changes |
| Protocol.ResetFilterRuntime | components/balboa_spa/balboaspa.cpp:807-817 | filter 1 or 2 has its runtime hours zeroed and nothing else changes; any other filter number changes nothing |
| Protocol.ResetFilterCycles | components/balboa_spa/balboaspa.cpp:819-829 | filter 1 or 2 has its cycle count zeroed and nothing else changes; any other filter number changes nothing |
| Protocol.SetSpaTempScale | components/balboa_spa/balboaspa.cpp:700-703 | sets the spa scale and nothing else; a known scale set this way survives every later configuration telegram |
| Protocol.SetDisplayTempScale | components/balboa_spa/balboaspa.cpp:705-708 | sets the display scale and nothing else |
| ProtocolProperties.ClearToSendPriority | components/balboa_spa/balboaspa.cpp:221-273 | the reply bytes by priority: set time, then set temperature, then any other pending command as a toggle; with nothing pending, the configuration, fault-log and filter requests in that order, otherwise "nothing to send" |
| ProtocolProperties.FaultLogAskedBeforeConfigArrives | components/balboa_spa/balboaspa.cpp:243-251 | the fault log is requested while the configuration is still only requested |
| ProtocolProperties.GrantAcknowledged | components/balboa_spa/balboaspa.cpp:206-212 | an accepted id grant stores the clamped id and writes the acknowledgement `id BF 03`; nothing else changes but the reception time |
| ProtocolProperties.QueryAnswered | components/balboa_spa/balboaspa.cpp:215-218 | an accepted new-client query is answered with `FE BF 01 02 F1 73` |
| ProtocolProperties.UnregisteredDecodesNothing | components/balboa_spa/balboaspa.cpp:201-219 | without an id, only the id and the output can change whatever telegram arrives |
| ProtocolProperties.DispatchScope | components/balboa_spa/balboaspa.cpp:201-298 | dispatch leaves the queue, times and display scale alone, keeps the id bound, changes the id only when registering, and changes the last status checksum only on a status update that passes the gate |
| ProtocolProperties.DecodersStagesMonotone | components/balboa_spa/balboaspa.cpp:380-694 | no decoder moves a request stage backwards |
| ProtocolProperties.DispatchStagesMonotone | components/balboa_spa/balboaspa.cpp:201-298 | no accepted telegram moves a request stage backwards |
| ProtocolProperties.StageRoutes | components/balboa_spa/balboaspa.cpp:219-293 | a stage moves only to requested on the clear-to-send that asks for it, or to got on its own telegram when it passes the gate |
| ProtocolProperties.StageChangesNeedTelegram | components/balboa_spa/balboaspa.cpp:162-304 | a byte changes a stage only when it completes an accepted telegram routed to the clear-to-send branch or to a decoder |
| ProtocolProperties.ReadSerialStagesMonotone | components/balboa_spa/balboaspa.cpp:162-304 | no received byte moves a stage backwards |
| ProtocolProperties.DrainStagesMonotone | components/balboa_spa/balboaspa.cpp:58-60 | nor does any run of received bytes |
| ProtocolProperties.UpdateStagesMonotone | components/balboa_spa/balboaspa.cpp:30-70 | nor does a whole polling tick |
| ProtocolProperties.ReadSerialKeepsInv | components/balboa_spa/balboaspa.cpp:162-304 | each received byte keeps the queue bound and the id bound |
| ProtocolProperties.DrainKeepsInv | components/balboa_spa/balboaspa.cpp:58-60 | so does the receive loop |
| ProtocolProperties.TickKeepsInv | components/balboa_spa/balboaspa.cpp:31-55 | so do the liveness test and the periodic request |
| ProtocolProperties.UpdateKeepsInv | components/balboa_spa/balboaspa.cpp:30-70 | so does a whole polling tick |
| ProtocolProperties.PeriodicRequestSent | components/balboa_spa/balboaspa.cpp:43-55 | when the filter request is due and the id survives the liveness test, the tick writes exactly the framed request `id BF 22 01 00 00` |
| ProtocolProperties.ReadSerialPaths | components/balboa_spa/balboaspa.cpp:162-304 | dropped bytes, doubled delimiters and mismatches change only the queue; a stored byte also the reception time; a completed telegram leaves the queue empty |
| ProtocolProperties.StrayByteIgnored | components/balboa_spa/balboaspa.cpp:168-171 | a non-delimiter at an empty queue changes nothing |
| ProtocolProperties.GateBlocksRepeat | components/balboa_spa/balboaspa.cpp:277-293 | a record telegram whose checksum equals the last status checksum changes nothing |
| ProtocolProperties.OnlyStatusWritesCrc | components/balboa_spa/balboaspa.cpp:285-288 | only an accepted status update changes the last status checksum, and then to its checksum |
| ProtocolProperties.StatusTemperatures | components/balboa_spa/balboaspa.cpp:424-477 | a 0xFF byte, an out-of-range reading or an undefined display scale keeps the stored temperature; otherwise the decoded reading replaces it |
| ProtocolProperties.StatusPumps | components/balboa_spa/balboaspa.cpp:506-573 | pump 1 is the low two bits of byte 16, pump 2 its bits 3-4, pump 3 stays off; jet 1 is pump 1's high bit and jet 2 is pump 2's low bit |
| ProtocolProperties.DecodeStateFlags | components/balboa_spa/balboaspa.cpp:417-577 | after the whole status decoder, filter tracker included, every flag, pump value and the clock of the state are the ones the telegram's bytes give |
| ProtocolProperties.FirstScheduleStored | components/balboa_spa/balboaspa.cpp:719-753 | filter 1's new window is stored and filter 2's kept |
| ProtocolProperties.SecondScheduleStored | components/balboa_spa/balboaspa.cpp:755-789 | filter 2's new window is stored and its enable flag and filter 1's window kept |
| ProtocolProperties.ScheduleTelegramLayout | components/balboa_spa/balboaspa.cpp:734-751 | the schedule telegram is the header `id BF 22 01` and then both windows byte by byte, with filter 2's enable flag in bit 7 of its start hour |
| ProtocolProperties.FilterDecodeRoundTrip | components/balboa_spa/balboaspa.cpp:585-597 | the filter-configuration decoder reads back exactly the settings a schedule telegram (balboaspa.cpp:734-751) carries, once its data bytes follow a five-byte header as in a received telegram |
| ProtocolProperties.DrainWellFramedPrefix | components/balboa_spa/balboaspa.cpp:179-198 | every byte but the last of a well-framed telegram is stored |
| ProtocolProperties.DrainAccepted | components/balboa_spa/balboaspa.cpp:183-301 | a well-framed telegram with a matching checksum is dispatched once, as itself, and the queue is emptied |
| ProtocolProperties.DrainRejected | components/balboa_spa/balboaspa.cpp:192-198 | one with a mismatching checksum is only noted |
| ProtocolProperties.ClosingDelimiter | components/balboa_spa/balboaspa.cpp:183-301 | the closing delimiter empties the queue and dispatches exactly when the checksum matches |
| ProtocolProperties.SentTelegramDispatched | components/balboa_spa/balboaspa.cpp:345-366 | what `rs485_send` writes is received by an idle peer and dispatched once, as itself |
| ProtocolProperties.CorruptedTelegramIgnored | components/balboa_spa/balboaspa.cpp:192-198 | the same telegram with one byte altered is received and thrown away |
| Balboa.BalboaSpa.constructor | components/balboa_spa/balboaspa.h:70-89 | a new object holds the member initialisers, with two fresh queues |
| Balboa.BalboaSpa.Setup | components/balboa_spa/balboaspa.cpp:13-28 | the new state is `Protocol.Setup` of the old one |
| Balboa.BalboaSpa.IdRequest | components/balboa_spa/balboaspa.cpp:326-335 | writes the wire image of `FE BF 01 02 F1 73` |
| Balboa.BalboaSpa.IdAck | components/balboa_spa/balboaspa.cpp:337-343 | writes the wire image of `id BF 03` |
| Balboa.BalboaSpa.Update | components/balboa_spa/balboaspa.cpp:30-70 | the new state is `Protocol.Update` of the old one: the tick, then one `read_serial` per available byte |
| Balboa.BalboaSpa.Tick | components/balboa_spa/balboaspa.cpp:31-55 | the liveness test and the periodic request, as `Protocol.Tick` |
| Balboa.BalboaSpa.ReadSerial | components/balboa_spa/balboaspa.cpp:162-304 | one received byte, as `Protocol.ReadSerial` |
| Balboa.BalboaSpa.FinishTelegram | components/balboa_spa/balboaspa.cpp:199-303 | dispatches the completed telegram, then empties the queue and notes the time |
| Balboa.BalboaSpa.HandleTelegram | components/balboa_spa/balboaspa.cpp:201-298 | the dispatch on the destination and type bytes, as `Protocol.Dispatch` |
| Balboa.BalboaSpa.Unregistered | components/balboa_spa/balboaspa.cpp:201-219 | the registration branch, as `Protocol.Unregistered` |
| Balboa.BalboaSpa.AcceptId | components/balboa_spa/balboaspa.cpp:206-212 | stores the clamped id and writes its acknowledgement |
| Balboa.BalboaSpa.HandleRecord | components/balboa_spa/balboaspa.cpp:277-298 | the four gated decoder branches, as `Protocol.Dispatch` |
| Balboa.BalboaSpa.ReplyToClearToSend | components/balboa_spa/balboaspa.cpp:219-276 | as `Protocol.ClearToSend` |
| Balboa.BalboaSpa.SendReply | components/balboa_spa/balboaspa.cpp:219-276 | writes the reply, stores the stages and consumes the pending command; nothing else changes |
| Balboa.BalboaSpa.ChooseTelegram | components/balboa_spa/balboaspa.cpp:221-273 | returns the reply the priority chain selects and the stages it leaves |
| Balboa.BalboaSpa.SetTemp | components/balboa_spa/balboaspa.cpp:77-111 | as `Protocol.SetTemp` |
| Balboa.BalboaSpa.SetHighrange | components/balboa_spa/balboaspa.cpp:113-118 | as `Protocol.SetHighrange` |
| Balboa.BalboaSpa.SetHour | components/balboa_spa/balboaspa.cpp:120-127 | as `Protocol.SetHour` |
| Balboa.BalboaSpa.SetMinute | components/balboa_spa/balboaspa.cpp:129-136 | as `Protocol.SetMinute` |
| Balboa.BalboaSpa.Toggle | components/balboa_spa/balboaspa.cpp:138-160 | each toggle queues its command code |
| Balboa.BalboaSpa.SetFilter1Schedule | components/balboa_spa/balboaspa.cpp:719-753 | as `Protocol.SetFilterSchedule` for filter 1 |
| Balboa.BalboaSpa.SetFilter2Schedule | components/balboa_spa/balboaspa.cpp:755-789 | as `Protocol.SetFilterSchedule` for filter 2 |
| Balboa.BalboaSpa.StoreSchedule | components/balboa_spa/balboaspa.cpp:734-752 | stores the schedule and, when registered, writes its telegram |
| Balboa.BalboaSpa.RequestFilterSettings | components/balboa_spa/balboaspa.cpp:793-805 | as `Protocol.RequestFilterSettings` |
| Balboa.BalboaSpa.ResetFilterRuntime | components/balboa_spa/balboaspa.cpp:807-817 | as `Protocol.ResetFilterRuntime` |
| Balboa.BalboaSpa.ResetFilterCycles | components/balboa_spa/balboaspa.cpp:819-829 | as `Protocol.ResetFilterCycles` |
| Balboa.BalboaSpa.SetSpaTempScale | components/balboa_spa/balboaspa.cpp:700-703 | as `Protocol.SetSpaTempScale` |
| Balboa.BalboaSpa.SetDisplayTempScale | components/balboa_spa/balboaspa.cpp:705-708 | as `Protocol.SetDisplayTempScale` |
| Balboa.BalboaSpa.IsCommunicating | components/balboa_spa/balboaspa.cpp:696-698 | true exactly when an id is held |
| Balboa.BalboaSpa.CurrentRuntimeMinutes | components/balboa_spa/balboaspa.cpp:831-847 | the chosen filter's current runtime in whole minutes |
| Balboa.BalboaSpa.DecodeSettings | components/balboa_spa/balboaspa.cpp:380-415 | as `Protocol.DecodeSettings` |
| Balboa.BalboaSpa.DecodeFault | components/balboa_spa/balboaspa.cpp:616-694 | as `Protocol.DecodeFault` |
| Balboa.BalboaSpa.DecodeFilterSettings | components/balboa_spa/balboaspa.cpp:585-614 | as `Protocol.DecodeFilterSettings` |
| Balboa.BalboaSpa.DecodeState | components/balboa_spa/balboaspa.cpp:417-583 | as `Protocol.DecodeState` |
| Balboa.BalboaSpa.UpdateFilterStatus | components/balboa_spa/balboaspa.cpp:849-930 | the live state becomes `Filters.UpdateFilterStatus` of the old one |
| Balboa.ReceiveByte | components/balboa_spa/balboaspa.cpp:162-198 | the outcome and the new queue are those of `Framing.Receive` |
| Balboa.AppendByte | components/balboa_spa/balboaspa.cpp:179-198 | the append, completion and checksum part of `Framing.Receive` |
| Balboa.StageTelegram | components/balboa_spa/balboaspa.cpp:327-332 | a run of `push` calls leaves exactly the telegram in the empty output queue |
| Balboa.SendTelegram | components/balboa_spa/balboaspa.cpp:326-334 | a telegram pushed into the empty output queue and sent writes its wire image `Frame(p)` and leaves the queue empty |
| Balboa.Rs485Send | components/balboa_spa/balboaspa.cpp:345-366 | writes the queue's wire image `Frame(p)` and leaves it empty |
| Balboa.WrapTelegram | components/balboa_spa/balboaspa.cpp:346-354 | the queue becomes the wire image of its contents |
| Balboa.AddLengthAndChecksum | components/balboa_spa/balboaspa.cpp:347-350 | the length `|p| + 2` in front and the checksum behind |
| Balboa.AddDelimiters | components/balboa_spa/balboaspa.cpp:352-354 | the queue holds its telegram between two delimiters |

## Left out

- Logging: `ESP_LOG*` calls and `print_msg` have no effect on the state.
- `get_setup_priority`, `get_current_config` and `get_current_state` only return a constant or a field.
- Listeners: `register_listener` and the calls in `update` are calls into code that is not part of this model. The address `&spaState` they receive is not modelled, so `SpaState` is held by value.
- The UART interface: `available` and `read_byte` are replaced by the sequence `rx` and the byte `b`. The `read_byte` failure path (a false return) is not modelled. `write` and `flush` are the append to `written`.
- `status_set_error`, `status_has_error` and `status_clear_error` are modelled as one boolean.
- The ESPHome adapters, sensors and climate entities are not part of this model.
- `spa_config.h` is not part of this model. `SpaConfig`'s fields and widths are inferred from `decodeSettings`.
- `CircularBuffer::at` and `CircularBuffer::sort` are unused by the core and left out.
- The `last_status_byte_*` debug copies in `decodeState`, and `faultlog_update_timer` and `filtersettings_update_timer`, are never read, so they are left out.
- `last_filtersettings_request` is used in `balboaspa.cpp` but declared in none of the headers modelled here (not in `balboaspa.h`); its `uint32_t` width is inferred from its use as a `millis()` timestamp, as `lastFilterRequest: u32`.
- Floating point: temperatures are exact reals (`Option<real>`). A float-to-`uint8_t` conversion is the floor. IEEE rounding is not modelled.
- Members the source leaves uninitialised start at 0 in the model: the `SpaState` bit-fields, `SpaConfig`, `SpaFaultLog` and `SpaFilterSettings`.
- `first()` on an empty deque has undefined behaviour. The model reads it as "not the delimiter".
- `Balboa.BalboaSpa.Toggle`: the six `toggle_*` methods are one method with the command code as a parameter.
- `Balboa.BalboaSpa.CurrentRuntimeMinutes`: the two runtime getters are one method with a `second` flag.
- `Balboa.BalboaSpa.IdRequest`, `Balboa.BalboaSpa.IdAck` and the other senders: the model's `Rs485Send` returns the wire bytes and the object appends them to `written`. The source writes them one by one inside `rs485_send`.
- `Balboa.StageTelegram`: the telegrams of the clear-to-send reply, the periodic and explicit filter requests and the schedule setters are pushed from a sequence. The source pushes them byte by byte.
- `Balboa.BalboaSpa.DecodeSettings`, `Balboa.BalboaSpa.DecodeFault`, `Balboa.BalboaSpa.DecodeFilterSettings` and `Balboa.BalboaSpa.DecodeState` build each record as one value and store it once. The source stores field by field.
- `Balboa.BalboaSpa.DecodeState`: the status decoder's "assign only if it differs" guards are folded into plain assignments, which end in the same state (`Protocol.ClockGuard`). Its fields are assigned state first and clock targets and checksum last; the fields are disjoint, so the end state is the source's.
- The packet-incomplete branch of `read_serial` (balboaspa.cpp:185-190) cannot be reached once the completion test has passed. `Balboa.AppendByte` proves the branch dead, and `Framing.Receive` omits it.
- Every `millis()` reading during one call of `update` is the one value `now`, including the readings in `read_serial` and in `update_filter_status`.
