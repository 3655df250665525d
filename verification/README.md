# Lian Li Galahad II pump lighting plugins — a verified model

This project models the protocol and state engine of the SignalRGB plugins for
the Lian Li Galahad II Trinity, Trinity Performance and LCD AIO pumps.

- `plugin/device_enhanced.js` is the enhanced plugin. It does per-LED and ring-aware
  rendering, error counting and recovery, and header auto-detection.
- `signalrgb-plugin/LianLi_GalahadII_Trinity_Enhanced/device.js` is the same engine
  without `Validate` and without the detector. It adds a `Channels` export.
- `plugin/device.js` is the basic plugin. It sends one averaged zone colour per frame.
- `scripts/protocol_test.js` is the packet self-check and its single-command tests.

All of them talk to the pump through 64-byte HID frames. Each frame holds report
id 0, the header pair 0x16 0x16, a command byte, the payload length, an optional
zone byte and the payload.

The modules follow the program's structure:

- `Protocol` (protocol.dfy): the wire constants, the ring-mode setting and the
  zone and brightness mappings.
- `Codec` (codec.dfy): the one frame shape, `Frame`, and its decoder
  `DecodeFrame`. Round trips are proved in both directions. Every packet-building
  loop of the sources is a method proved to return `Frame`.
- `Layout` (layout.dfy): the enhanced two-ring LED layout, its active index sets
  and the ring splits.
- `Sampler` (sampler.dfy): canvas sampling per LED and averaged, brightness
  scaling and `Math.round` (computed on exact rationals, see "## Left out"),
  the mean colour and the `[index, r, g, b]` flattening.
- `Chunking` (chunking.dfy): per-LED data split into packets of at most 14 LEDs.
- `Transport` (transport.dfy): the HID handle, as a class whose `Write` either
  accepts a packet or throws. A fixed oracle `fails(k)` says whether write
  attempt `k` throws. `Run` counts the writes that go through before the first
  throw. `Attempted` describes a try block that stops at its first throw.
- `Enhanced` (enhanced.dfy): the enhanced plugin's module state as the class
  `Session`. It covers Initialize, Render, Shutdown, setBrightness, the
  `setTimeout` continuations as a queue of pending steps, and protocol detection.
- `Basic` (basic.dfy): the basic plugin's module state and operations.
- `ProtocolCheck` (validator.dfy): validatePacket, createTestPacket,
  testColorCommand and testCommand.

Inputs that the plugins read from their host are parameters of the model:

- the canvas (`device.color`) is a function from grid cell to optional colour;
- the ring geometry (`Math.cos`/`Math.sin` rounded to cells) is a `Placement`;
- which writes throw is the device's `fails` oracle;
- whether `device.open()` returned a handle is a boolean;
- the host settings are `Option` values, with `None` meaning undefined.

## Model

| member | source | states |
|---|---|---|
| Protocol.ZoneForRingMode | plugin/device_enhanced.js:371-383 | The zone byte is 1 exactly for "Outer Ring Only", 2 exactly for "Inner Ring Only", 3 exactly for "Independent Rings", and 0 for Combined and every unknown mode |
| Protocol.BasicZoneForRingMode | plugin/device.js:305-315 | The basic plugin gives 1 and 2 for the single-ring modes and 0 for everything else, including "Independent Rings"; on every other mode it agrees with the enhanced mapping |
| Protocol.ClampBrightness | plugin/device_enhanced.js:359 | The brightness byte always lies in [1, 100]; a value inside that range is sent unchanged; below 1 gives 1 and above 100 gives 100 |
| Codec.DecodeEncode | plugin/device_enhanced.js:734-759 | Decoding any encoded frame returns its headers, command, zone and the original payload length; the payload comes back truncated to the frame's capacity (58 bytes after a zone byte, 59 otherwise) |
| Codec.EncodeDecode | plugin/device_enhanced.js:734-759 | Every frame the decoder accepts, whose length byte fits the capacity, is exactly the encoding of what it decodes to: an encoded frame has no free byte |
| Codec.CreateProtocolPacket | plugin/device_enhanced.js:734-759 | The enhanced packet builder (the later of the two definitions, with detected headers) returns the frame of the current header pair, command and data; the ring-mode zone goes at byte 5 for commands 0x06 and 0x07 and for no other command |
| Codec.CreatePlainPacket | plugin/device.js:287-302 | The basic packet builder returns the frame with the fixed headers, no zone byte and at most 59 payload bytes from offset 5 |
| Codec.CopyPayload | plugin/device_enhanced.js:748-755 | The copy loop writes data[i] at offset+i for exactly the first min(length, 64 - offset) bytes and leaves every other cell as it was |
| Codec.FrameOfBytes | plugin/device_enhanced.js:735-756 | A 64-cell array whose header cells, zone cell and copied payload are set this way, with zeros elsewhere, is the frame |
| Codec.FrameBytes | plugin/device_enhanced.js:331-355 | Every encoded frame has 64 bytes: byte 0 is 0, bytes 1-2 are the header pair, byte 3 is the command, byte 4 is the original payload length even when the copy is truncated, byte 5 is the zone when there is one, then the copied payload, then zeros |
| Codec.OverwriteZone | plugin/device_enhanced.js:499-503 | Overwriting byte 5 of a zone-command frame gives the frame encoded with the new zone |
| Codec.Truncation | plugin/device_enhanced.js:344-351 | A payload that fits is carried whole; a longer one loses exactly its tail beyond the capacity, and encoding never fails |
| Layout.Clamp | plugin/device_enhanced.js:185 | A clamped cell lies inside the 10 x 8 grid, and each coordinate already inside the grid is unchanged |
| Layout.GenerateLayout | plugin/device_enhanced.js:178-200 | The two loops build the layout specification: outer LEDs first, then inner LEDs, with clamped cells, names "Outer i"/"Inner i" and the ring index lists |
| Layout.LayoutSpecShape | plugin/device_enhanced.js:178-200 | The layout is well formed: outer ring indices 0..outer-1 and inner ring indices outer..total-1; every cell is inside the grid; LED i of each ring sits at its clamped placement with its 1-based name |
| Layout.ActiveIndicesSpec | plugin/device_enhanced.js:202-213 | "Outer Ring Only" drives 0..outer-1 and "Inner Ring Only" drives outer..total-1; Combined, Independent Rings and unknown modes drive 0..total-1 with the outer ring first; every active index addresses a cell and none repeats |
| Layout.TrinityActiveSets | plugin/device_enhanced.js:216 | On the default 16/8 layout the outer-only set is 0..15, the inner-only set is 16..23 and Combined is 0..23 |
| Layout.EnhancedOuterCount | plugin/device_enhanced.js:271-272 | Math.ceil(n * 0.67) is the least integer not below 67n/100, and it is at most n, so the inner ring gets the non-negative rest |
| Layout.BasicOuterCount | plugin/device.js:161 | Math.ceil(n * 0.7) is the least integer not below 7n/10, and it is at most n |
| Sampler.RoundDiv | plugin/device_enhanced.js:423-425 | Math.round(num / den) is the nearest integer, with halves rounded up: 2·den·q ≤ 2·num + den < 2·den·(q + 1) |
| Sampler.ScaleFull | plugin/device_enhanced.js:399-401 | Brightness 100 leaves every channel unchanged |
| Sampler.Replicate | plugin/device_enhanced.js:429-431 | The averaged colour is copied once per active index |
| Sampler.ActiveAddresses | plugin/device_enhanced.js:387-393 | Every active index of a well-formed layout has a position to sample |
| Sampler.RingAddresses | plugin/device_enhanced.js:564-566 | Every index of both ring lists has a position to sample |
| Sampler.SamplePerLed | plugin/device_enhanced.js:562-579 | The per-LED sampling loop (processColors, getOuterRingColors, getInnerRingColors) returns the per-LED colour list of its index list |
| Sampler.ProcessColors | plugin/device_enhanced.js:386-436 | processColors samples per LED when both the setting and the profile allow it, and otherwise returns the averaged list |
| Sampler.SumValid | plugin/device_enhanced.js:407-419 | The summing loop returns the channel sums and the count of the cells the canvas answers for |
| Sampler.ReplicateColor | plugin/device_enhanced.js:428-431 | The copy loop returns the average tagged with each active index |
| Sampler.PerLedColorsMembers | plugin/device_enhanced.js:390-404 | Per-LED sampling yields at most as many colours as indices; each is for an index of the list whose cell the canvas answers for, and is that cell's colour scaled by the brightness |
| Sampler.PerLedColorsOrdered | plugin/device_enhanced.js:390-404 | Over an increasing index list, such as every active list of a well-formed layout, the sampled colours keep the list order, so no index gets two colours |
| Sampler.PerLedColorsComplete | plugin/device_enhanced.js:390-404 | When the canvas answers at every index, per-LED sampling yields one brightness-scaled colour per index, tagged with that index |
| Sampler.ValidTotalsCount | plugin/device_enhanced.js:407-421 | The sample count is at most the number of indices, and it is zero exactly when the canvas answers for no index |
| Sampler.AveragedColorsSpec | plugin/device_enhanced.js:405-433 | Averaged mode yields nothing exactly when no sample is valid; otherwise there is at least one sample, and every active index, in order, gets the mean of the valid samples scaled by the brightness |
| Sampler.AveragedPrimaries | plugin/device_enhanced.js:405-433 | Red, green and blue on three LEDs at brightness 100 average to (85, 85, 85) on all three |
| Sampler.HalfBrightness | plugin/device_enhanced.js:399-401 | At brightness 50 the colour (200, 100, 0) is sent as (100, 50, 0) |
| Sampler.ColorTotals | plugin/device_enhanced.js:600-609 | The count used for the mean is the number of colours |
| Sampler.CalculateAverageColor | plugin/device_enhanced.js:600-615 | The averaging loop returns Math.round(total / count) per channel |
| Sampler.UniformTotals | plugin/device_enhanced.js:603-607 | Over n copies of one colour the totals are n times each channel |
| Sampler.AverageOfUniform | plugin/device_enhanced.js:600-615 | Averaging a non-empty list of one colour gives back that colour |
| Sampler.MeanOfPrimaries | plugin/device_enhanced.js:600-615 | calculateAverageColor on red, green and blue gives (85, 85, 85) |
| Sampler.RoundDivOfMultiple | plugin/device_enhanced.js:611-613 | Rounding an exact quotient gives that quotient |
| Sampler.Flatten | plugin/device_enhanced.js:617-623 | The flattened data has four bytes per colour |
| Sampler.FlattenLedColors | plugin/device_enhanced.js:617-623 | The flattening loop returns [index, r, g, b] per colour, in order |
| Sampler.FlattenLayout | plugin/device_enhanced.js:617-623 | Colour k occupies bytes 4k..4k+3 of the flattened data, as its index and its three channels |
| Chunking.ChunkCount | plugin/device_enhanced.js:547 | The loop makes ceil(n / 14) passes: enough to cover n colours, no pass too many, and none exactly when n is 0 |
| Chunking.ChunkStarts | plugin/device_enhanced.js:547 | Pass j happens exactly when 14j is below the number of colours |
| Chunking.Chunk | plugin/device_enhanced.js:548 | Each slice has 1 to 14 colours |
| Chunking.Chunks | plugin/device_enhanced.js:547-548 | There is one slice per loop pass |
| Chunking.ChunkPackets | plugin/device_enhanced.js:544-559 | There is one individual-colour packet per slice |
| Chunking.ConcatPrefix | plugin/device_enhanced.js:547-548 | The first m slices joined are the first min(14m, n) colours |
| Chunking.ChunksCover | plugin/device_enhanced.js:547-548 | The slices joined are the whole colour list in order, and each slice holds 1 to 14 colours |
| Chunking.ChunkPacketCarries | plugin/device_enhanced.js:548-552 | Every chunk packet is command 0x07 with the ring-mode zone and carries its whole slice as [index, r, g, b] bytes: at most 56 bytes, which fit the 58-byte capacity |
| Chunking.DefaultLayoutChunks | plugin/device_enhanced.js:544-559 | 24 per-LED colours go out as two packets, LEDs 0-13 (56 bytes) and LEDs 14-23 (40 bytes) |
| Chunking.WriteChunk | plugin/device_enhanced.js:548-552 | One loop pass writes the packet of chunk j once, and the device keeps it exactly when the write does not throw |
| Chunking.SendPerLedData | plugin/device_enhanced.js:544-559 | sendPerLEDData writes the chunk packets in order and stops at the first throw: the device holds exactly the packets before it |
| Transport.HidDevice.constructor | plugin/device_enhanced.js:266 | A freshly opened handle has made no attempt and holds no packet |
| Transport.HidDevice.Write | plugin/device_enhanced.js:304 | A write is one attempt; it throws exactly when the oracle says so, and only a write that does not throw delivers its packet |
| Transport.Run | plugin/device_enhanced.js:452-464 | The clean run of a sequence of writes is at most its length; when it ends early, it ends at a throwing write |
| Transport.RunClean | plugin/device_enhanced.js:452-464 | Every write inside the clean run goes through |
| Transport.RunUnique | plugin/device_enhanced.js:452-464 | Any count with the two run properties equals the clean run |
| Transport.RunAppend | plugin/device_enhanced.js:452-464 | The clean run over two sequences joined is the run over the first when it ends early, and otherwise continues into the second |
| Transport.RunStep | plugin/device_enhanced.js:547-553 | One more write after a clean run either extends the run or ends every longer run there |
| Transport.Misses | plugin/device_enhanced.js:682-690 | The number of leading throwing writes: every write before it throws, and the write at it (if any) goes through |
| Transport.MissesUnique | plugin/device_enhanced.js:682-690 | Any count with the two miss properties equals Misses |
| Transport.Spent | plugin/device_enhanced.js:452-464 | A try block that stops at its first throw spends all its attempts exactly when at most the last write throws |
| Transport.AttemptedNone | plugin/device_enhanced.js:528 | Writing nothing succeeds and changes nothing |
| Transport.AttemptedOne | plugin/device_enhanced.js:539 | A single write is a try block of one packet |
| Transport.AttemptedThen | plugin/device_enhanced.js:452-464 | A block that went through, followed by another block, is one block of the two joined |
| Transport.AttemptedStop | plugin/device_enhanced.js:452-464 | A block that threw stays thrown whatever was meant to follow it |
| Transport.BodyThenTail | plugin/device_enhanced.js:452-464 | A block followed by at most one write made only when the block went through is one block of both, and the first part went through exactly when the run covers it |
| Enhanced.ProfileFor | plugin/device_enhanced.js:44-68 | The profile lookup falls back to Trinity for every unknown product id; every profile has 16 outer and 8 inner LEDs and supports per-LED control |
| Enhanced.Validate | plugin/device_enhanced.js:227-252 | An accepted endpoint matches the profile's interface, and its usage page when the profile names one; for a profile on interface 0 or 1 those exact matches are also sufficient |
| Enhanced.ValidateProfiles | plugin/device_enhanced.js:227-252 | With the plugin's own product id, exactly the interface-0 endpoints are accepted; the LCD profile accepts exactly interface 1 with usage page 0xFF1A |
| Enhanced.BuildProbe | plugin/device_enhanced.js:696-708 | The detector's probe is the frame of the candidate headers for command 0x01 with the one payload byte 0 |
| Enhanced.RingFrameCarries | plugin/device_enhanced.js:489-522 | A ring packet decodes with the ring's own zone; up to 14 sampled LEDs travel whole, while more than 14 lose the tail of their data, because independent-rings mode does not chunk |
| Enhanced.DefaultOuterRingTruncated | plugin/device_enhanced.js:494-504 | With the default 16-LED outer ring fully sampled, the 64 bytes of outer data are cut to 58: LED 15 loses its last two bytes and LED 16 is missing |
| Enhanced.FrameWent | plugin/device_enhanced.js:466-469 | After a frame whose writes all went through, the every-30th-frame brightness write gives the frame outcome |
| Enhanced.FrameThrew | plugin/device_enhanced.js:471-485 | After a frame whose write threw, the counted error and the recovery step give the frame outcome |
| Enhanced.Session.constructor | plugin/device_enhanced.js:71-86 | The module starts as Trinity with 24 LEDs on the 16/8 layout, brightness 100, Combined, per-LED on, nothing open or initialised, no errors, no detected headers and nothing scheduled |
| Enhanced.Session.BrightnessPacketBytes | plugin/device_enhanced.js:358-360 | The brightness packet is command 0x08 with length 1 and one byte holding the clamped value in [1, 100], then zeros |
| Enhanced.Session.LedCountStepSendsProfileTotal | plugin/device_enhanced.js:308-311 | The bring-up LED-count step sends the profile's total of 24 as its single payload byte, whatever LED count is configured |
| Enhanced.Session.Channels | signalrgb-plugin/LianLi_GalahadII_Trinity_Enhanced/device.js:207-222 | There are two channels, "Outer Ring" and "Inner Ring", with the profile's outer and inner LED counts, each per-LED exactly when per-LED mode is on; their counts add up to the total that the bring-up sends |
| Enhanced.Session.SetBrightness | plugin/device_enhanced.js:358-368 | One write of the clamped brightness packet; a throw is swallowed and counted as one error |
| Enhanced.Session.InitializeDeviceProtocol | plugin/device_enhanced.js:299-328 | Only the Reset write happens at once and may throw; the LED-count step is scheduled exactly when the Reset went through |
| Enhanced.Session.ApplySettings | plugin/device_enhanced.js:268-279 | Every defined setting replaces the current value and every undefined one keeps it; a defined LED count n also rebuilds the layout as ceil(0.67 n) outer and the rest inner, totalling n |
| Enhanced.Session.BringUp | plugin/device_enhanced.js:284-293 | Initialisation completes and the error count clears exactly when the Reset write goes through; otherwise the error count goes up by one |
| Enhanced.Session.Initialize | plugin/device_enhanced.js:265-296 | Initialize records whether the handle opened, applies the settings, selects the profile of the product id and brings the device up; the session is initialised whatever happened |
| Enhanced.Session.RenderCombinedMode | plugin/device_enhanced.js:525-541 | Combined rendering writes nothing when no colour was sampled, the chunked per-LED packets when per-LED mode is on and more than one LED was sampled, and otherwise one zone packet with the mean colour; it stops at the first throw |
| Enhanced.Session.RenderIndependentRings | plugin/device_enhanced.js:489-522 | The outer ring's packet, with zone 1, is written at once if any outer LED was sampled; the inner ring's packet is scheduled only if that did not throw |
| Enhanced.Session.WriteBody | plugin/device_enhanced.js:453-458 | The colour part of a frame dispatches on the ring mode and schedules the inner-ring step when it went through |
| Enhanced.Session.WriteFramePackets | plugin/device_enhanced.js:452-464 | The colour packets, then Apply on every third frame, are written until the first throw; the inner-ring step is scheduled when the colour part went through, whatever happens to Apply |
| Enhanced.Session.WriteFrame | plugin/device_enhanced.js:450-464 | The frame counter advances by one before the frame's packets are written |
| Enhanced.Session.FrameSucceeded | plugin/device_enhanced.js:466-469 | Every 30th frame re-sends the brightness, and a throw there is counted; other frames write nothing |
| Enhanced.Session.FrameFailed | plugin/device_enhanced.js:471-485 | A thrown frame adds one error; above 5 errors on a multiple of 300 frames the Reset is retried, and if it goes through the count clears and the LED-count step is scheduled |
| Enhanced.Session.RenderFrame | plugin/device_enhanced.js:450-485 | One frame past the guards: the counter advances and the device, error count and schedule reach the frame outcome |
| Enhanced.Session.Render | plugin/device_enhanced.js:439-486 | Render changes nothing unless the session is initialised, open, complete and at most 10 errors in; otherwise it renders one frame |
| Enhanced.Session.RunDeferred | plugin/device_enhanced.js:308-327 | A firing continuation leaves the queue and writes its packet; on success it schedules the step after it (LED count → RGB on → brightness, Apply → Reset); only the brightness step counts its own throw |
| Enhanced.Session.Shutdown | plugin/device_enhanced.js:626-666 | Shutdown does nothing unless the session is initialised and open; otherwise it writes the black zone packet, schedules Apply only if that went through, and resets the session state whatever the write did |
| Enhanced.Session.DetectProtocol | plugin/device_enhanced.js:679-694 | The candidates are probed in order; the first probe that does not throw fixes the header pair of every later packet; when all three throw, the default pair is returned and nothing is recorded |
| Basic.ConfigFor | plugin/device.js:49-53 | The configuration lookup falls back to Trinity for unknown product ids; every configuration has 24 LEDs and interface 0 or 1 |
| Basic.ValidateExact | plugin/device.js:198-219 | Because every configuration names interface 0 or 1, the fallback test never rejects: an endpoint is accepted exactly when its interface matches and, for the LCD, its usage page is 0xFF1A |
| Basic.RingCells | plugin/device.js:163-181 | One cell per LED of a ring, unclamped |
| Basic.GenerateLedLayout | plugin/device.js:154-184 | The two loops build ceil(0.7 n) outer cells and names, then the rest inner, outer first |
| Basic.DefaultLayoutShape | plugin/device.js:186 | The load-time layout has 24 cells: "Outer 1" to "Outer 17", then "Inner 1" to "Inner 7", each at its unclamped placement |
| Basic.Channels | plugin/device.js:138-151 | There are two channels, "Outer Ring" and "Inner Ring"; the outer one has ceil(0.67 · LED_COUNT) LEDs and the inner one the rest, so together they are LED_COUNT |
| Basic.ChannelsAgainstLayout | plugin/device.js:143 | The channel split (0.67) and the layout split (0.7) agree at 24 LEDs (17 outer) but not at 43 (29 against 31) |
| Basic.UniformValidTotals | plugin/device.js:322-332 | Over cells that all show one colour, the sums are the count times each channel |
| Basic.AverageOfCopies | plugin/device.js:334-340 | The scaled average of n copies of a colour is that colour scaled |
| Basic.FrameColorSpec | plugin/device.js:318-341 | The frame colour is black when the canvas answers nowhere; when every cell of a non-empty layout shows one colour, it is that colour scaled by the brightness, and unchanged at brightness 100 |
| Basic.ZonePacketCarries | plugin/device.js:386-393 | The zone packet decodes as command 0x06 with length 4 and payload [zone, r, g, b], the zone taken from the ring mode |
| Basic.LedCountStepSendsSetting | plugin/device.js:275 | The basic LED-count step sends the configured LED_COUNT |
| Basic.Session.constructor | plugin/device.js:56-64 | The module starts with 24 LEDs, brightness 100, Combined, no last colour, frame 0, nothing open or initialised, and the 24-LED layout |
| Basic.Session.InitializeDevice | plugin/device.js:267-284 | Only the Reset write happens at once; the LED-count step is scheduled exactly when it went through |
| Basic.Session.Initialize | plugin/device.js:237-264 | Initialize records whether the handle opened, applies the defined settings (the layout stays as built) and completes exactly when the Reset went through |
| Basic.Session.GetAverageColor | plugin/device.js:318-341 | The loop over every position returns the frame colour |
| Basic.Session.SendRgbData | plugin/device.js:386-404 | One write of the zone packet; when it went through, the inner-zone packet is scheduled in Combined mode with at least 16 LEDs |
| Basic.Session.WriteFrame | plugin/device.js:363-369 | The zone packet, then Apply on every fifth frame, are written until the first throw |
| Basic.Session.SendFrame | plugin/device.js:351-382 | A sent frame reaches the frame outcome: on a throw, every 300th frame retries the Reset, whose own throw is ignored |
| Basic.Session.Render | plugin/device.js:344-383 | Render changes nothing unless initialised, open and complete; otherwise the counter advances, and the frame is skipped when its colour equals the last one sent, except on every tenth frame |
| Basic.Session.RunDeferred | plugin/device.js:273-283 | A firing continuation leaves the queue and writes its packet; on success it schedules the next step (LED count → RGB on, Apply → Reset) |
| Basic.Session.Shutdown | plugin/device.js:406-436 | Shutdown does nothing unless initialised and open; otherwise it writes black for all zones, schedules Apply only if that went through, and resets the session state whatever the write did |
| ProtocolCheck.ValidatePacket | scripts/protocol_test.js:27-58 | validatePacket throws exactly on packets too short for the byte a message reads; otherwise it returns the failed checks in order, one error each, and it is valid exactly when there are none |
| ProtocolCheck.FailuresSpec | scripts/protocol_test.js:27-58 | A packet passes exactly when it has 64 bytes, report id 0, headers 0x16 0x16 and, when a command is expected, that command; each failed check adds one error; an expected command of 0 is never checked |
| ProtocolCheck.CreateTestPacket | scripts/protocol_test.js:92-106 | createTestPacket builds the basic plugin's frame: fixed headers and at most 59 payload bytes from offset 5 |
| ProtocolCheck.TestPacketValid | scripts/protocol_test.js:92-106 | Every test packet passes validation against its own command; byte 4 keeps the original length, and the payload beyond 59 bytes is dropped |
| ProtocolCheck.OtherHeadersRejected | scripts/protocol_test.js:46-49 | A frame with any header pair other than 0x16 0x16 (such as a detected alternative) fails with exactly one error, the header error |
| ProtocolCheck.TestColorCommand | scripts/protocol_test.js:61-89 | The colour test passes with no device, and otherwise exactly when the write of [0, r, g, b] for command 0x06 does not throw |
| ProtocolCheck.TestCommand | scripts/protocol_test.js:190 | The command test passes with no device, and otherwise exactly when the write throws if and only if an error is expected |

## Left out

- Floating-point geometry is left out. The cells come from `Math.cos`/`Math.sin` and are a
  `Placement` parameter. Only the clamping to the grid and the index bookkeeping are modelled.
- Timer delays and the order between continuations are left out. Every `setTimeout`
  continuation is an entry of `pending` that `RunDeferred` may fire in any order. Each chain
  still keeps its own order, because a step is scheduled only after the previous one's write
  went through. The empty `setTimeout(() => {}, 5)` between chunks does nothing and is omitted.
- Logging (`console.log`) is left out, as are the static metadata exports (`Name`, `VendorId`,
  `Size`, `DefaultPosition`, `DefaultScale`, `ControllableParameters`, `SupportedModes`,
  `DeviceInfo`, `LedNames`/`LedPositions` as getters).
- `last_outer_colors` and `last_inner_colors` are left out: they are only ever cleared by
  `Shutdown` and never read.
- `effectSpeed`, `modelType` and `autoDetectProtocol` are left out. They are read into state
  and never used.
- Nothing in the plugin calls `detectProtocol`, so in the shipped plugin the headers are always
  0x16 0x16. `Enhanced.Session.DetectProtocol` models the detector as an operation a caller may
  run. Its 100 ms await does not change any outcome and is not modelled.
- The test driver parts of `scripts/protocol_test.js` are not part of this model:
  `runFullTest`, the five test suites, `printTestSummary`, `delay` and `testResults`. The same
  holds for `scripts/hardware_test.js`, `scripts/detect_pump.js` and `scripts/run_tests.js`.
- ProtocolCheck.ValidatePacket: error messages are modelled as structured `CheckError` values,
  not as formatted strings.
- Enhanced.Session.Initialize: `device.open()` is a boolean input. The host's range limits on
  settings (16-64 LEDs, brightness 1-100) are not assumed: any natural LED count and any
  integer brightness are accepted. Negative LED counts, which the code would also take, are
  not modelled.
- Enhanced.Validate: for profiles whose interface is 0 or 1, the contract states the exact
  accept set. For other interfaces (no profile has one) it states only the necessary matches.
- Sampler.Scale, Sampler.AverageColor and Sampler.MeanColor compute `Math.round` of a quotient
  exactly on rationals, not in IEEE doubles. On some inputs the double result falls just
  below a half and rounds down. For example, `50 * (29 / 100)` is 14.499999999999998, so the
  code sends 14 where `Scale(50, 29)` is 15.
- Layout.EnhancedOuterCount and Layout.BasicOuterCount compute `Math.ceil(n * 0.67)` and
  `Math.ceil(n * 0.7)` exactly. They agree with the double computation for the LED counts
  the host offers. At large counts the double product can land just above an integer, as
  `1500 * 0.67` gives 1005.0000000000001 and so a ceiling of 1006, where the model gives 1005.
- Packet bytes are JavaScript numbers, modelled as unbounded integers. The HID layer's
  conversion to bytes is not part of this model.

Where the code and its design description differ, the model follows the code:

- Byte 4 of every frame is the original payload length, even when the payload is truncated;
  it is not the number of bytes copied.
- In the bring-up sequence only the Reset write is synchronous. Completion therefore depends
  on the Reset alone, and a throw in a later step is not caught by `Initialize`.
- The enhanced LED-count step sends the profile total (24), not the configured LED count.
  The basic plugin sends `LED_COUNT`.
- Once the enhanced error count exceeds 10, `Render` returns before the try block. Recovery
  can then never run again, and rendering stays stopped until `Initialize`.
- Independent-rings mode does not chunk, so a ring with more than 14 sampled LEDs is
  truncated. A ring with one sampled LED is sent as a bare [r, g, b].
- Continuations scheduled before `Shutdown` still write after it.
- The basic plugin averages over every layout position, whatever the ring mode. Its layout is
  built once for 24 LEDs, is never rebuilt and is not clamped to its grid. Its `Channels`
  split uses 0.67 while its layout uses 0.7.
- The basic `Validate` fallback never rejects, because every configuration names interface 0
  or 1. The enhanced fallback is likewise reached only after an exact interface match.
- `validatePacket` throws on packets shorter than the byte one of its messages formats.
- Two sources do not parse exactly as written, and the model follows their evident intent.
  `plugin/device_enhanced.js` is module code (it uses `export`), so its second top-level
  `createProtocolPacket` (line 734) is a redeclaration error rather than an override. The
  model takes the later definition, with detected headers, as the one in force.
  `scripts/protocol_test.js:190` holds literal `\n` escapes outside any string, and the model
  reads them as line breaks.
