# ExpressLRS link core in Dafny

This project models the link-layer core of the ExpressLRS radio control
firmware and proves properties of the model. The core has three parts.

- **The over-the-air frame codec** (`ota.dfy`, module `Ota`). The transmitter
  packs the pilot's RC channels into a 7-byte radio frame and the receiver
  rebuilds them. Analog channels 0..3 keep bits 10..1: bits 10..3 go in
  bytes 1..4 and bits 2..1 of all four channels share byte 5. Byte 6 holds
  the switches in one of two build-time layouts:
  - the *hybrid* layout: a telemetry flag, switch 0, a round-robin switch
    index and that switch's value;
  - the *fixed* (10-bit) layout: eight one-bit channels.

  The same frame can instead carry a small MSP message: a function code, a
  size and up to four payload bytes.
- **The MSP packet buffer** (`msp.dfy`, module `Msp`). This is
  `mspPacket_t`: an 8-byte payload array with a fill length, a read cursor
  and a sticky read-error flag.
- **The dynamic power controller** (`dynpower.dfy`, module `DynPower`). It
  runs one step per tick and turns the latest telemetry into power-manager
  commands. The rules run in a fixed order: overload, disabled mode, boost,
  missed telemetry, emergency LQ drop, then the SNR rules. It also keeps a
  16.16 fixed-point moving average of the uplink LQ.

`ints.dfy` (module `Ints`) holds the C integer types and conversions the
others use: `uint8_t`, `uint16_t`, `uint32_t`, `int8_t` and `int32_t`
wrap-around. `ota_lemmas.dfy` and `dynpower_lemmas.dfy` hold the properties
that relate several operations.

The model works as follows:

- **Frames and MSP packets.** The frame is an `array<bv8>` that the codec
  writes byte by byte. `MspPacket` is a class whose methods update its fields
  and its payload array, as the C struct's member functions do.
- **The CRSF object.** The part of it the codec touches is the class `Crsf`:
  `ChannelDataIn`, `currentSwitches`, `PackedRCdataOut`, and a log of the
  `setSentSwitch` calls.
- **Pure specifications.** Each encoder is proved to write the frame a pure
  function describes (`HybridFrame`, `FixedFrame`, `MspFrame`). Each decoder
  is proved to leave `PackedRCdataOut` as a pure function of the frame and
  the old value (`HybridUnpacked`, `FixedUnpacked`). The lemmas then relate
  these functions to each other.
- **The controller.** The power controller is the class `DynamicPower`, with
  the two statics as fields. `Update` is an imperative method with early
  returns and the SNR `while` loop. It is proved to return exactly the
  commands, and leave exactly the average, that the pure function `Step`
  gives. The power manager is not modelled. A step emits the ordered list of
  calls it would make: `Dec` for decPower, `Inc` for incPower and
  `SetToConfig` for setPower to the configured level.

### Inputs instead of globals and collaborators

- The CRSF scaling helpers `BIT_to_CRSF`, `SWITCH3b_to_CRSF`, `N_to_CRSF` and
  `CRSF_to_BIT` are the fields of a `Scaling` value. The codec properties
  hold for every choice of them. The exception is the fixed-layout switch
  lemmas, which assume that `CRSF_to_BIT` yields 0 or 1.
- `getNextSwitchIndex()` is the parameter `nextSwitchIndex`.
- `TelemetryStatus` (built with `ENABLE_TELEMETRY`) is a parameter. The build
  without telemetry is the case `false`.
- A tick of the controller reads these inputs:
  - the time `now` and `LastTLMpacketRecvMillis`;
  - `IsArmed()` and `connectionState == disconnected`;
  - the raw `LinkStatistics` fields;
  - the level `POWERMGNT::currPower()` reports at line 82, after any overload
    decrease;
  - the air rate's `DynpowerUpThresholdSnr`;
  - `CRSF_to_BIT` of the boost channel.
- `DYNPOWER_THRESH_DN` is the parameter `threshDn`. Its build default (5 on
  SX127x radios, 10 otherwise; `src/src/dynpower.cpp:6-12`) is not fixed in
  the model, so the properties hold for every threshold.

## Model

| member | source | states |
|---|---|---|
| `Msp.MspPacket.constructor` | src/lib/MSP/msp.h:40-58 | a new packet has a zeroed 8-byte payload array and is in the state reset leaves |
| `Msp.MspPacket.Reset` | src/lib/MSP/msp.h:50-58 | type, flags, function, size, cursor and error are cleared; the payload bytes are untouched; the cursor invariant holds afterwards |
| `Msp.MspPacket.AddByte` | src/lib/MSP/msp.h:60-63 | the byte is written at index payloadSize and the size grows by one; nothing else changes; the filled part is the old one plus the byte, and the invariant cursor ≤ size ≤ 8 is preserved |
| `Msp.MspPacket.MakeResponse` | src/lib/MSP/msp.h:65-68 | only the type changes, to Response |
| `Msp.MspPacket.MakeCommand` | src/lib/MSP/msp.h:70-73 | only the type changes, to Command |
| `Msp.MspPacket.ReadByte` | src/lib/MSP/msp.h:75-84 | inside the filled part: returns the byte under the cursor and advances it. Past it: returns 0, sets the error flag and leaves the cursor. Header fields are unchanged and the cursor invariant is preserved |
| `Ota.TypeByte` | src/lib/OTA/OTA.cpp:34 | byte 0 holds the packet type's two low bits, and its upper six bits are zero |
| `Ota.HighByte` | src/lib/OTA/OTA.cpp:35-38 | for an 11-bit channel, bytes 1..4 carry bits 10..3 whole: moved back up, they restore them |
| `Ota.LowPairsByte` | src/lib/OTA/OTA.cpp:39-42 | each bit pair of byte 5, moved back into place, restores bits 2..1 of its channel |
| `Ota.BitclearedIndex` | src/lib/OTA/OTA.cpp:46-48 | index 1 is sent as 0 and every other index unchanged; the index as sent selects the same decoder slot as the real one |
| `Ota.WriteRcHeader` | src/lib/OTA/OTA.cpp:34-42 | bytes 0..5 become the RC header of channels 0..3; the rest of the buffer is untouched |
| `Ota.GenerateChannelDataHybridSwitch8` | src/lib/OTA/OTA.cpp:33-66 | the 7 bytes are the hybrid frame of the channels, switches, index and telemetry flag; the buffer tail is untouched; exactly one setSentSwitch(index, currentSwitches[index]) call is appended |
| `Ota.UnpackAnalog` | src/lib/OTA/OTA.cpp:83-86 | each rebuilt analog channel is below 2048 and even |
| `Ota.SwitchIndexField` | src/lib/OTA/OTA.cpp:92 | the switch index read from byte 6 is below 8 |
| `Ota.HybridSlot` | src/lib/OTA/OTA.cpp:95-118 | the index selects one of channels 5..11; indices 0 and 1, and only they, select channel 5 |
| `Ota.HybridUnpacked` | src/lib/OTA/OTA.cpp:80-119 | channels 0..3 are the analog decode; channel 4 is BIT_to_CRSF of bit 6; the indexed channel gets N_to_CRSF(low 4 bits, 15) for index 0/1 or SWITCH3b_to_CRSF(low 3 bits) otherwise; every other channel from 5 on keeps its old value |
| `Ota.UnpackChannelDataHybridSwitch8` | src/lib/OTA/OTA.cpp:80-119 | PackedRCdataOut becomes HybridUnpacked of its old value and the frame |
| `Ota.GenerateChannelData10bit` | src/lib/OTA/OTA.cpp:128-147 | the 7 bytes are the fixed-layout frame; the buffer tail is untouched |
| `Ota.FixedMask` | src/lib/OTA/OTA.cpp:158-165 | the mask for channel 4 + k is 0x80 >> k |
| `Ota.FixedUnpacked` | src/lib/OTA/OTA.cpp:152-166 | channels 0..3 are the analog decode; channels 12..15 keep their old values |
| `Ota.UnpackChannelData10bit` | src/lib/OTA/OTA.cpp:152-166 | PackedRCdataOut becomes FixedUnpacked of its old value and the frame |
| `Ota.LowByte` | src/lib/OTA/OTA.cpp:175-176 | storing a uint16_t field in a byte keeps it modulo 256 |
| `Ota.MspFrame` | src/lib/OTA/OTA.cpp:172-193 | byte 0 is type 1 and bytes 1, 2 are the function and size modulo 256. A payload of at most four bytes fills bytes 3.. in order, then zeros; a longer one leaves bytes 3..6 zero |
| `Ota.WriteMspHeader` | src/lib/OTA/OTA.cpp:174-180 | bytes 0..6 become type 1, the function's low byte, the size's low byte and four zeros |
| `Ota.ReadPayloadBytes` | src/lib/OTA/OTA.cpp:184-187 | the ReadByte loop puts payload byte k at frame byte 3 + k and writes nothing else. It leaves the cursor at the size, and the error flag unchanged |
| `Ota.ReadPayloadInto` | src/lib/OTA/OTA.cpp:181-188 | over a fresh header with the cursor rewound, the frame becomes exactly MspFrame |
| `Ota.GenerateMSPData` | src/lib/OTA/OTA.cpp:172-193 | the 7 bytes are MspFrame of the packet. A payload of at most four bytes is read (cursor ends at the size); a longer one leaves bytes 3..6 zero and the cursor and error flag untouched |
| `Ota.UnpackMSPData` | src/lib/OTA/OTA.cpp:195-205 | the packet becomes a command with flags 0, the function from byte 1, exactly the four bytes 3..6 as payload, cursor 0 and no error; payload bytes 4..7 are untouched |
| `OtaLemmas.FrameTypes` | src/lib/OTA/OTA.cpp:130-138 | RC frames carry type 0 and MSP frames type 1; the hybrid and fixed encoders write the same bytes 0..5 |
| `OtaLemmas.AnalogRoundTrip` | src/lib/OTA/OTA.cpp:154-157 | for 11-bit inputs, decoding the encoded channels 0..3 gives each value with bit 0 cleared |
| `OtaLemmas.HybridAnalogRoundTrip` | src/lib/OTA/OTA.cpp:35-42 | through the hybrid encoder and decoder, 11-bit channels 0..3 arrive with bit 0 cleared |
| `OtaLemmas.FixedAnalogRoundTrip` | src/lib/OTA/OTA.cpp:152-157 | through the fixed-layout encoder and decoder, 11-bit channels 0..3 arrive with bit 0 cleared |
| `OtaLemmas.AnalogExactIffEven` | src/lib/OTA/OTA.cpp:135-138 | the analog trip gives back the value exactly when the value is even |
| `OtaLemmas.HybridRoundTrip` | src/lib/OTA/OTA.cpp:46-62 | with switch 0 one bit wide and the value in range (4 bits for index 1, else 3), channel 4 decodes to BIT_to_CRSF(switch 0). Index 2..7 puts SWITCH3b_to_CRSF(value) in channel 4 + index; index 0/1 puts N_to_CRSF(value, 15) in channel 5; all other channels from 5 on are untouched |
| `OtaLemmas.HybridByteFields` | src/lib/OTA/OTA.cpp:53-62 | for in-range inputs bit 7 is the telemetry flag and the switch-0 bit reads back; for index 2..7 the index field and the 3 value bits read back; for index 0/1 the field reads 0 or 1 (bit 3 of the value) and the 4 value bits read back |
| `OtaLemmas.HybridIgnoresTelemetryBit` | src/lib/OTA/OTA.cpp:89-98 | flipping the telemetry bit 7 of byte 6 does not change what the receiver decodes |
| `OtaLemmas.FixedUnpackedSwitches` | src/lib/OTA/OTA.cpp:158-165 | channel 4 + k becomes BIT_to_CRSF of byte 6 masked with 0x80 >> k |
| `OtaLemmas.FixedSwitchBits` | src/lib/OTA/OTA.cpp:139-146 | when CRSF_to_BIT yields one bit, bit 7 − k of byte 6 is set exactly when channel 4 + k is on |
| `OtaLemmas.FixedRoundTrip` | src/lib/OTA/OTA.cpp:158-165 | a one-bit switch channel decodes to BIT_to_CRSF(0x80 >> k) when on and BIT_to_CRSF(0) when off: the mask is not shifted down |
| `OtaLemmas.MspRoundTrip` | src/lib/OTA/OTA.cpp:181-188 | bytes 3..6 of the frame are the payload followed by zeros up to four bytes |
| `OtaLemmas.MspOverTheAir` | src/lib/OTA/OTA.cpp:172-205 | an MSP message of at most four bytes, sent and then unpacked into another packet, arrives as a command with the function's low byte and the payload padded with zeros to four bytes |
| `DynPower.Rssi` | src/src/dynpower.cpp:47 | the RSSI of antenna 1 when it is active, else of antenna 2, as an int8_t (equal to the raw value when that fits) |
| `DynPower.Headroom` | src/src/dynpower.cpp:82 | the headroom is config power minus current power; a current level above config wraps round to a large uint8_t headroom |
| `DynPower.Elapsed` | src/src/dynpower.cpp:90 | the time since the last telemetry is the difference, plus 2^32 when the millisecond clock has wrapped |
| `DynPower.LqDiff` | src/src/dynpower.cpp:105-107 | the LQ drop is an int32_t, and equals (avg >> 16) − lq whenever that difference fits |
| `DynPower.LqEmergency` | src/src/dynpower.cpp:109 | an LQ of at most 50 is an emergency. Otherwise, whenever the drop fits an int32_t, it is one exactly when (avg >> 16) − lq ≥ 20 |
| `DynPower.AvgLqNext` | src/src/dynpower.cpp:114 | the new average is below 2^29. For an average ≤ 255 << 16 and an LQ ≤ 255 there is no uint32_t overflow, and it is ⌊(7·avg + lq·2^16)/8⌋ |
| `DynPower.Step` | src/src/dynpower.cpp:39-135 | the average changes only on fresh statistics with dynamic power on and no boost; without fresh statistics a step issues at most one command and never a decrease |
| `DynPower.SnrIncs` | src/src/dynpower.cpp:127-134 | the SNR loop issues only increases, at most as many as the headroom, and at least one exactly when the SNR starts at or below the threshold with headroom left |
| `DynPower.SnrLoop` | src/src/dynpower.cpp:127-134 | the imperative loop issues exactly SnrIncs |
| `DynPower.DynamicPower.constructor` | src/src/dynpower.cpp:28-32 | a new controller is in the state Init leaves |
| `DynPower.DynamicPower.Init` | src/src/dynpower.cpp:28-32 | the average becomes 100 << 16 and no update is pending |
| `DynPower.DynamicPower.TelemetryUpdate` | src/src/dynpower.cpp:34-37 | the flag becomes the argument; the average is untouched |
| `DynPower.DynamicPower.Update` | src/src/dynpower.cpp:39-135 | the commands issued and the new average are exactly those of Step; on every path the flag is left at NoUpdate |
| `DynPower.DynamicPower.ApplyTelemetry` | src/src/dynpower.cpp:84-134 | the missed-telemetry rule and the link-statistics rules issue the commands of TelemetryStep, the part of Step after the boost rule, and leave its average |
| `DynPower.DynamicPower.ApplyLinkStats` | src/src/dynpower.cpp:105-134 | the emergency, average and SNR part of a step issues the commands of LinkStatsStep and leaves its average |
| `DynPowerLemmas.CountOfIncs` | src/src/dynpower.cpp:127-134 | a run of SNR increases holds no decrease and no restore |
| `DynPowerLemmas.SnrIncsClosedForm` | src/src/dynpower.cpp:127-134 | with a threshold of at most 125, the loop issues min(headroom, ⌊(threshold − snr)/2⌋ + 1) increases when snr ≤ threshold, otherwise none |
| `DynPowerLemmas.SnrIncsSaturated` | src/src/dynpower.cpp:132 | with a threshold of 127 the int8_t SNR wraps round and the loop always spends the whole headroom |
| `DynPowerLemmas.SnrIncsAt126` | src/src/dynpower.cpp:127-134 | with a threshold of 126 an even SNR wraps round from 128 to −128 and the loop spends the whole headroom; an odd SNR follows the closed form |
| `DynPowerLemmas.AvgLqNextExact` | src/src/dynpower.cpp:114 | for an average ≤ 255 << 16 and an LQ ≤ 255 the update lies between the old average and the new sample |
| `DynPowerLemmas.AvgLqNextApproach` | src/src/dynpower.cpp:114 | one update moves the average towards lq << 16: from above without overshoot and strictly until it is reached, from below without reaching it and rising only while at least 8 below |
| `DynPowerLemmas.AvgLqNextStallsBelow` | src/src/dynpower.cpp:114 | under a constant sample v, an average 1..7 below v << 16 never changes, so the shifted average stays at v − 1 |
| `DynPowerLemmas.AvgLqNextBounded` | src/src/dynpower.cpp:114 | an average at most m << 16 stays so after a sample of at most m |
| `DynPowerLemmas.RawLqGateAcceptsAnyLink` | src/src/dynpower.cpp:120-121 | the SNR decrease rule compares the fixed-point average with 95 unshifted, so its LQ condition holds for every non-zero LQ sample |
| `DynPowerLemmas.RawLqGateExample` | src/src/dynpower.cpp:121 | after Init and one sample of LQ 50 the shifted average is 93, yet the raw comparison with 95 passes |
| `DynPowerLemmas.LinkStatsCommands` | src/src/dynpower.cpp:105-134 | from the emergency rule on, the restore is issued exactly on an emergency and a decrease exactly when snr ≥ the down threshold and the raw new average ≥ 95; at most headroom + 2 commands; the average takes the sample |
| `DynPowerLemmas.OverloadComesFirst` | src/src/dynpower.cpp:50-54 | fresh statistics with RSSI ≥ −5 make a decrease the first command, whether or not dynamic power is on |
| `DynPowerLemmas.DisabledMode` | src/src/dynpower.cpp:56-65 | with dynamic power off the average is untouched and at most one command is issued: the overload decrease, or the restore of the configured power on fresh statistics with RSSI ≤ −20, and nothing else |
| `DynPowerLemmas.BoostEndsStep` | src/src/dynpower.cpp:71-78 | disconnected while armed, or a configured boost channel reading 0, issues the restore after any overload decrease and nothing else; the average is untouched |
| `DynPowerLemmas.MissedTelemetry` | src/src/dynpower.cpp:82-97 | a missed report issues one increase exactly when armed, more than 534 ms have passed (uint32_t difference) and headroom is left, else nothing; the average is untouched |
| `DynPowerLemmas.NoTelemetry` | src/src/dynpower.cpp:99-100 | without a report only the boost rule can act, and the average is untouched |
| `DynPowerLemmas.FreshStatsOrder` | src/src/dynpower.cpp:105-134 | on fresh statistics the commands are, in order: the overload decrease, the emergency restore, the SNR decrease, then the SNR increases. The emergency does not end the step, and the average takes the sample |
| `DynPowerLemmas.FreshStatsDecreases` | src/src/dynpower.cpp:119-125 | on fresh statistics the number of decreases is one for the overload, plus one exactly when snr ≥ DYNPOWER_THRESH_DN and the raw new average ≥ 95 |
| `DynPowerLemmas.IncreasesWithinHeadroom` | src/src/dynpower.cpp:82-134 | on every path a step issues at most as many increases as the uint8_t headroom |
| `DynPowerLemmas.StepKeepsAvgBounded` | src/src/dynpower.cpp:113-114 | an average at most m << 16 (m ≤ 255) stays so through any step whose LQ sample is at most m |

## Left out

- The `MSP` class (`processReceivedByte`, `getReceivedPacket`,
  `markPacketReceived`, `sendPacket`). Only its declarations are in
  `src/lib/MSP/msp.h`, and `sendPacket` writes to a stream.
- The bodies of `getNextSwitchIndex` and `setSentSwitch` are not part of this
  model. The index is an input and the calls are logged.
- The bodies of the CRSF scaling helpers are not part of this model. The
  properties hold for every choice of them. The fixed-layout lemmas assume
  `CRSF_to_BIT` yields 0 or 1.
- `POWERMGNT` (`incPower`, `decPower`, `setPower`, `currPower`) is not part
  of this model, nor is any clamping it does. A step emits commands, and
  `currPower` is an input.
- `config`, `LinkStatistics`, `IsArmed`, `connectionState`,
  `LastTLMpacketRecvMillis`, the air-rate parameters and the channel that
  `AUX9 + boostChannel - 1` names are inputs. `AUX9` is not part of this
  model.
- The `LinkStatistics` field types are not part of this model. The raw
  values are converted as the controller's locals are declared: `int8_t` for
  the RSSIs and the SNR, `uint32_t` for the LQ.
- Logging (`Serial.println`, `DBGLN`, `DBGVLN`), `volatile` and
  `ICACHE_RAM_ATTR`. Nothing runs concurrently in the model.
- The 11-bit width of the `PackedRCdataOut` bit fields is not modelled; the
  channels are 16-bit. Every decoded analog value (channels 0..3) is below
  2048 (`UnpackAnalog`), so it fits. Channels 4..11 hold the results of
  `BIT_to_CRSF`, `SWITCH3b_to_CRSF` and `N_to_CRSF`, which the model does not
  cut to 11 bits: it does not model the truncation a store of a wider value
  into the bit field would do.
- The analog round trip assumes channel values below 2048, the CRSF 11-bit
  range.
- `GenerateChannelData10bit` builds byte 6 in a local and stores it once.
  The source ORs into the buffer eight times; the final byte is the same.
- `Ota.FixedUnpacked`: its own contract covers only channels 0..3 and 12..15.
  Channels 4..11 are stated by the lemma `FixedUnpackedSwitches`.
- `GenerateMSPData`'s `ReadByte` loop is split into the methods
  `ReadPayloadInto` and `ReadPayloadBytes`. The source inlines it.
  `DynamicPower_Update` is likewise split into `Update`, `ApplyTelemetry`,
  `ApplyLinkStats` and `SnrLoop`.
- `AvgLqNext`: modelled as written, with truncating division. It therefore does not
  converge to a constant sample from below. `AvgLqNextApproach` shows that it
  reaches the sample from above. `AvgLqNextStallsBelow` shows that from below
  it stops 1 to 7 units short, so the shifted average then stays one below
  the sample.
- The SNR decrease rule is modelled as written: it compares the 16.16
  fixed-point average with 95 without shifting it. `RawLqGateAcceptsAnyLink`
  shows what that means.
