/**
  The over-the-air frame codec: packing of RC channel data and of a compact MSP
  message into the 7-byte radio frame, and the matching unpacking.

  Analog channels 0..3 keep 10 of their 11 bits: bits 10..3 fill bytes 1..4,
  bits 2..1 of all four are gathered in byte 5, bit 0 is dropped. Byte 6 holds
  the switches, in the hybrid layout (telemetry flag, switch 0, a round-robin
  switch index and its value) or in the fixed layout (eight one-bit channels);
  the layout is chosen at build time, so each has its own encoder and decoder.
*/
module Ota {
  import opened Ints
  import opened Msp

  /** Frame type discriminants carried in bits 1..0 of byte 0. */
  const RC_DATA_PACKET: bv8 := 0
  const MSP_DATA_PACKET: bv8 := 1

  /** Number of bytes the codec reads and writes. */
  const FRAME_LEN: int := 7

  /** Channels in ChannelDataIn and in PackedRCdataOut; switches in currentSwitches. */
  const NUM_CHANNELS: int := 16
  const NUM_SWITCHES: bv8 := 8

  /**
    The CRSF scaling helpers BIT_to_CRSF, SWITCH3b_to_CRSF, N_to_CRSF and
    CRSF_to_BIT, whose definitions are outside this model; the codec is
    stated for every choice of them.
  */
  datatype Scaling = Scaling(
    bitToCrsf: bv8 -> bv16,
    switch3bToCrsf: bv8 -> bv16,
    nToCrsf: (bv8, int) -> bv16,
    crsfToBit: bv16 -> bv8)

  /** One call of setSentSwitch(index, value). */
  datatype SentSwitch = SentSwitch(index: bv8, value: bv8)

  /** The part of the CRSF object the codec reads and writes. */
  class Crsf {
    var channelDataIn: seq<bv16>
    var currentSwitches: seq<bv8>
    var packedRcDataOut: seq<bv16>
    /** The setSentSwitch calls made so far, oldest first. */
    var setSentSwitchCalls: seq<SentSwitch>

    ghost predicate Valid()
      reads this
    {
      |channelDataIn| == NUM_CHANNELS && |currentSwitches| == NUM_SWITCHES as int &&
      |packedRcDataOut| == NUM_CHANNELS
    }
  }

  // ---------------------------------------------------------------------------
  // Byte formulas

  /** Byte 0: the packet type masked to its two bits. */
  function TypeByte(packetType: bv8): (b: bv8)
    ensures b & 0xFC == 0
    ensures b & 3 == packetType & 3
  {
    packetType & 3
  }

  /** Bytes 1..4: bits 10..3 of an analog channel, truncated to a byte. */
  function HighByte(c: bv16): (b: bv8)
    ensures c < 2048 ==> (b as bv16) << 3 == c & 0x7F8
  {
    ((c >> 3) & 0xFF) as bv8
  }

  /** Byte 5: bits 2..1 of channels 0..3, channel 0 in the top pair. */
  function LowPairsByte(c0: bv16, c1: bv16, c2: bv16, c3: bv16): (b: bv8)
    ensures ((b & 0xC0) >> 5) as bv16 == c0 & 6
    ensures ((b & 0x30) >> 3) as bv16 == c1 & 6
    ensures ((b & 0x0C) >> 1) as bv16 == c2 & 6
    ensures ((b & 0x03) << 1) as bv16 == c3 & 6
  {
    (((c0 & 6) << 5) | ((c1 & 6) << 3) | ((c2 & 6) << 1) | ((c3 & 6) >> 1)) as bv8
  }

  /** The round-robin index as sent: index 1 goes out as 0, its bit lives in the value. */
  function BitclearedIndex(index: bv8): (i: bv8)
    ensures index != 1 ==> i == index
    ensures index == 1 ==> i == 0
    ensures index < 8 ==> i < 8 && HybridSlot(i) == HybridSlot(index)
  {
    if index == 1 then 0 else index
  }

  /** Byte 6 of the hybrid layout. */
  function HybridSwitchByte(telemetry: bool, switch0: bv8, index: bv8, value: bv8): bv8
  {
    ((if telemetry then 1 else 0) << 7) | (switch0 << 6) | (BitclearedIndex(index) << 3) | value
  }

  /** Byte 6 of the fixed layout: CRSF_to_BIT of channels 4..11, channel 4 in bit 7. */
  function FixedSwitchByte(ch: seq<bv16>, s: Scaling): bv8
    requires |ch| >= 12
  {
    (s.crsfToBit(ch[4]) << 7) | (s.crsfToBit(ch[5]) << 6) | (s.crsfToBit(ch[6]) << 5) |
    (s.crsfToBit(ch[7]) << 4) | (s.crsfToBit(ch[8]) << 3) | (s.crsfToBit(ch[9]) << 2) |
    (s.crsfToBit(ch[10]) << 1) | (s.crsfToBit(ch[11]) << 0)
  }

  /** Bytes 0..5 of an RC frame, identical in both layouts. */
  function RcHeader(ch: seq<bv16>): (h: seq<bv8>)
    requires |ch| >= 4
    ensures |h| == 6
    ensures h[0] == RC_DATA_PACKET
  {
    [TypeByte(RC_DATA_PACKET),
     HighByte(ch[0]), HighByte(ch[1]), HighByte(ch[2]), HighByte(ch[3]),
     LowPairsByte(ch[0], ch[1], ch[2], ch[3])]
  }

  /** The frame GenerateChannelDataHybridSwitch8 writes. */
  function HybridFrame(ch: seq<bv16>, switches: seq<bv8>, index: bv8, telemetry: bool): (f: seq<bv8>)
    requires |ch| >= 4 && (index as int) < |switches|
    ensures |f| == FRAME_LEN
  {
    RcHeader(ch) + [HybridSwitchByte(telemetry, switches[0], index, switches[index])]
  }

  /** The frame GenerateChannelData10bit writes. */
  function FixedFrame(ch: seq<bv16>, s: Scaling): (f: seq<bv8>)
    requires |ch| >= 12
    ensures |f| == FRAME_LEN
  {
    RcHeader(ch) + [FixedSwitchByte(ch, s)]
  }

  // ---------------------------------------------------------------------------
  // Unpacking

  /** Channels 0..3 as the receiver rebuilds them from bytes 1..5. */
  function UnpackAnalog(f: seq<bv8>): (r: seq<bv16>)
    requires |f| >= 6
    ensures |r| == 4
    ensures forall i :: 0 <= i < 4 ==> r[i] < 2048 && r[i] & 1 == 0
  {
    [((f[1] as bv16) << 3) | (((f[5] & 0xC0) >> 5) as bv16),
     ((f[2] as bv16) << 3) | (((f[5] & 0x30) >> 3) as bv16),
     ((f[3] as bv16) << 3) | (((f[5] & 0x0C) >> 1) as bv16),
     ((f[4] as bv16) << 3) | (((f[5] & 0x03) << 1) as bv16)]
  }

  /** The round-robin switch index in bits 5..3 of byte 6. */
  function SwitchIndexField(b6: bv8): (i: bv8)
    ensures i < 8
  {
    (b6 & 0x38) >> 3
  }

  /** The output channel the hybrid decoder writes for a switch index. */
  function HybridSlot(index: bv8): (k: int)
    requires index < 8
    ensures 5 <= k <= 11
    ensures k == 5 <==> index <= 1
  {
    if index <= 1 then 5
    else if index == 2 then 6
    else if index == 3 then 7
    else if index == 4 then 8
    else if index == 5 then 9
    else if index == 6 then 10
    else 11
  }

  /** PackedRCdataOut after UnpackChannelDataHybridSwitch8, from its value before. */
  function HybridUnpacked(prev: seq<bv16>, f: seq<bv8>, s: Scaling): (r: seq<bv16>)
    requires |prev| == NUM_CHANNELS && |f| >= FRAME_LEN
    ensures |r| == NUM_CHANNELS
    ensures r[..4] == UnpackAnalog(f)
    ensures r[4] == s.bitToCrsf((f[6] & 0x40) >> 6)
    ensures r[HybridSlot(SwitchIndexField(f[6]))] ==
      if SwitchIndexField(f[6]) <= 1 then s.nToCrsf(f[6] & 0x0F, 15) else s.switch3bToCrsf(f[6] & 7)
    ensures forall j :: 5 <= j < NUM_CHANNELS && j != HybridSlot(SwitchIndexField(f[6])) ==> r[j] == prev[j]
  {
    var a := UnpackAnalog(f);
    var index := SwitchIndexField(f[6]);
    var value := if index <= 1 then s.nToCrsf(f[6] & 0x0F, 15) else s.switch3bToCrsf(f[6] & 7);
    prev[0 := a[0]][1 := a[1]][2 := a[2]][3 := a[3]][4 := s.bitToCrsf((f[6] & 0x40) >> 6)]
        [HybridSlot(index) := value]
  }

  /** The byte-6 mask the fixed decoder applies for channel 4 + k. */
  function FixedMask(k: int): (m: bv8)
    requires 0 <= k < 8
    ensures m == 0x80 >> k
  {
    if k == 0 then 0x80 else if k == 1 then 0x40 else if k == 2 then 0x20
    else if k == 3 then 0x10 else if k == 4 then 0x08 else if k == 5 then 0x04
    else if k == 6 then 0x02 else 0x01
  }

  /** PackedRCdataOut after UnpackChannelData10bit, from its value before. */
  function FixedUnpacked(prev: seq<bv16>, f: seq<bv8>, s: Scaling): (r: seq<bv16>)
    requires |prev| == NUM_CHANNELS && |f| >= FRAME_LEN
    ensures |r| == NUM_CHANNELS
    ensures r[..4] == UnpackAnalog(f)
    ensures r[12..] == prev[12..]
  {
    var a := UnpackAnalog(f);
    prev[0 := a[0]][1 := a[1]][2 := a[2]][3 := a[3]]
        [4 := s.bitToCrsf(f[6] & 0x80)][5 := s.bitToCrsf(f[6] & 0x40)]
        [6 := s.bitToCrsf(f[6] & 0x20)][7 := s.bitToCrsf(f[6] & 0x10)]
        [8 := s.bitToCrsf(f[6] & 0x08)][9 := s.bitToCrsf(f[6] & 0x04)]
        [10 := s.bitToCrsf(f[6] & 0x02)][11 := s.bitToCrsf(f[6] & 0x01)]
  }

  // ---------------------------------------------------------------------------
  // MSP frames

  /** The low byte of a 16-bit field, as an assignment to a uint8_t keeps it. */
  function LowByte(x: uint16): (b: bv8)
    ensures b as int == x as int % 0x100
  {
    ByteOfInt(x as int % 0x100);
    (x as int % 0x100) as bv8
  }

  /** Byte 3 + k of an MSP frame: payload byte k when it is sent, else 0. */
  function MspPayloadByte(size: uint16, payload: seq<bv8>, k: int): bv8
    requires |payload| == MSP_PORT_INBUF_SIZE as int && 0 <= k < 4
  {
    if size <= 4 && k < size as int then payload[k] else 0
  }

  /** The frame GenerateMSPData writes. */
  function MspFrame(func: uint16, size: uint16, payload: seq<bv8>): (f: seq<bv8>)
    requires |payload| == MSP_PORT_INBUF_SIZE as int
    ensures |f| == FRAME_LEN
    ensures f[0] == MSP_DATA_PACKET
    ensures f[1] as int == func as int % 0x100 && f[2] as int == size as int % 0x100
    ensures size > 4 ==> f[3..] == [0, 0, 0, 0]
    ensures size <= 4 ==> forall k :: 0 <= k < 4 ==> f[3 + k] == if k < size as int then payload[k] else 0
  {
    [TypeByte(MSP_DATA_PACKET), LowByte(func), LowByte(size),
     MspPayloadByte(size, payload, 0), MspPayloadByte(size, payload, 1),
     MspPayloadByte(size, payload, 2), MspPayloadByte(size, payload, 3)]
  }

  // ---------------------------------------------------------------------------
  // The codec operations

  /** Writes bytes 0..5 of an RC frame, the part both layouts share. */
  method WriteRcHeader(buf: array<bv8>, ch: seq<bv16>)
    requires buf.Length >= FRAME_LEN && |ch| >= 4
    modifies buf
    ensures buf[..6] == RcHeader(ch)
    ensures buf[6..] == old(buf[6..])
  {
    buf[0] := TypeByte(RC_DATA_PACKET);
    buf[1] := HighByte(ch[0]);
    buf[2] := HighByte(ch[1]);
    buf[3] := HighByte(ch[2]);
    buf[4] := HighByte(ch[3]);
    buf[5] := LowPairsByte(ch[0], ch[1], ch[2], ch[3]);
  }

  /** Writes a hybrid-layout RC frame and reports the switch sent through setSentSwitch. */
  method GenerateChannelDataHybridSwitch8(buf: array<bv8>, crsf: Crsf, nextSwitchIndex: bv8, telemetryStatus: bool)
    requires buf.Length >= FRAME_LEN && crsf.Valid() && nextSwitchIndex < NUM_SWITCHES
    modifies buf, crsf`setSentSwitchCalls
    ensures buf[..FRAME_LEN] == HybridFrame(crsf.channelDataIn, crsf.currentSwitches, nextSwitchIndex, telemetryStatus)
    ensures buf[FRAME_LEN..] == old(buf[FRAME_LEN..])
    ensures crsf.setSentSwitchCalls ==
      old(crsf.setSentSwitchCalls) + [SentSwitch(nextSwitchIndex, crsf.currentSwitches[nextSwitchIndex])]
  {
    WriteRcHeader(buf, crsf.channelDataIn);
    ghost var header, tail := buf[..6], buf[FRAME_LEN..];
    var bitclearedSwitchIndex := BitclearedIndex(nextSwitchIndex);
    var value := crsf.currentSwitches[nextSwitchIndex];
    buf[6] := ((if telemetryStatus then 1 else 0) << 7) | (crsf.currentSwitches[0] << 6) |
              (bitclearedSwitchIndex << 3) | value;
    assert buf[..FRAME_LEN] == header + [buf[6]];
    assert buf[FRAME_LEN..] == tail;
    crsf.setSentSwitchCalls := crsf.setSentSwitchCalls + [SentSwitch(nextSwitchIndex, value)];
  }

  /** Rebuilds channels 0..4 and the one round-robin channel byte 6 names. */
  method UnpackChannelDataHybridSwitch8(buf: array<bv8>, crsf: Crsf, s: Scaling)
    requires buf.Length >= FRAME_LEN && crsf.Valid()
    modifies crsf`packedRcDataOut
    ensures crsf.packedRcDataOut == HybridUnpacked(old(crsf.packedRcDataOut), buf[..FRAME_LEN], s)
  {
    var a := UnpackAnalog(buf[..FRAME_LEN]);
    crsf.packedRcDataOut := crsf.packedRcDataOut[0 := a[0]][1 := a[1]][2 := a[2]][3 := a[3]];
    crsf.packedRcDataOut := crsf.packedRcDataOut[4 := s.bitToCrsf((buf[6] & 0x40) >> 6)];
    var switchIndex := (buf[6] & 0x38) >> 3;
    var switchValue := s.switch3bToCrsf(buf[6] & 7);
    if switchIndex <= 1 {
      crsf.packedRcDataOut := crsf.packedRcDataOut[5 := s.nToCrsf(buf[6] & 0x0F, 15)];
    } else if switchIndex == 2 {
      crsf.packedRcDataOut := crsf.packedRcDataOut[6 := switchValue];
    } else if switchIndex == 3 {
      crsf.packedRcDataOut := crsf.packedRcDataOut[7 := switchValue];
    } else if switchIndex == 4 {
      crsf.packedRcDataOut := crsf.packedRcDataOut[8 := switchValue];
    } else if switchIndex == 5 {
      crsf.packedRcDataOut := crsf.packedRcDataOut[9 := switchValue];
    } else if switchIndex == 6 {
      crsf.packedRcDataOut := crsf.packedRcDataOut[10 := switchValue];
    } else {
      crsf.packedRcDataOut := crsf.packedRcDataOut[11 := switchValue];
    }
  }

  /** Writes a fixed-layout RC frame. */
  method GenerateChannelData10bit(buf: array<bv8>, crsf: Crsf, s: Scaling)
    requires buf.Length >= FRAME_LEN && crsf.Valid()
    modifies buf
    ensures buf[..FRAME_LEN] == FixedFrame(crsf.channelDataIn, s)
    ensures buf[FRAME_LEN..] == old(buf[FRAME_LEN..])
  {
    var ch := crsf.channelDataIn;
    WriteRcHeader(buf, ch);
    ghost var header, tail := buf[..6], buf[FRAME_LEN..];
    var b6 := s.crsfToBit(ch[4]) << 7;
    b6 := b6 | (s.crsfToBit(ch[5]) << 6);
    b6 := b6 | (s.crsfToBit(ch[6]) << 5);
    b6 := b6 | (s.crsfToBit(ch[7]) << 4);
    b6 := b6 | (s.crsfToBit(ch[8]) << 3);
    b6 := b6 | (s.crsfToBit(ch[9]) << 2);
    b6 := b6 | (s.crsfToBit(ch[10]) << 1);
    b6 := b6 | (s.crsfToBit(ch[11]) << 0);
    buf[6] := b6;
    assert buf[..FRAME_LEN] == header + [buf[6]];
    assert buf[FRAME_LEN..] == tail;
  }

  /** Rebuilds channels 0..3 and the eight one-bit channels 4..11. */
  method UnpackChannelData10bit(buf: array<bv8>, crsf: Crsf, s: Scaling)
    requires buf.Length >= FRAME_LEN && crsf.Valid()
    modifies crsf`packedRcDataOut
    ensures crsf.packedRcDataOut == FixedUnpacked(old(crsf.packedRcDataOut), buf[..FRAME_LEN], s)
  {
    var a := UnpackAnalog(buf[..FRAME_LEN]);
    crsf.packedRcDataOut := crsf.packedRcDataOut[0 := a[0]][1 := a[1]][2 := a[2]][3 := a[3]];
    crsf.packedRcDataOut := crsf.packedRcDataOut[4 := s.bitToCrsf(buf[6] & 0x80)];
    crsf.packedRcDataOut := crsf.packedRcDataOut[5 := s.bitToCrsf(buf[6] & 0x40)];
    crsf.packedRcDataOut := crsf.packedRcDataOut[6 := s.bitToCrsf(buf[6] & 0x20)];
    crsf.packedRcDataOut := crsf.packedRcDataOut[7 := s.bitToCrsf(buf[6] & 0x10)];
    crsf.packedRcDataOut := crsf.packedRcDataOut[8 := s.bitToCrsf(buf[6] & 0x08)];
    crsf.packedRcDataOut := crsf.packedRcDataOut[9 := s.bitToCrsf(buf[6] & 0x04)];
    crsf.packedRcDataOut := crsf.packedRcDataOut[10 := s.bitToCrsf(buf[6] & 0x02)];
    crsf.packedRcDataOut := crsf.packedRcDataOut[11 := s.bitToCrsf(buf[6] & 0x01)];
  }

  /** Writes bytes 0..2 of an MSP frame and zeroes the payload bytes 3..6. */
  method WriteMspHeader(buf: array<bv8>, func: uint16, size: uint16)
    requires buf.Length >= FRAME_LEN
    modifies buf
    ensures buf[..FRAME_LEN] == [TypeByte(MSP_DATA_PACKET), LowByte(func), LowByte(size), 0, 0, 0, 0]
    ensures buf[FRAME_LEN..] == old(buf[FRAME_LEN..])
  {
    buf[0] := TypeByte(MSP_DATA_PACKET);
    buf[1] := LowByte(func);
    buf[2] := LowByte(size);
    buf[3] := 0;
    buf[4] := 0;
    buf[5] := 0;
    buf[6] := 0;
  }

  /**
    The loop of GenerateMSPData: over a freshly written header and with the
    cursor rewound, reads the payloadSize (at most four) payload bytes through
    ReadByte into bytes 3.. of the frame.
  */
  method ReadPayloadInto(buf: array<bv8>, msp: MspPacket)
    requires buf.Length >= FRAME_LEN && msp.Valid() && buf != msp.payload
    requires msp.payloadSize <= 4 && msp.payloadReadIterator == 0
    requires buf[..FRAME_LEN] == [TypeByte(MSP_DATA_PACKET), LowByte(msp.func), LowByte(msp.payloadSize), 0, 0, 0, 0]
    modifies buf, msp
    ensures msp.packetType == old(msp.packetType) && msp.flags == old(msp.flags)
    ensures msp.func == old(msp.func) && msp.payloadSize == old(msp.payloadSize)
    ensures msp.payloadReadIterator == msp.payloadSize && msp.readError == old(msp.readError)
    ensures buf[..FRAME_LEN] == MspFrame(msp.func, msp.payloadSize, msp.payload[..])
    ensures buf[FRAME_LEN..] == old(buf[FRAME_LEN..])
  {
    ghost var header := buf[..3];
    ghost var func, size, p := msp.func, msp.payloadSize, msp.payload[..];
    ReadPayloadBytes(buf, msp);
    ghost var body := buf[3..FRAME_LEN];
    assert forall k :: 0 <= k < 4 ==> body[k] == MspPayloadByte(size, p, k);
    MspFrameSplit(header, body, func, size, p);
    assert buf[..FRAME_LEN] == header + body;
  }

  /** A header and four payload bytes of the expected values make up MspFrame. */
  lemma MspFrameSplit(header: seq<bv8>, body: seq<bv8>, func: uint16, size: uint16, p: seq<bv8>)
    requires |p| == MSP_PORT_INBUF_SIZE as int
    requires header == [TypeByte(MSP_DATA_PACKET), LowByte(func), LowByte(size)]
    requires |body| == 4 && forall k :: 0 <= k < 4 ==> body[k] == MspPayloadByte(size, p, k)
    ensures header + body == MspFrame(func, size, p)
  {
  }

  /** The ReadByte loop itself: payload byte k goes to byte 3 + k, nothing else is written. */
  method ReadPayloadBytes(buf: array<bv8>, msp: MspPacket)
    requires buf.Length >= FRAME_LEN && msp.Valid() && buf != msp.payload
    requires msp.payloadSize <= 4 && msp.payloadReadIterator == 0
    modifies buf, msp
    ensures msp.packetType == old(msp.packetType) && msp.flags == old(msp.flags)
    ensures msp.func == old(msp.func) && msp.payloadSize == old(msp.payloadSize)
    ensures msp.payloadReadIterator == msp.payloadSize && msp.readError == old(msp.readError)
    ensures forall k :: 0 <= k < msp.payloadSize as int ==> buf[3 + k] == msp.payload[k]
    ensures forall j :: 0 <= j < buf.Length && !(3 <= j < 3 + msp.payloadSize as int) ==> buf[j] == old(buf[j])
  {
    var i := 0;
    while i < msp.payloadSize as int
      invariant 0 <= i <= msp.payloadSize as int
      invariant msp.payloadReadIterator as int == i && msp.readError == old(msp.readError)
      invariant msp.packetType == old(msp.packetType) && msp.flags == old(msp.flags)
      invariant msp.func == old(msp.func) && msp.payloadSize == old(msp.payloadSize)
      invariant forall k :: 0 <= k < i ==> buf[3 + k] == msp.payload[k]
      invariant forall j :: 0 <= j < buf.Length && !(3 <= j < 3 + i) ==> buf[j] == old(buf[j])
    {
      var b := msp.ReadByte();
      buf[3 + i] := b;
      i := i + 1;
    }
  }

  /**
    Writes an MSP frame: type, low bytes of function and size, and up to four
    payload bytes read through the packet's cursor. A payload longer than four
    bytes is not sent: bytes 3..6 stay zero and the packet is left alone.
  */
  method GenerateMSPData(buf: array<bv8>, msp: MspPacket)
    requires buf.Length >= FRAME_LEN && msp.Valid() && buf != msp.payload
    modifies buf, msp
    ensures buf[..FRAME_LEN] == MspFrame(msp.func, msp.payloadSize, msp.payload[..])
    ensures buf[FRAME_LEN..] == old(buf[FRAME_LEN..])
    ensures msp.packetType == old(msp.packetType) && msp.flags == old(msp.flags)
    ensures msp.func == old(msp.func) && msp.payloadSize == old(msp.payloadSize)
    ensures msp.payloadSize <= 4 ==>
      msp.payloadReadIterator == msp.payloadSize && msp.readError == old(msp.readError)
    ensures msp.payloadSize > 4 ==>
      msp.payloadReadIterator == old(msp.payloadReadIterator) && msp.readError == old(msp.readError)
  {
    WriteMspHeader(buf, msp.func, msp.payloadSize);
    if msp.payloadSize <= 4 {
      msp.payloadReadIterator := 0;
      ReadPayloadInto(buf, msp);
    }
  }

  /**
    Loads an MSP frame into a packet: reset, mark as command, take the function
    from byte 1 and always four payload bytes from bytes 3..6. Byte 2 is not read.
  */
  method UnpackMSPData(buf: array<bv8>, msp: MspPacket)
    requires buf.Length >= FRAME_LEN && msp.Valid() && buf != msp.payload
    modifies msp, msp.payload
    ensures msp.packetType == Command && msp.flags == 0 && msp.func as int == buf[1] as int
    ensures msp.payloadSize == 4 && msp.payloadReadIterator == 0 && !msp.readError
    ensures msp.payload[..4] == buf[3..FRAME_LEN]
    ensures msp.payload[4..] == old(msp.payload[4..])
    ensures msp.Consistent() && msp.Contents() == buf[3..FRAME_LEN]
  {
    msp.Reset();
    msp.MakeCommand();
    msp.flags := 0;
    msp.func := buf[1] as int as uint16;
    msp.AddByte(buf[3]);
    msp.AddByte(buf[4]);
    msp.AddByte(buf[5]);
    msp.AddByte(buf[6]);
  }
}
