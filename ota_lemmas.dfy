/**
  What the over-the-air codec guarantees: which bits of each channel survive a
  trip through a frame, how the receiver reads the switch byte back, and what
  an MSP frame carries.
*/
module OtaLemmas {
  import opened Ints
  import opened Msp
  import opened Ota

  /** The part of an 11-bit analog value a frame carries: bits 10..1. */
  function Kept(c: bv16): bv16
  {
    c & 0x7FE
  }

  /** Byte 0 tells the frame kinds apart: RC frames carry type 0, MSP frames type 1. */
  lemma FrameTypes(ch: seq<bv16>, switches: seq<bv8>, index: bv8, telemetry: bool, s: Scaling,
                   func: uint16, size: uint16, payload: seq<bv8>)
    requires |ch| >= 12 && (index as int) < |switches|
    requires |payload| == MSP_PORT_INBUF_SIZE as int
    ensures HybridFrame(ch, switches, index, telemetry)[0] == RC_DATA_PACKET
    ensures FixedFrame(ch, s)[0] == RC_DATA_PACKET
    ensures MspFrame(func, size, payload)[0] == MSP_DATA_PACKET
    ensures HybridFrame(ch, switches, index, telemetry)[..6] == FixedFrame(ch, s)[..6] == RcHeader(ch)
  {
  }

  /** Channels 0..3 decode to their value with bit 0 cleared. */
  lemma AnalogRoundTrip(ch: seq<bv16>)
    requires |ch| >= 4 && forall i :: 0 <= i < 4 ==> ch[i] < 2048
    ensures UnpackAnalog(RcHeader(ch)) == [Kept(ch[0]), Kept(ch[1]), Kept(ch[2]), Kept(ch[3])]
  {
    var c0, c1, c2, c3 := ch[0], ch[1], ch[2], ch[3];
    var h := RcHeader(ch);
    AnalogChannel0(c0, c1, c2, c3);
    AnalogChannel1(c0, c1, c2, c3);
    AnalogChannel2(c0, c1, c2, c3);
    AnalogChannel3(c0, c1, c2, c3);
    AnalogFromHeader(h, HighByte(c0), HighByte(c1), HighByte(c2), HighByte(c3),
                     LowPairsByte(c0, c1, c2, c3));
  }

  /** The analog trip through the hybrid encoder and decoder. */
  lemma HybridAnalogRoundTrip(prev: seq<bv16>, ch: seq<bv16>, switches: seq<bv8>, index: bv8,
                              telemetry: bool, s: Scaling)
    requires |prev| == NUM_CHANNELS && |ch| >= 4 && (index as int) < |switches|
    requires forall i :: 0 <= i < 4 ==> ch[i] < 2048
    ensures HybridUnpacked(prev, HybridFrame(ch, switches, index, telemetry), s)[..4] ==
      [Kept(ch[0]), Kept(ch[1]), Kept(ch[2]), Kept(ch[3])]
  {
    var f, h := HybridFrame(ch, switches, index, telemetry), RcHeader(ch);
    assert f[..6] == h;
    AnalogFromHeader(f, h[1], h[2], h[3], h[4], h[5]);
    AnalogFromHeader(h, h[1], h[2], h[3], h[4], h[5]);
    AnalogRoundTrip(ch);
  }

  /** The analog trip through the fixed-layout encoder and decoder. */
  lemma FixedAnalogRoundTrip(prev: seq<bv16>, ch: seq<bv16>, s: Scaling)
    requires |prev| == NUM_CHANNELS && |ch| >= 12
    requires forall i :: 0 <= i < 4 ==> ch[i] < 2048
    ensures FixedUnpacked(prev, FixedFrame(ch, s), s)[..4] ==
      [Kept(ch[0]), Kept(ch[1]), Kept(ch[2]), Kept(ch[3])]
  {
    var f, h := FixedFrame(ch, s), RcHeader(ch);
    assert f[..6] == h;
    AnalogFromHeader(f, h[1], h[2], h[3], h[4], h[5]);
    AnalogFromHeader(h, h[1], h[2], h[3], h[4], h[5]);
    AnalogRoundTrip(ch);
  }

  /** UnpackAnalog in terms of the header bytes it reads. */
  lemma AnalogFromHeader(h: seq<bv8>, b1: bv8, b2: bv8, b3: bv8, b4: bv8, b5: bv8)
    requires |h| >= 6 && h[1] == b1 && h[2] == b2 && h[3] == b3 && h[4] == b4 && h[5] == b5
    ensures UnpackAnalog(h) ==
      [((b1 as bv16) << 3) | (((b5 & 0xC0) >> 5) as bv16),
       ((b2 as bv16) << 3) | (((b5 & 0x30) >> 3) as bv16),
       ((b3 as bv16) << 3) | (((b5 & 0x0C) >> 1) as bv16),
       ((b4 as bv16) << 3) | (((b5 & 0x03) << 1) as bv16)]
  {
  }

  /** The trip is exact exactly for even values. */
  lemma AnalogExactIffEven(ch: seq<bv16>)
    requires |ch| >= 4 && forall i :: 0 <= i < 4 ==> ch[i] < 2048
    ensures forall i :: 0 <= i < 4 ==> (UnpackAnalog(RcHeader(ch))[i] == ch[i] <==> ch[i] & 1 == 0)
  {
    AnalogRoundTrip(ch);
    forall i | 0 <= i < 4
      ensures Kept(ch[i]) == ch[i] <==> ch[i] & 1 == 0
    {
      KeptSplit(ch[i]);
    }
  }

  /** Channel k of UnpackAnalog, rebuilt from the bytes RcHeader wrote for it. */
  lemma AnalogChannel0(c0: bv16, c1: bv16, c2: bv16, c3: bv16)
    requires c0 < 2048
    ensures ((HighByte(c0) as bv16) << 3) | (((LowPairsByte(c0, c1, c2, c3) & 0xC0) >> 5) as bv16) == Kept(c0)
  {
    KeptSplit(c0);
  }

  lemma AnalogChannel1(c0: bv16, c1: bv16, c2: bv16, c3: bv16)
    requires c1 < 2048
    ensures ((HighByte(c1) as bv16) << 3) | (((LowPairsByte(c0, c1, c2, c3) & 0x30) >> 3) as bv16) == Kept(c1)
  {
    KeptSplit(c1);
  }

  lemma AnalogChannel2(c0: bv16, c1: bv16, c2: bv16, c3: bv16)
    requires c2 < 2048
    ensures ((HighByte(c2) as bv16) << 3) | (((LowPairsByte(c0, c1, c2, c3) & 0x0C) >> 1) as bv16) == Kept(c2)
  {
    KeptSplit(c2);
  }

  lemma AnalogChannel3(c0: bv16, c1: bv16, c2: bv16, c3: bv16)
    requires c3 < 2048
    ensures ((HighByte(c3) as bv16) << 3) | (((LowPairsByte(c0, c1, c2, c3) & 0x03) << 1) as bv16) == Kept(c3)
  {
    KeptSplit(c3);
  }

  /** Bits 10..1 are bits 10..3 together with bits 2..1, and keep the value exactly when bit 0 is clear. */
  lemma KeptSplit(c: bv16)
    requires c < 2048
    ensures (c & 0x7F8) | (c & 6) == Kept(c)
    ensures Kept(c) == c <==> c & 1 == 0
  {
  }

  /**
    The hybrid switch byte read back. With switch 0 one bit wide and the sent
    value within its range (three bits for indices 2..7, four for index 1),
    channel 4 carries switch 0 and the index names the channel that gets the
    value; the channels the index does not name keep their previous values.
  */
  lemma HybridRoundTrip(prev: seq<bv16>, ch: seq<bv16>, switches: seq<bv8>, index: bv8,
                        telemetry: bool, s: Scaling)
    requires |prev| == NUM_CHANNELS && |ch| >= 4 && |switches| == NUM_SWITCHES as int
    requires index < NUM_SWITCHES && switches[0] <= 1
    requires if index == 1 then switches[1] < 16 else switches[index] < 8
    ensures var r := HybridUnpacked(prev, HybridFrame(ch, switches, index, telemetry), s);
      r[4] == s.bitToCrsf(switches[0]) &&
      (index >= 2 ==>
        r[4 + index as int] == s.switch3bToCrsf(switches[index]) &&
        forall j :: 5 <= j < NUM_CHANNELS && j != 4 + index as int ==> r[j] == prev[j]) &&
      (index <= 1 ==>
        r[5] == s.nToCrsf(switches[index], 15) &&
        forall j :: 6 <= j < NUM_CHANNELS ==> r[j] == prev[j])
  {
    var f := HybridFrame(ch, switches, index, telemetry);
    var b6 := HybridSwitchByte(telemetry, switches[0], index, switches[index]);
    assert f[6] == b6;
    HybridByteFields(telemetry, switches[0], index, switches[index]);
    if index >= 2 {
      assert HybridSlot(index) == 4 + index as int;
    }
  }

  /** The fields of the hybrid switch byte read back, telemetry flag in bit 7 included, when switch 0 and the value fit their bits. */
  lemma HybridByteFields(telemetry: bool, switch0: bv8, index: bv8, value: bv8)
    requires switch0 <= 1 && index < 8 && if index == 1 then value < 16 else value < 8
    ensures var b := HybridSwitchByte(telemetry, switch0, index, value);
      b >> 7 == (if telemetry then 1 else 0) && (b & 0x40) >> 6 == switch0 &&
      (index >= 2 ==> SwitchIndexField(b) == index && b & 7 == value) &&
      (index <= 1 ==> SwitchIndexField(b) <= 1 && b & 0x0F == value)
  {
  }

  /** The telemetry flag in bit 7 of byte 6 does not affect what the receiver decodes. */
  lemma HybridIgnoresTelemetryBit(prev: seq<bv16>, f: seq<bv8>, s: Scaling)
    requires |prev| == NUM_CHANNELS && |f| >= FRAME_LEN
    ensures HybridUnpacked(prev, f[6 := f[6] ^ 0x80], s) == HybridUnpacked(prev, f, s)
  {
    var g := f[6 := f[6] ^ 0x80];
    assert SwitchIndexField(g[6]) == SwitchIndexField(f[6]);
    assert g[6] & 0x40 == f[6] & 0x40 && g[6] & 0x0F == f[6] & 0x0F && g[6] & 7 == f[6] & 7;
    assert UnpackAnalog(g) == UnpackAnalog(f);
  }

  /** The fixed decoder sets channel 4 + k from byte 6 masked with 0x80 >> k. */
  lemma FixedUnpackedSwitches(prev: seq<bv16>, f: seq<bv8>, s: Scaling)
    requires |prev| == NUM_CHANNELS && |f| >= FRAME_LEN
    ensures forall k :: 0 <= k < 8 ==> FixedUnpacked(prev, f, s)[4 + k] == s.bitToCrsf(f[6] & FixedMask(k))
  {
    var r := FixedUnpacked(prev, f, s);
    assert r[4] == s.bitToCrsf(f[6] & 0x80) && r[5] == s.bitToCrsf(f[6] & 0x40);
    assert r[6] == s.bitToCrsf(f[6] & 0x20) && r[7] == s.bitToCrsf(f[6] & 0x10);
    assert r[8] == s.bitToCrsf(f[6] & 0x08) && r[9] == s.bitToCrsf(f[6] & 0x04);
    assert r[10] == s.bitToCrsf(f[6] & 0x02) && r[11] == s.bitToCrsf(f[6] & 0x01);
  }

  /**
    The fixed layout: when CRSF_to_BIT yields one bit, bit 7 - k of byte 6 is
    set exactly when channel 4 + k is on.
  */
  lemma FixedSwitchBits(ch: seq<bv16>, s: Scaling)
    requires |ch| >= 12 && forall k :: 4 <= k < 12 ==> s.crsfToBit(ch[k]) <= 1
    ensures forall k :: 0 <= k < 8 ==>
      FixedSwitchByte(ch, s) & FixedMask(k) == if s.crsfToBit(ch[4 + k]) == 1 then FixedMask(k) else 0
  {
    var b := FixedSwitchByte(ch, s);
    assert b & 0x80 == if s.crsfToBit(ch[4]) == 1 then 0x80 else 0;
    assert b & 0x40 == if s.crsfToBit(ch[5]) == 1 then 0x40 else 0;
    assert b & 0x20 == if s.crsfToBit(ch[6]) == 1 then 0x20 else 0;
    assert b & 0x10 == if s.crsfToBit(ch[7]) == 1 then 0x10 else 0;
    assert b & 0x08 == if s.crsfToBit(ch[8]) == 1 then 0x08 else 0;
    assert b & 0x04 == if s.crsfToBit(ch[9]) == 1 then 0x04 else 0;
    assert b & 0x02 == if s.crsfToBit(ch[10]) == 1 then 0x02 else 0;
    assert b & 0x01 == if s.crsfToBit(ch[11]) == 1 then 0x01 else 0;
  }

  /**
    The fixed layout read back: the decoder hands BIT_to_CRSF the masked bit in
    its place, not shifted down, so channel 4 + k becomes BIT_to_CRSF(0x80 >> k)
    when its bit was set and BIT_to_CRSF(0) when it was clear.
  */
  lemma FixedRoundTrip(prev: seq<bv16>, ch: seq<bv16>, s: Scaling)
    requires |prev| == NUM_CHANNELS && |ch| >= 12
    requires forall k :: 4 <= k < 12 ==> s.crsfToBit(ch[k]) <= 1
    ensures var r := FixedUnpacked(prev, FixedFrame(ch, s), s);
      forall k :: 0 <= k < 8 ==>
        r[4 + k] == s.bitToCrsf(if s.crsfToBit(ch[4 + k]) == 1 then FixedMask(k) else 0)
  {
    FixedSwitchBits(ch, s);
    FixedUnpackedSwitches(prev, FixedFrame(ch, s), s);
    assert FixedFrame(ch, s)[6] == FixedSwitchByte(ch, s);
  }

  /**
    An MSP frame read back: a command whose function is the sender's low byte
    and whose four payload bytes start with the sender's payload (at most four
    bytes) and are zero after it.
  */
  lemma MspRoundTrip(func: uint16, size: uint16, payload: seq<bv8>)
    requires |payload| == MSP_PORT_INBUF_SIZE as int && size <= 4
    ensures var f := MspFrame(func, size, payload);
      f[1] as int == func as int % 0x100 &&
      f[3..FRAME_LEN] == payload[..size] + Repeat(0, 4 - size as int)
  {
    var f := MspFrame(func, size, payload);
    assert f[3..3 + size as int] == payload[..size];
    assert f[3..FRAME_LEN] == f[3..3 + size as int] + f[3 + size as int..FRAME_LEN];
  }

  /**
    An MSP message of at most four bytes sent through a frame and loaded on
    the other side: the receiver holds a command with the sender's function low
    byte and the sender's payload, padded with zeros to four bytes.
  */
  method MspOverTheAir(buf: array<bv8>, tx: MspPacket, rx: MspPacket)
    requires buf.Length >= FRAME_LEN && tx.Valid() && rx.Valid() && tx.Consistent()
    requires buf != tx.payload && buf != rx.payload && tx != rx && tx.payload != rx.payload
    requires tx.payloadSize <= 4
    modifies buf, tx, rx, rx.payload
    ensures tx.func == old(tx.func) && tx.payloadSize == old(tx.payloadSize)
    ensures rx.packetType == Command && rx.func as int == tx.func as int % 0x100
    ensures rx.Consistent() && rx.Contents() == old(tx.Contents()) + Repeat(0, 4 - tx.payloadSize as int)
  {
    ghost var sent := tx.Contents();
    GenerateMSPData(buf, tx);
    MspRoundTrip(tx.func, tx.payloadSize, tx.payload[..]);
    assert tx.payload[..tx.payloadSize] == sent;
    UnpackMSPData(buf, rx);
  }
}
