/**
  The MSP packet buffer (mspPacket_t): a fixed payload array of
  MSP_PORT_INBUF_SIZE bytes with a fill length, a read cursor and a sticky
  read-error flag.
*/
module Msp {
  import opened Ints

  /** Capacity of the payload array. */
  const MSP_PORT_INBUF_SIZE: uint16 := 8

  datatype MspPacketType = Unknown | Command | Response

  class MspPacket {
    var packetType: MspPacketType
    var flags: uint8
    var func: uint16
    var payloadSize: uint16
    const payload: array<bv8>
    var payloadReadIterator: uint16
    var readError: bool

    /** The payload array has its declared size. */
    ghost predicate Valid()
      reads this
    {
      payload.Length == MSP_PORT_INBUF_SIZE as int
    }

    /** The cursor is inside the filled part, which is inside the array. */
    ghost predicate Consistent()
      reads this
    {
      payloadReadIterator <= payloadSize && payloadSize <= MSP_PORT_INBUF_SIZE
    }

    /** The filled part of the payload. */
    ghost function Contents(): (s: seq<bv8>)
      requires Valid() && Consistent()
      reads this, payload
      ensures |s| == payloadSize as int
    {
      payload[..payloadSize as int]
    }

    /** A packet in the state `reset` leaves, over a zeroed payload array. */
    constructor ()
      ensures Valid() && Consistent() && fresh(payload)
      ensures packetType == Unknown && flags == 0 && func == 0
      ensures payloadSize == 0 && payloadReadIterator == 0 && !readError
      ensures payload[..] == seq(8, _ => 0)
    {
      packetType := Unknown;
      flags := 0;
      func := 0;
      payloadSize := 0;
      payload := new bv8[8](_ => 0);
      payloadReadIterator := 0;
      readError := false;
    }

    /** Clears every header field, the cursor and the error flag; the payload bytes stay. */
    method Reset()
      modifies this
      ensures packetType == Unknown && flags == 0 && func == 0
      ensures payloadSize == 0 && payloadReadIterator == 0 && !readError
      ensures Consistent()
      ensures payload[..] == old(payload[..])
    {
      packetType := Unknown;
      flags := 0;
      func := 0;
      payloadSize := 0;
      payloadReadIterator := 0;
      readError := false;
    }

    /** Appends one byte; the source has no bounds check, so the caller must leave room. */
    method AddByte(b: bv8)
      requires Valid()
      requires payloadSize < MSP_PORT_INBUF_SIZE
      modifies this, payload
      ensures payloadSize == old(payloadSize) + 1
      ensures payload[..] == old(payload[..])[old(payloadSize) := b]
      ensures packetType == old(packetType) && flags == old(flags) && func == old(func)
      ensures payloadReadIterator == old(payloadReadIterator) && readError == old(readError)
      ensures old(Consistent()) ==> Consistent() && Contents() == old(Contents()) + [b]
    {
      payload[payloadSize] := b;
      payloadSize := payloadSize + 1;
    }

    /** Changes only the packet type, to Response. */
    method MakeResponse()
      modifies this
      ensures packetType == Response
      ensures flags == old(flags) && func == old(func) && payloadSize == old(payloadSize)
      ensures payloadReadIterator == old(payloadReadIterator) && readError == old(readError)
    {
      packetType := Response;
    }

    /** Changes only the packet type, to Command. */
    method MakeCommand()
      modifies this
      ensures packetType == Command
      ensures flags == old(flags) && func == old(func) && payloadSize == old(payloadSize)
      ensures payloadReadIterator == old(payloadReadIterator) && readError == old(readError)
    {
      packetType := Command;
    }

    /**
      Reads the byte under the cursor and advances it; reading past the filled
      part sets the error flag, returns 0 and moves nothing. The source reads
      payload[payloadReadIterator] unchecked, so a cursor inside the filled part
      must also be inside the array.
    */
    method ReadByte() returns (b: bv8)
      requires Valid()
      requires payloadReadIterator < payloadSize ==> payloadReadIterator < MSP_PORT_INBUF_SIZE
      modifies this
      ensures old(payloadReadIterator) < old(payloadSize) ==>
        b == payload[old(payloadReadIterator)] &&
        payloadReadIterator == old(payloadReadIterator) + 1 &&
        readError == old(readError)
      ensures old(payloadReadIterator) >= old(payloadSize) ==>
        b == 0 && readError && payloadReadIterator == old(payloadReadIterator)
      ensures packetType == old(packetType) && flags == old(flags) && func == old(func)
      ensures payloadSize == old(payloadSize)
      ensures old(Consistent()) ==> Consistent()
    {
      if payloadReadIterator >= payloadSize {
        readError := true;
        return 0;
      }
      b := payload[payloadReadIterator];
      payloadReadIterator := payloadReadIterator + 1;
    }
  }
}
