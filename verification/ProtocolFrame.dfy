/**
 The protocol frame: a header with kind, sequence, length and checksum around a serialized message.
 Serialization and CRC-32 are arbitrary functions here.
 */
module ProtocolFrame {
  import opened Bytes
  import opened Wrappers
  import opened Transport
  import opened Datagram

  datatype MessageCodec<!M> = MessageCodec(
    serialize: M -> Option<seq<byte>>,
    deserialize: seq<byte> -> Option<M>,
    kind: M -> MessageKind)

  datatype Frame<M> = Frame(sequence: u64, message: M)

  datatype FrameError =
    | ShortFrame | InvalidMagic | WrongVersion | FramePayloadTooLarge | FrameLengthMismatch | KindMismatch
    | FrameChecksumMismatch | Serialization

  const FRAME_MAGIC: seq<byte> := [71, 76, 89, 82] // "GLYR"
  const WIRE_VERSION: u16 := 1
  const FRAME_HEADER_LEN: nat := 24
  const MAX_FRAME_PAYLOAD: nat := 16 * 1024 * 1024

  function FrameBytes(sequence: u64, kind: MessageKind, payload: seq<byte>, crc: Crc): seq<byte> {
    FRAME_MAGIC + LittleEndian(WIRE_VERSION, 2) + LittleEndian(KindToU16(kind), 2) + LittleEndian(sequence, 8)
    + LittleEndian(|payload|, 4) + LittleEndian(crc(payload), 4) + payload
  }

  method EncodeFrame<M>(sequence: u64, message: M, codec: MessageCodec<M>, crc: Crc) returns (r: Result<seq<byte>, FrameError>)
    ensures var payload := codec.serialize(message);
            r == if payload.None? then Err(Serialization)
                 else if |payload.value| > MAX_FRAME_PAYLOAD then Err(FramePayloadTooLarge)
                 else Ok(FrameBytes(sequence, codec.kind(message), payload.value, crc))
  {
    var payload := codec.serialize(message);
    if payload.None? {
      return Err(Serialization);
    }
    if |payload.value| > MAX_FRAME_PAYLOAD {
      return Err(FramePayloadTooLarge);
    }
    var out := FRAME_MAGIC;
    out := out + LittleEndian(WIRE_VERSION, 2);
    out := out + LittleEndian(KindToU16(codec.kind(message)), 2);
    out := out + LittleEndian(sequence, 8);
    out := out + LittleEndian(|payload.value|, 4);
    out := out + LittleEndian(crc(payload.value), 4);
    out := out + payload.value;
    return Ok(out);
  }

  function DecodeFrame<M>(bytes: seq<byte>, codec: MessageCodec<M>, crc: Crc): Result<Frame<M>, FrameError> {
    if |bytes| < FRAME_HEADER_LEN then Err(ShortFrame)
    else if bytes[0..4] != FRAME_MAGIC then Err(InvalidMagic)
    else if FromLittleEndian(bytes[4..6]) != WIRE_VERSION then Err(WrongVersion)
    else
      FixedWidthParse(bytes[6..8]);
      FixedWidthParse(bytes[8..16]);
      var kind := KindFromU16(FromLittleEndian(bytes[6..8]));
      var length := FromLittleEndian(bytes[16..20]);
      if kind.None? then Err(Serialization)
      else if length > MAX_FRAME_PAYLOAD then Err(FramePayloadTooLarge)
      else if |bytes| != FRAME_HEADER_LEN + length then Err(FrameLengthMismatch)
      else if crc(bytes[24..]) != FromLittleEndian(bytes[20..24]) then Err(FrameChecksumMismatch)
      else
        match codec.deserialize(bytes[24..])
        case None => Err(Serialization)
        case Some(message) =>
          if codec.kind(message) != kind.value then Err(KindMismatch)
          else Ok(Frame(FromLittleEndian(bytes[8..16]), message))
  }

  lemma FrameLayout(sequence: u64, kind: MessageKind, payload: seq<byte>, crc: Crc)
    ensures var bytes := FrameBytes(sequence, kind, payload, crc);
            && |bytes| == FRAME_HEADER_LEN + |payload|
            && bytes[0..4] == FRAME_MAGIC
            && bytes[4..6] == LittleEndian(WIRE_VERSION, 2)
            && bytes[6..8] == LittleEndian(KindToU16(kind), 2)
            && bytes[8..16] == LittleEndian(sequence, 8)
            && bytes[16..20] == LittleEndian(|payload|, 4)
            && bytes[20..24] == LittleEndian(crc(payload), 4)
            && bytes[24..] == payload
  {
  }

  lemma FrameFields<M>(sequence: u64, message: M, payload: seq<byte>, codec: MessageCodec<M>, crc: Crc)
    requires |payload| <= MAX_FRAME_PAYLOAD && codec.deserialize(payload) == Some(message)
    ensures DecodeFrame(FrameBytes(sequence, codec.kind(message), payload, crc), codec, crc) == Ok(Frame(sequence, message))
  {
    var kind := codec.kind(message);
    FrameLayout(sequence, kind, payload, crc);
    FixedWidthRoundTrip(WIRE_VERSION, 2);
    FixedWidthRoundTrip(KindToU16(kind), 2);
    KindRoundTrip(kind, KindToU16(kind));
    FixedWidthRoundTrip(sequence, 8);
    FixedWidthRoundTrip(|payload|, 4);
    FixedWidthRoundTrip(crc(payload), 4);
  }

  lemma FrameImage<M>(bytes: seq<byte>, codec: MessageCodec<M>, crc: Crc)
    requires DecodeFrame(bytes, codec, crc).Ok?
    ensures var f := DecodeFrame(bytes, codec, crc).value;
            && |bytes| >= FRAME_HEADER_LEN && |bytes[24..]| <= MAX_FRAME_PAYLOAD
            && codec.deserialize(bytes[24..]) == Some(f.message)
            && bytes == FrameBytes(f.sequence, codec.kind(f.message), bytes[24..], crc)
  {
    var f, payload := DecodeFrame(bytes, codec, crc).value, bytes[24..];
    var image := FrameBytes(f.sequence, codec.kind(f.message), payload, crc);
    FrameLayout(f.sequence, codec.kind(f.message), payload, crc);
    FixedWidthParse(bytes[4..6]);
    FixedWidthParse(bytes[6..8]);
    KindRoundTrip(codec.kind(f.message), FromLittleEndian(bytes[6..8]));
    FixedWidthParse(bytes[8..16]);
    FixedWidthParse(bytes[16..20]);
    FixedWidthParse(bytes[20..24]);
    SameSlice(bytes, image, 0, 4);
    SameSlice(bytes, image, 4, 6);
    SameSlice(bytes, image, 6, 8);
    SameSlice(bytes, image, 8, 16);
    SameSlice(bytes, image, 16, 20);
    SameSlice(bytes, image, 20, 24);
    SameSlice(bytes, image, 24, |bytes|);
  }

  /** The decoder gives a frame for exactly the images of that frame: the header says the message's own
      kind and the sequence, and length and checksum are those of the bytes that deserialize to it. */
  lemma FrameRoundTrip<M>(bytes: seq<byte>, f: Frame<M>, codec: MessageCodec<M>, crc: Crc)
    ensures DecodeFrame(bytes, codec, crc) == Ok(f) <==>
              && |bytes| >= FRAME_HEADER_LEN && |bytes[24..]| <= MAX_FRAME_PAYLOAD
              && codec.deserialize(bytes[24..]) == Some(f.message)
              && bytes == FrameBytes(f.sequence, codec.kind(f.message), bytes[24..], crc)
  {
    if DecodeFrame(bytes, codec, crc) == Ok(f) {
      FrameImage(bytes, codec, crc);
    }
    if |bytes| >= FRAME_HEADER_LEN && |bytes[24..]| <= MAX_FRAME_PAYLOAD && codec.deserialize(bytes[24..]) == Some(f.message) {
      FrameFields(f.sequence, f.message, bytes[24..], codec, crc);
    }
  }
}
