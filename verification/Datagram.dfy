/** The `GLYT` datagram form of transport packets. CRC-32 is an arbitrary function here. */
module Datagram {
  import opened Bytes
  import opened Wrappers
  import opened Transport

  type Crc = seq<byte> -> u32

  type Packet = TransportPacket<seq<byte>>

  datatype DatagramError =
    | PayloadTooLarge | ShortDatagram | BadMagic | UnsupportedVersion | UnknownChannel | UnknownKind
    | LengthMismatch | ChecksumMismatch

  const DATAGRAM_MAGIC: seq<byte> := [71, 76, 89, 84] // "GLYT"
  const DATAGRAM_VERSION: u16 := 1
  const HEADER_LEN: nat := 33
  const MAX_DATAGRAM_PAYLOAD: nat := 60_000

  function ChannelToU8(channel: ChannelKind): u8 {
    match channel
    case Video => 1
    case Audio => 2
    case Input => 3
    case Control => 4
  }

  function ChannelFromU8(value: u8): Option<ChannelKind> {
    match value
    case 1 => Some(Video)
    case 2 => Some(Audio)
    case 3 => Some(Input)
    case 4 => Some(Control)
    case _ => None
  }

  const KINDS: seq<MessageKind> := [
    ClientHello, HostHello, AuthChallenge, AuthResponse, PairingRequest, PairingResult,
    DisplayInfo, EncoderConfig, VideoFrame, AudioFrame, StylusInputBatch, MouseInput,
    KeyboardInput, ClipboardMessage, LatencyPing, LatencyPong, ErrorMessage, Disconnect,
    TouchInputBatch, GamepadInput, SessionKeyExchange, SessionKeyConfirm, PairingChallenge]

  /** The wire number of a kind: its position in `KINDS`, from 1. */
  function KindToU16(kind: MessageKind): (r: u16)
    ensures 1 <= r <= 23 && KINDS[r - 1] == kind
  {
    match kind
    case ClientHello => 1
    case HostHello => 2
    case AuthChallenge => 3
    case AuthResponse => 4
    case PairingRequest => 5
    case PairingResult => 6
    case DisplayInfo => 7
    case EncoderConfig => 8
    case VideoFrame => 9
    case AudioFrame => 10
    case StylusInputBatch => 11
    case MouseInput => 12
    case KeyboardInput => 13
    case ClipboardMessage => 14
    case LatencyPing => 15
    case LatencyPong => 16
    case ErrorMessage => 17
    case Disconnect => 18
    case TouchInputBatch => 19
    case GamepadInput => 20
    case SessionKeyExchange => 21
    case SessionKeyConfirm => 22
    case PairingChallenge => 23
  }

  function KindFromU16(value: u16): Option<MessageKind> {
    if 1 <= value <= 23 then Some(KINDS[value - 1]) else None
  }

  lemma KindRoundTrip(kind: MessageKind, value: u16)
    ensures KindFromU16(value) == Some(kind) <==> value == KindToU16(kind)
  {
    if KindFromU16(value) == Some(kind) {
      assert KINDS[value - 1] == kind;
      KindsDistinct(value - 1);
    }
  }

  lemma KindsDistinct(i: nat)
    requires i < 23
    ensures KindToU16(KINDS[i]) == i + 1
  {
  }

  function PacketBytes(p: Packet, crc: Crc): (r: seq<byte>)
    ensures |r| == HEADER_LEN + |p.payload|
  {
    DATAGRAM_MAGIC + LittleEndian(DATAGRAM_VERSION, 2) + [ChannelToU8(p.channel)]
    + LittleEndian(KindToU16(p.messageKind), 2) + LittleEndian(p.sequence, 8)
    + LittleEndian(p.enqueueTimestampUs, 8) + LittleEndian(|p.payload|, 4)
    + LittleEndian(crc(p.payload), 4) + p.payload
  }

  class ByteBuffer {
    var bytes: seq<byte>

    constructor ()
      ensures bytes == []
    {
      bytes := [];
    }
  }

  method EncodePacketInto(p: Packet, crc: Crc, out: ByteBuffer) returns (r: Result<(), DatagramError>)
    modifies out
    ensures r == if |p.payload| > MAX_DATAGRAM_PAYLOAD then Err(PayloadTooLarge) else Ok(())
    ensures out.bytes == if r.Ok? then PacketBytes(p, crc) else old(out.bytes)
  {
    if |p.payload| > MAX_DATAGRAM_PAYLOAD {
      return Err(PayloadTooLarge);
    }
    out.bytes := [];
    out.bytes := out.bytes + DATAGRAM_MAGIC;
    assert out.bytes == DATAGRAM_MAGIC;
    out.bytes := out.bytes + LittleEndian(DATAGRAM_VERSION, 2);
    out.bytes := out.bytes + [ChannelToU8(p.channel)];
    out.bytes := out.bytes + LittleEndian(KindToU16(p.messageKind), 2);
    out.bytes := out.bytes + LittleEndian(p.sequence, 8);
    out.bytes := out.bytes + LittleEndian(p.enqueueTimestampUs, 8);
    out.bytes := out.bytes + LittleEndian(|p.payload|, 4);
    out.bytes := out.bytes + LittleEndian(crc(p.payload), 4);
    out.bytes := out.bytes + p.payload;
    return Ok(());
  }

  function DecodePacket(bytes: seq<byte>, crc: Crc): Result<Packet, DatagramError> {
    if |bytes| < HEADER_LEN then Err(ShortDatagram)
    else if bytes[0..4] != DATAGRAM_MAGIC then Err(BadMagic)
    else if FromLittleEndian(bytes[4..6]) != DATAGRAM_VERSION then Err(UnsupportedVersion)
    else if ChannelFromU8(bytes[6]).None? then Err(UnknownChannel)
    else
      FixedWidthParse(bytes[7..9]);
      FixedWidthParse(bytes[9..17]);
      FixedWidthParse(bytes[17..25]);
      var kind := KindFromU16(FromLittleEndian(bytes[7..9]));
      var length := FromLittleEndian(bytes[25..29]);
      if kind.None? then Err(UnknownKind)
      else if length > MAX_DATAGRAM_PAYLOAD then Err(PayloadTooLarge)
      else if |bytes| != HEADER_LEN + length then Err(LengthMismatch)
      else if crc(bytes[HEADER_LEN..]) != FromLittleEndian(bytes[29..33]) then Err(ChecksumMismatch)
      else Ok(TransportPacket(FromLittleEndian(bytes[9..17]), ChannelFromU8(bytes[6]).value, kind.value,
                              FromLittleEndian(bytes[17..25]), bytes[HEADER_LEN..]))
  }

  /** The datagram decoder accepts exactly the encoder's images, and inverts them. */
  lemma PacketRoundTrip(p: Packet, bytes: seq<byte>, crc: Crc)
    ensures DecodePacket(bytes, crc) == Ok(p) <==> |p.payload| <= MAX_DATAGRAM_PAYLOAD && bytes == PacketBytes(p, crc)
  {
    if |p.payload| <= MAX_DATAGRAM_PAYLOAD && bytes == PacketBytes(p, crc) {
      PacketFields(p, crc);
    }
    if DecodePacket(bytes, crc) == Ok(p) {
      PacketImage(bytes, crc);
    }
  }

  /** The fields of `p` at their places in `bytes`. */
  predicate LaidOut(bytes: seq<byte>, p: Packet, crc: Crc) {
    && |bytes| == HEADER_LEN + |p.payload|
    && bytes[0..4] == DATAGRAM_MAGIC
    && bytes[4..6] == LittleEndian(DATAGRAM_VERSION, 2)
    && bytes[6] == ChannelToU8(p.channel)
    && bytes[7..9] == LittleEndian(KindToU16(p.messageKind), 2)
    && bytes[9..17] == LittleEndian(p.sequence, 8)
    && bytes[17..25] == LittleEndian(p.enqueueTimestampUs, 8)
    && bytes[25..29] == LittleEndian(|p.payload|, 4)
    && bytes[29..33] == LittleEndian(crc(p.payload), 4)
    && bytes[33..] == p.payload
  }

  lemma HeadLayout(p: Packet, crc: Crc)
    ensures var bytes := PacketBytes(p, crc);
            && bytes[0..4] == DATAGRAM_MAGIC
            && bytes[4..6] == LittleEndian(DATAGRAM_VERSION, 2)
            && bytes[6] == ChannelToU8(p.channel)
            && bytes[7..9] == LittleEndian(KindToU16(p.messageKind), 2)
  {
  }

  lemma TimesLayout(p: Packet, crc: Crc)
    ensures var bytes := PacketBytes(p, crc);
            bytes[9..17] == LittleEndian(p.sequence, 8) && bytes[17..25] == LittleEndian(p.enqueueTimestampUs, 8)
  {
  }

  lemma TailLayout(p: Packet, crc: Crc)
    ensures var bytes := PacketBytes(p, crc);
            && bytes[25..29] == LittleEndian(|p.payload|, 4)
            && bytes[29..33] == LittleEndian(crc(p.payload), 4)
            && bytes[33..] == p.payload
  {
  }

  lemma PacketLayout(p: Packet, crc: Crc)
    ensures LaidOut(PacketBytes(p, crc), p, crc)
  {
    HeadLayout(p, crc);
    TimesLayout(p, crc);
    TailLayout(p, crc);
  }

  /** Bytes laid out like a packet decode to it. */
  lemma LaidOutDecodes(bytes: seq<byte>, p: Packet, crc: Crc)
    requires LaidOut(bytes, p, crc) && |p.payload| <= MAX_DATAGRAM_PAYLOAD
    ensures DecodePacket(bytes, crc) == Ok(p)
  {
    FixedWidthRoundTrip(DATAGRAM_VERSION, 2);
    FixedWidthRoundTrip(KindToU16(p.messageKind), 2);
    KindRoundTrip(p.messageKind, KindToU16(p.messageKind));
    FixedWidthRoundTrip(p.sequence, 8);
    FixedWidthRoundTrip(p.enqueueTimestampUs, 8);
    FixedWidthRoundTrip(|p.payload|, 4);
    FixedWidthRoundTrip(crc(p.payload), 4);
  }

  lemma PacketFields(p: Packet, crc: Crc)
    requires |p.payload| <= MAX_DATAGRAM_PAYLOAD
    ensures DecodePacket(PacketBytes(p, crc), crc) == Ok(p)
  {
    PacketLayout(p, crc);
    LaidOutDecodes(PacketBytes(p, crc), p, crc);
  }

  lemma DecodedHead(bytes: seq<byte>, crc: Crc)
    requires DecodePacket(bytes, crc).Ok?
    ensures var p := DecodePacket(bytes, crc).value;
            && |bytes| == HEADER_LEN + |p.payload|
            && bytes[0..4] == DATAGRAM_MAGIC
            && bytes[4..6] == LittleEndian(DATAGRAM_VERSION, 2)
            && bytes[6] == ChannelToU8(p.channel)
            && bytes[7..9] == LittleEndian(KindToU16(p.messageKind), 2)
  {
    FixedWidthParse(bytes[4..6]);
    FixedWidthParse(bytes[7..9]);
    KindRoundTrip(DecodePacket(bytes, crc).value.messageKind, FromLittleEndian(bytes[7..9]));
  }

  lemma DecodedTail(bytes: seq<byte>, crc: Crc)
    requires DecodePacket(bytes, crc).Ok?
    ensures var p := DecodePacket(bytes, crc).value;
            && |bytes| == HEADER_LEN + |p.payload|
            && bytes[9..17] == LittleEndian(p.sequence, 8)
            && bytes[17..25] == LittleEndian(p.enqueueTimestampUs, 8)
            && bytes[25..29] == LittleEndian(|p.payload|, 4)
            && bytes[29..33] == LittleEndian(crc(p.payload), 4)
            && bytes[33..] == p.payload
  {
    FixedWidthParse(bytes[9..17]);
    FixedWidthParse(bytes[17..25]);
    FixedWidthParse(bytes[25..29]);
    FixedWidthParse(bytes[29..33]);
  }

  /** Bytes that decode are laid out like the packet they decode to. */
  lemma DecodedLayout(bytes: seq<byte>, crc: Crc)
    requires DecodePacket(bytes, crc).Ok?
    ensures LaidOut(bytes, DecodePacket(bytes, crc).value, crc)
  {
    DecodedHead(bytes, crc);
    DecodedTail(bytes, crc);
  }

  /** There is one way to lay a packet out. */
  lemma LayoutUnique(bytes: seq<byte>, bytes': seq<byte>, p: Packet, crc: Crc)
    requires LaidOut(bytes, p, crc) && LaidOut(bytes', p, crc)
    ensures bytes == bytes'
  {
    SameSlice(bytes, bytes', 0, 4);
    SameSlice(bytes, bytes', 4, 6);
    SameSlice(bytes, bytes', 7, 9);
    SameSlice(bytes, bytes', 9, 17);
    SameSlice(bytes, bytes', 17, 25);
    SameSlice(bytes, bytes', 25, 29);
    SameSlice(bytes, bytes', 29, 33);
    SameSlice(bytes, bytes', 33, |bytes|);
  }

  lemma PacketImage(bytes: seq<byte>, crc: Crc)
    requires DecodePacket(bytes, crc).Ok?
    ensures var p := DecodePacket(bytes, crc).value;
            |p.payload| <= MAX_DATAGRAM_PAYLOAD && bytes == PacketBytes(p, crc)
  {
    var p := DecodePacket(bytes, crc).value;
    DecodedLayout(bytes, crc);
    PacketLayout(p, crc);
    LayoutUnique(bytes, PacketBytes(p, crc), p, crc);
  }
}
