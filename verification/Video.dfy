/**
 The video path from an encoded access unit to datagrams and back: the access-unit envelope, its
 fragments, and the `GLYT` datagrams that carry them.
 */
module Video {
  import opened Bytes
  import opened Wrappers
  import opened Transport
  import opened Media
  import opened Fragment
  import opened Datagram

  // ---------------------------------------------------------------------------------------------
  // Access units
  // ---------------------------------------------------------------------------------------------

  datatype AccessUnit = AccessUnit(
    sequence: u64,
    codec: VideoCodec,
    presentationTimeUs: u64,
    isKeyframe: bool,
    payload: seq<byte>)

  datatype VideoError =
    | NotVideo | ShortUnit | UnknownCodec | InvalidKeyframeFlag | UnitLengthMismatch
    | BadFragment(error: FragmentError)

  const UNIT_HEADER_LEN: nat := 22

  function CodecToU8(codec: VideoCodec): u8 {
    match codec
    case H264 => 1
    case H265 => 2
    case Av1 => 3
  }

  function CodecFromU8(value: u8): Option<VideoCodec> {
    match value
    case 1 => Some(H264)
    case 2 => Some(H265)
    case 3 => Some(Av1)
    case _ => None
  }

  function AccessUnitBytes(u: AccessUnit): (r: seq<byte>)
    ensures |r| == UNIT_HEADER_LEN + |u.payload|
  {
    [CodecToU8(u.codec), if u.isKeyframe then 1 else 0] + LittleEndian(u.sequence, 8)
    + LittleEndian(u.presentationTimeUs, 8) + LittleEndian(|u.payload|, 4) + u.payload
  }

  method EncodeAccessUnit(u: AccessUnit) returns (out: seq<byte>)
    ensures out == AccessUnitBytes(u)
  {
    out := [CodecToU8(u.codec)];
    out := out + [if u.isKeyframe then 1 else 0];
    out := out + LittleEndian(u.sequence, 8);
    out := out + LittleEndian(u.presentationTimeUs, 8);
    out := out + LittleEndian(|u.payload|, 4);
    out := out + u.payload;
  }

  function DecodeAccessUnit(bytes: seq<byte>): Result<AccessUnit, VideoError> {
    if |bytes| < UNIT_HEADER_LEN then Err(ShortUnit)
    else if CodecFromU8(bytes[0]).None? then Err(UnknownCodec)
    else if bytes[1] > 1 then Err(InvalidKeyframeFlag)
    else
      FixedWidthParse(bytes[2..10]);
      FixedWidthParse(bytes[10..18]);
      if |bytes| != UNIT_HEADER_LEN + FromLittleEndian(bytes[18..22]) then Err(UnitLengthMismatch)
      else Ok(AccessUnit(FromLittleEndian(bytes[2..10]), CodecFromU8(bytes[0]).value,
                         FromLittleEndian(bytes[10..18]), bytes[1] == 1, bytes[UNIT_HEADER_LEN..]))
  }

  /** The decoder accepts exactly the envelopes of units whose payload length fits 32 bits, and
      inverts them; the envelope of a longer unit is refused. */
  lemma AccessUnitRoundTrip(u: AccessUnit, bytes: seq<byte>)
    ensures DecodeAccessUnit(bytes) == Ok(u) <==> |u.payload| < TWO_TO_THE_32 && bytes == AccessUnitBytes(u)
    ensures DecodeAccessUnit(AccessUnitBytes(u)).Err? <==> |u.payload| >= TWO_TO_THE_32
  {
    AccessUnitFields(u);
    if DecodeAccessUnit(bytes) == Ok(u) {
      AccessUnitImage(bytes);
    }
  }

  /** The fields of `u` at their places in `bytes`. */
  predicate LaidOut(bytes: seq<byte>, u: AccessUnit) {
    && |bytes| == UNIT_HEADER_LEN + |u.payload|
    && bytes[0] == CodecToU8(u.codec)
    && bytes[1] == (if u.isKeyframe then 1 else 0)
    && bytes[2..10] == LittleEndian(u.sequence, 8)
    && bytes[10..18] == LittleEndian(u.presentationTimeUs, 8)
    && bytes[18..22] == LittleEndian(|u.payload|, 4)
    && bytes[22..] == u.payload
  }

  lemma AccessUnitLayout(u: AccessUnit)
    ensures LaidOut(AccessUnitBytes(u), u)
  {
  }

  lemma LaidOutDecodes(bytes: seq<byte>, u: AccessUnit)
    requires LaidOut(bytes, u)
    ensures DecodeAccessUnit(bytes) == if |u.payload| < TWO_TO_THE_32 then Ok(u) else Err(UnitLengthMismatch)
  {
    FixedWidthRoundTrip(u.sequence, 8);
    FixedWidthRoundTrip(u.presentationTimeUs, 8);
    LengthTruncates(|u.payload|);
  }

  lemma AccessUnitFields(u: AccessUnit)
    ensures DecodeAccessUnit(AccessUnitBytes(u)) ==
            if |u.payload| < TWO_TO_THE_32 then Ok(u) else Err(UnitLengthMismatch)
  {
    AccessUnitLayout(u);
    LaidOutDecodes(AccessUnitBytes(u), u);
  }

  lemma DecodedLayout(bytes: seq<byte>)
    requires DecodeAccessUnit(bytes).Ok?
    ensures LaidOut(bytes, DecodeAccessUnit(bytes).value) && |DecodeAccessUnit(bytes).value.payload| < TWO_TO_THE_32
  {
    FixedWidthParse(bytes[2..10]);
    FixedWidthParse(bytes[10..18]);
    FixedWidthParse(bytes[18..22]);
  }

  lemma LayoutUnique(bytes: seq<byte>, bytes': seq<byte>, u: AccessUnit)
    requires LaidOut(bytes, u) && LaidOut(bytes', u)
    ensures bytes == bytes'
  {
    SameSlice(bytes, bytes', 2, 10);
    SameSlice(bytes, bytes', 10, 18);
    SameSlice(bytes, bytes', 18, 22);
    SameSlice(bytes, bytes', 22, |bytes|);
  }

  lemma AccessUnitImage(bytes: seq<byte>)
    requires DecodeAccessUnit(bytes).Ok?
    ensures var u := DecodeAccessUnit(bytes).value;
            |u.payload| < TWO_TO_THE_32 && bytes == AccessUnitBytes(u)
  {
    var u := DecodeAccessUnit(bytes).value;
    DecodedLayout(bytes);
    AccessUnitLayout(u);
    LayoutUnique(bytes, AccessUnitBytes(u), u);
  }

  // ---------------------------------------------------------------------------------------------
  // Packetizer and reassembler
  // ---------------------------------------------------------------------------------------------

  type Packet = TransportPacket<seq<byte>>

  function CountOf(u: AccessUnit, max: nat): nat
    requires max > 0
  {
    |Parts(AccessUnitBytes(u), max)|
  }

  function UnitFragments(u: AccessUnit, max: nat): seq<FrameFragment>
    requires max > 0 && CountOf(u, max) <= U16_MAX
  {
    FragmentsOf(u.sequence, AccessUnitBytes(u), max)
  }

  /** The packet that carries one fragment of a unit. */
  function UnitPacket(u: AccessUnit, f: FrameFragment): Packet {
    TransportPacket(u.sequence, Video, VideoFrame, u.presentationTimeUs, FragmentBytes(f))
  }

  class VideoPacketizer {
    const maxFragmentPayload: nat

    constructor (maxFragmentPayload: nat)
      ensures this.maxFragmentPayload == Max(maxFragmentPayload, 1)
    {
      this.maxFragmentPayload := Max(maxFragmentPayload, 1);
    }

    method Packetize(u: AccessUnit) returns (r: Result<seq<Packet>, FragmentError>)
      requires maxFragmentPayload > 0
      ensures r.Err? <==> CountOf(u, maxFragmentPayload) > U16_MAX
      ensures r.Ok? ==> var fragments := UnitFragments(u, maxFragmentPayload);
                        |r.value| == |fragments| && forall i :: 0 <= i < |fragments| ==> r.value[i] == UnitPacket(u, fragments[i])
    {
      var envelope := EncodeAccessUnit(u);
      FragmentsSpellPayload(u.sequence, envelope, maxFragmentPayload);
      var cut := FragmentFrame(u.sequence, envelope, maxFragmentPayload);
      if cut.Err? {
        return Err(cut.error);
      }
      var packets: seq<Packet> := [];
      for i := 0 to |cut.value|
        invariant |packets| == i && forall j :: 0 <= j < i ==> packets[j] == UnitPacket(u, cut.value[j])
      {
        var encoded := EncodeFragment(cut.value[i]);
        packets := packets + [TransportPacket(u.sequence, Video, VideoFrame, u.presentationTimeUs, encoded)];
      }
      return Ok(packets);
    }
  }

  ghost function PushPacketResult(pending: Pending, p: Packet): Result<Option<AccessUnit>, VideoError> {
    if p.channel != Video || p.messageKind != VideoFrame then Err(NotVideo)
    else if DecodeFragment(p.payload).Err? then Err(BadFragment(DecodeFragment(p.payload).error))
    else
      match PushResult(pending, DecodeFragment(p.payload).value)
      case Err(e) => Err(BadFragment(e))
      case Ok(None) => Ok(None)
      case Ok(Some(envelope)) =>
        match DecodeAccessUnit(envelope)
        case Err(e) => Err(e)
        case Ok(u) => Ok(Some(u))
  }

  ghost function AfterPushPacket(pending: Pending, p: Packet): Pending {
    if p.channel != Video || p.messageKind != VideoFrame || DecodeFragment(p.payload).Err? then pending
    else AfterPush(pending, DecodeFragment(p.payload).value)
  }

  /** Only video frames on the video channel are looked at. */
  lemma OnlyVideoPushed(pending: Pending, p: Packet)
    ensures PushPacketResult(pending, p) == Err(NotVideo) <==> !(p.channel == Video && p.messageKind == VideoFrame)
    ensures p.channel != Video || p.messageKind != VideoFrame ==> AfterPushPacket(pending, p) == pending
  {
  }

  class VideoReassembler {
    const fragments: FrameReassembler

    ghost predicate Valid()
      reads this, fragments
    {
      fragments.Valid()
    }

    constructor ()
      ensures Valid() && fresh(fragments) && fragments.pending == map[]
    {
      fragments := new FrameReassembler();
    }

    method PushPacket(p: Packet) returns (r: Result<Option<AccessUnit>, VideoError>)
      requires Valid()
      modifies fragments
      ensures Valid()
      ensures r == PushPacketResult(old(fragments.pending), p)
      ensures fragments.pending == AfterPushPacket(old(fragments.pending), p)
    {
      if p.channel != Video || p.messageKind != VideoFrame {
        return Err(NotVideo);
      }
      var fragment := DecodeFragment(p.payload);
      if fragment.Err? {
        return Err(BadFragment(fragment.error));
      }
      var envelope := fragments.Push(fragment.value);
      if envelope.Err? {
        return Err(BadFragment(envelope.error));
      }
      if envelope.value.None? {
        return Ok(None);
      }
      var unit := DecodeAccessUnit(envelope.value.value);
      if unit.Err? {
        return Err(unit.error);
      }
      return Ok(Some(unit.value));
    }
  }

  // ---------------------------------------------------------------------------------------------
  // End to end
  // ---------------------------------------------------------------------------------------------

  /** A unit the sender can put on the wire with fragments of at most `max` bytes. */
  predicate Sendable(u: AccessUnit, max: nat) {
    && max > 0
    && |u.payload| < TWO_TO_THE_32
    && CountOf(u, max) <= U16_MAX
    && FRAGMENT_HEADER_LEN + Min(max, UNIT_HEADER_LEN + |u.payload|) <= MAX_DATAGRAM_PAYLOAD
  }

  /** Units under distinct sequence numbers, each with the fragment size it was cut with. */
  datatype Stream = Stream(units: map<u64, AccessUnit>, sizes: map<u64, nat>)

  ghost predicate ValidStream(v: Stream) {
    && v.units.Keys == v.sizes.Keys
    && forall s :: s in v.units ==> v.units[s].sequence == s && Sendable(v.units[s], v.sizes[s])
  }

  ghost function StreamFrames(v: Stream): Frames
    requires ValidStream(v)
  {
    map s | s in v.units :: UnitFragments(v.units[s], v.sizes[s])
  }

  ghost function Envelopes(v: Stream): map<u64, seq<byte>> {
    map s | s in v.units :: AccessUnitBytes(v.units[s])
  }

  /** The datagram that carries an arriving fragment. */
  ghost function DatagramOf(v: Stream, a: Arrival, crc: Crc): seq<byte>
    requires ValidStream(v) && Arrives(StreamFrames(v), a)
  {
    PacketBytes(UnitPacket(v.units[a.sequence], StreamFrames(v)[a.sequence][a.index]), crc)
  }

  /** The reassembler after decoding and pushing a sequence of datagrams. */
  ghost function ReceiverAfter(v: Stream, d: seq<Arrival>, crc: Crc): Pending
    requires ValidStream(v) && Delivery(StreamFrames(v), d)
  {
    if d == [] then map[]
    else
      assert Arrives(StreamFrames(v), d[|d| - 1]);
      var before := ReceiverAfter(v, d[..|d| - 1], crc);
      match DecodePacket(DatagramOf(v, d[|d| - 1], crc), crc)
      case Err(_) => before
      case Ok(p) => AfterPushPacket(before, p)
  }

  /** Over every delivery of the datagrams of any stream, whatever is lost, repeated, reordered or
      interleaved: each datagram decodes, and pushing it yields its access unit, field for field,
      exactly when it completes the unit's fragments, and nothing otherwise. */
  lemma EndToEnd(v: Stream, d: seq<Arrival>, a: Arrival, crc: Crc)
    requires ValidStream(v)
    requires Delivery(StreamFrames(v), d) && Arrives(StreamFrames(v), a)
    ensures var decoded := DecodePacket(DatagramOf(v, a, crc), crc);
            decoded.Ok? &&
            PushPacketResult(ReceiverAfter(v, d, crc), decoded.value)
            == Ok(if Completes(StreamFrames(v), d, a) then Some(v.units[a.sequence]) else None)
  {
    var frames, u := StreamFrames(v), v.units[a.sequence];
    StreamIsCut(v);
    ReceiverIsReassembler(v, d, crc);
    Reassembly(frames, Envelopes(v), d, a);
    DatagramDecodes(v, a, crc);
    AccessUnitRoundTrip(u, AccessUnitBytes(u));
  }

  lemma StreamIsCut(v: Stream)
    requires ValidStream(v)
    ensures CutFrames(StreamFrames(v), Envelopes(v))
  {
    forall s | s in StreamFrames(v)
      ensures CutOf(StreamFrames(v)[s], s, Envelopes(v)[s])
    {
      FragmentsSpellPayload(s, AccessUnitBytes(v.units[s]), v.sizes[s]);
    }
  }

  /** Every datagram of the stream decodes to its packet, and the packet to its fragment. */
  lemma DatagramDecodes(v: Stream, a: Arrival, crc: Crc)
    requires ValidStream(v) && Arrives(StreamFrames(v), a)
    ensures var f := StreamFrames(v)[a.sequence][a.index];
            && DecodePacket(DatagramOf(v, a, crc), crc) == Ok(UnitPacket(v.units[a.sequence], f))
            && DecodeFragment(FragmentBytes(f)) == Ok(f)
  {
    var u, f := v.units[a.sequence], StreamFrames(v)[a.sequence][a.index];
    FragmentsSpellPayload(u.sequence, AccessUnitBytes(u), v.sizes[a.sequence]);
    PartsNoLongerThanPayload(AccessUnitBytes(u), v.sizes[a.sequence], a.index);
    PacketRoundTrip(UnitPacket(u, f), DatagramOf(v, a, crc), crc);
    FragmentRoundTrip(f, FragmentBytes(f));
  }

  /** A packet's datagram decodes exactly when the encoder does not refuse the packet. */
  lemma DecodesIfNotRefused(p: Packet, crc: Crc)
    ensures DecodePacket(PacketBytes(p, crc), crc).Ok? <==> |p.payload| <= MAX_DATAGRAM_PAYLOAD
  {
    var decoded := DecodePacket(PacketBytes(p, crc), crc);
    PacketRoundTrip(p, PacketBytes(p, crc), crc);
    if decoded.Ok? {
      PacketRoundTrip(decoded.value, PacketBytes(p, crc), crc);
    }
  }

  lemma FirstPart(payload: seq<byte>, max: nat)
    requires max > 0
    ensures Parts(payload, max) != [] && |Parts(payload, max)[0]| == Min(max, |payload|)
  {
    PartsCoverPayload(payload, max);
    var parts := Parts(payload, max);
    if |parts| == 1 {
      assert parts == [parts[0]];
      assert Concat(parts) == parts[0] + Concat([]);
    } else {
      PartOfConcat(parts, 0);
    }
  }

  /** All datagrams of a unit decode, and the encoder refuses none, exactly when its largest fragment,
      the first, fits a datagram. */
  lemma FitsExactly(u: AccessUnit, max: nat, crc: Crc)
    requires max > 0 && CountOf(u, max) <= U16_MAX
    ensures (forall i :: 0 <= i < |UnitFragments(u, max)| ==> DecodePacket(PacketBytes(UnitPacket(u, UnitFragments(u, max)[i]), crc), crc).Ok?)
            <==> FRAGMENT_HEADER_LEN + Min(max, UNIT_HEADER_LEN + |u.payload|) <= MAX_DATAGRAM_PAYLOAD
  {
    var fragments, envelope := UnitFragments(u, max), AccessUnitBytes(u);
    FirstPart(envelope, max);
    DecodesIfNotRefused(UnitPacket(u, fragments[0]), crc);
    forall i | 0 <= i < |fragments|
      ensures |UnitPacket(u, fragments[i]).payload| <= |UnitPacket(u, fragments[0]).payload|
      ensures DecodePacket(PacketBytes(UnitPacket(u, fragments[i]), crc), crc).Ok? <==> |UnitPacket(u, fragments[i]).payload| <= MAX_DATAGRAM_PAYLOAD
    {
      PartsNoLongerThanPayload(envelope, max, i);
      DecodesIfNotRefused(UnitPacket(u, fragments[i]), crc);
    }
  }

  lemma PartsNoLongerThanPayload(payload: seq<byte>, max: nat, i: nat)
    requires max > 0 && i < |Parts(payload, max)|
    ensures |Parts(payload, max)[i]| <= Min(max, |payload|)
  {
    PartsCoverPayload(payload, max);
    PartOfConcat(Parts(payload, max), i);
  }

  lemma {:induction false} PartOfConcat(parts: seq<seq<byte>>, i: nat)
    requires i < |parts|
    ensures |parts[i]| <= |Concat(parts)|
  {
    if i > 0 {
      PartOfConcat(parts[1..], i - 1);
    }
  }

  lemma {:induction false} ReceiverIsReassembler(v: Stream, d: seq<Arrival>, crc: Crc)
    requires ValidStream(v) && Delivery(StreamFrames(v), d)
    ensures ReceiverAfter(v, d, crc) == PendingAfter(StreamFrames(v), d)
  {
    if d != [] {
      assert Arrives(StreamFrames(v), d[|d| - 1]);
      ReceiverIsReassembler(v, d[..|d| - 1], crc);
      DatagramDecodes(v, d[|d| - 1], crc);
    }
  }
}
