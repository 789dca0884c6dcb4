/** The Swift sender of the macOS host, which must put the same datagrams on the wire as the Rust one. */
module MacVideo {
  import opened Bytes
  import opened Wrappers
  import opened Transport
  import opened Media
  import opened Fragment
  import opened Datagram
  import opened Video

  type i64 = n: int | -0x8000_0000_0000_0000 <= n < 0x8000_0000_0000_0000

  datatype MacEncodedFrame = MacEncodedFrame(sequence: i64, presentationTimeUs: i64, isKeyframe: bool, payload: seq<byte>)

  datatype MacDatagram = MacDatagram(frameSequence: u64, fragmentIndex: u16, fragmentCount: u16, bytes: seq<byte>)

  datatype MacPacketizerError = InvalidSequence | FrameTooLarge

  /** The access unit a frame stands for; times before the epoch count as zero. */
  function UnitOf(frame: MacEncodedFrame, codec: VideoCodec): AccessUnit
    requires frame.sequence > 0
  {
    AccessUnit(frame.sequence, codec, Max(0, frame.presentationTimeUs), frame.isKeyframe, frame.payload)
  }

  class MacVideoTransportPacketizer {
    const maxFragmentPayload: nat
    const crc: Crc

    constructor (maxFragmentPayload: int, crc: Crc)
      ensures this.maxFragmentPayload == Max(1, maxFragmentPayload) && this.crc == crc
    {
      this.maxFragmentPayload := Max(1, maxFragmentPayload);
      this.crc := crc;
    }

    /** Frames of 2^32 bytes and more trap in the length conversion, so none is passed in. The
        datagrams are, one for one, the encodings of the packets the Rust packetizer makes. The Rust
        encoder refuses those over 60,000 bytes and this one does not: they decode exactly when the
        largest fragment fits. */
    method Packetize(frame: MacEncodedFrame, codec: VideoCodec) returns (r: Result<seq<MacDatagram>, MacPacketizerError>)
      requires maxFragmentPayload > 0
      requires |frame.payload| < TWO_TO_THE_32
      ensures r.Err? && r.error == InvalidSequence <==> frame.sequence <= 0
      ensures r.Err? && r.error == FrameTooLarge <==>
              frame.sequence > 0 && CountOf(UnitOf(frame, codec), maxFragmentPayload) > U16_MAX
      ensures r.Ok? ==>
        var u := UnitOf(frame, codec);
        var fragments := UnitFragments(u, maxFragmentPayload);
        && |r.value| == |fragments|
        && forall i :: 0 <= i < |fragments| ==>
             r.value[i] == MacDatagram(u.sequence, i, |fragments|, PacketBytes(UnitPacket(u, fragments[i]), crc))
      ensures r.Ok? ==>
        ((forall i :: 0 <= i < |r.value| ==> DecodePacket(r.value[i].bytes, crc).Ok?) <==>
         FRAGMENT_HEADER_LEN + Min(maxFragmentPayload, UNIT_HEADER_LEN + |frame.payload|) <= MAX_DATAGRAM_PAYLOAD)
    {
      if frame.sequence <= 0 {
        return Err(InvalidSequence);
      }
      var accessUnit := EncodeAccessUnit(frame, frame.sequence, codec);
      var cut := FragmentPayload(frame.sequence, accessUnit);
      if cut.None? {
        return Err(FrameTooLarge);
      }
      ghost var u := UnitOf(frame, codec);
      var datagrams: seq<MacDatagram> := [];
      for i := 0 to |cut.value|
        invariant |datagrams| == i
        invariant forall j :: 0 <= j < i ==>
          datagrams[j] == MacDatagram(u.sequence, j, |cut.value|,
                                      PacketBytes(UnitPacket(u, UnitFragments(u, maxFragmentPayload)[j]), crc))
      {
        var (index, count, bytes) := cut.value[i];
        var encoded := EncodeVideoDatagram(frame.sequence, Max(0, frame.presentationTimeUs), bytes);
        datagrams := datagrams + [MacDatagram(frame.sequence, index, count, encoded)];
      }
      FitsExactly(u, maxFragmentPayload, crc);
      return Ok(datagrams);
    }

    method EncodeAccessUnit(frame: MacEncodedFrame, frameSequence: u64, codec: VideoCodec) returns (out: seq<byte>)
      requires frameSequence == frame.sequence > 0
      ensures out == AccessUnitBytes(UnitOf(frame, codec))
    {
      out := [CodecToU8(codec)];
      out := out + [if frame.isKeyframe then 1 else 0];
      out := out + LittleEndian(frameSequence, 8);
      out := out + LittleEndian(Max(0, frame.presentationTimeUs), 8);
      out := out + LittleEndian(|frame.payload|, 4);
      out := out + frame.payload;
    }

    method FragmentPayload(frameSequence: u64, payload: seq<byte>) returns (r: Option<seq<(u16, u16, seq<byte>)>>)
      requires maxFragmentPayload > 0
      ensures r.Some? <==> |Parts(payload, maxFragmentPayload)| <= U16_MAX
      ensures r.Some? ==>
        var fragments := FragmentsOf(frameSequence, payload, maxFragmentPayload);
        |r.value| == |fragments| && forall i :: 0 <= i < |fragments| ==> r.value[i] == (i, |fragments|, FragmentBytes(fragments[i]))
    {
      var fragmentCount := Max(1, (|payload| + maxFragmentPayload - 1) / maxFragmentPayload);
      PartsCoverPayload(payload, maxFragmentPayload);
      assert fragmentCount == |Parts(payload, maxFragmentPayload)|;
      if fragmentCount > U16_MAX {
        return None;
      }
      if payload == [] {
        var only := EncodeFragment(FrameFragment(frameSequence, 0, 1, []));
        return Some([(0, 1, only)]);
      }
      var fragments: seq<(u16, u16, seq<byte>)> := [];
      for index := 0 to fragmentCount
        invariant |fragments| == index
        invariant forall i :: 0 <= i < index ==>
          fragments[i] == (i, fragmentCount, FragmentBytes(FragmentsOf(frameSequence, payload, maxFragmentPayload)[i]))
      {
        var start := index * maxFragmentPayload;
        var end := Min(|payload|, start + maxFragmentPayload);
        ChunkAt(payload, maxFragmentPayload, index);
        var chunk := payload[start..end];
        var encoded := EncodeFragment(FrameFragment(frameSequence, index, fragmentCount, chunk));
        fragments := fragments + [(index, fragmentCount, encoded)];
      }
      return Some(fragments);
    }

    method EncodeFragment(f: FrameFragment) returns (out: seq<byte>)
      ensures out == FragmentBytes(f)
    {
      out := [0x47, 0x4c, 0x59, 0x46];
      out := out + LittleEndian(f.frameSequence, 8);
      out := out + LittleEndian(f.fragmentIndex, 2);
      out := out + LittleEndian(f.fragmentCount, 2);
      out := out + LittleEndian(|f.payload|, 4);
      out := out + f.payload;
    }

    method EncodeVideoDatagram(frameSequence: u64, presentationTimeUs: u64, fragmentPayload: seq<byte>) returns (out: seq<byte>)
      ensures out == PacketBytes(TransportPacket(frameSequence, Video, VideoFrame, presentationTimeUs, fragmentPayload), crc)
    {
      out := [0x47, 0x4c, 0x59, 0x54];
      out := out + LittleEndian(1, 2);
      out := out + [1];
      out := out + LittleEndian(9, 2);
      out := out + LittleEndian(frameSequence, 8);
      out := out + LittleEndian(presentationTimeUs, 8);
      out := out + LittleEndian(|fragmentPayload|, 4);
      out := out + LittleEndian(crc(fragmentPayload), 4);
      out := out + fragmentPayload;
    }
  }

  /** The `i`-th chunk lies at offset `i * max`. */
  lemma {:induction false} ChunkAt(payload: seq<byte>, max: nat, i: nat)
    requires max > 0 && i < |Chunks(payload, max)|
    ensures 0 <= i * max < |payload|
    ensures Chunks(payload, max)[i] == payload[i * max..Min(|payload|, i * max + max)]
    decreases i
  {
    var size := Min(max, |payload|);
    if i > 0 {
      var rest := payload[size..];
      ChunkAt(rest, max, i - 1);
      assert (i - 1) * max + max == i * max;
      assert Chunks(payload, max)[i] == Chunks(rest, max)[i - 1];
    }
  }
}
