/**
 What each decoder refuses, and with which error: the first of the checks that fails, on the bytes
 themselves.
 */
module WireErrors {
  import opened Bytes
  import opened Wrappers
  import opened WireForms
  import Datagram
  import Fragment
  import Video
  import ProtocolFrame
  import SecureChannel
  import SessionWire
  import StylusWire

  function WhyNotDatagram(b: seq<byte>, crc: Datagram.Crc): Option<Datagram.DatagramError> {
    if |b| < 33 then Some(Datagram.ShortDatagram)
    else if b[..4] != [71, 76, 89, 84] then Some(Datagram.BadMagic)
    else if Number(b, 4, 2) != 1 then Some(Datagram.UnsupportedVersion)
    else if b[6] < 1 || b[6] > 4 then Some(Datagram.UnknownChannel)
    else if Number(b, 7, 2) < 1 || Number(b, 7, 2) > 23 then Some(Datagram.UnknownKind)
    else if Number(b, 25, 4) > 60_000 then Some(Datagram.PayloadTooLarge)
    else if |b| != 33 + Number(b, 25, 4) then Some(Datagram.LengthMismatch)
    else if Number(b, 29, 4) != crc(b[33..]) then Some(Datagram.ChecksumMismatch)
    else None
  }

  lemma DatagramRefused(b: seq<byte>, crc: Datagram.Crc)
    ensures var why := WhyNotDatagram(b, crc);
            if why.Some? then Datagram.DecodePacket(b, crc) == Err(why.value) else Datagram.DecodePacket(b, crc).Ok?
  {
    if |b| >= 33 {
      NumberParses(b, 4, 2);
      NumberParses(b, 7, 2);
      NumberParses(b, 25, 4);
      NumberParses(b, 29, 4);
    }
  }

  function WhyNotFragment(b: seq<byte>): Option<Fragment.FragmentError> {
    if |b| < 20 then Some(Fragment.ShortFragment)
    else if b[..4] != [71, 76, 89, 70] then Some(Fragment.BadMagic)
    else if Number(b, 12, 2) >= Number(b, 14, 2) then Some(Fragment.InvalidIndex)
    else if |b| != 20 + Number(b, 16, 4) then Some(Fragment.LengthMismatch)
    else None
  }

  lemma FragmentRefused(b: seq<byte>)
    ensures var why := WhyNotFragment(b);
            if why.Some? then Fragment.DecodeFragment(b) == Err(why.value) else Fragment.DecodeFragment(b).Ok?
  {
    if |b| >= 20 {
      NumberParses(b, 12, 2);
      NumberParses(b, 14, 2);
      NumberParses(b, 16, 4);
    }
  }

  function WhyNotUnit(b: seq<byte>): Option<Video.VideoError> {
    if |b| < 22 then Some(Video.ShortUnit)
    else if b[0] < 1 || b[0] > 3 then Some(Video.UnknownCodec)
    else if b[1] > 1 then Some(Video.InvalidKeyframeFlag)
    else if |b| != 22 + Number(b, 18, 4) then Some(Video.UnitLengthMismatch)
    else None
  }

  lemma UnitRefused(b: seq<byte>)
    ensures var why := WhyNotUnit(b);
            if why.Some? then Video.DecodeAccessUnit(b) == Err(why.value) else Video.DecodeAccessUnit(b).Ok?
  {
    if |b| >= 22 {
      NumberParses(b, 18, 4);
    }
  }

  /** A frame whose bytes are in order may still not deserialize, or be of another kind than it says. */
  function WhyNotFrame<M>(b: seq<byte>, codec: ProtocolFrame.MessageCodec<M>, crc: Datagram.Crc): Option<ProtocolFrame.FrameError> {
    if |b| < 24 then Some(ProtocolFrame.ShortFrame)
    else if b[..4] != [71, 76, 89, 82] then Some(ProtocolFrame.InvalidMagic)
    else if Number(b, 4, 2) != 1 then Some(ProtocolFrame.WrongVersion)
    else if Number(b, 6, 2) < 1 || Number(b, 6, 2) > 23 then Some(ProtocolFrame.Serialization)
    else if Number(b, 16, 4) > 16 * 1024 * 1024 then Some(ProtocolFrame.FramePayloadTooLarge)
    else if |b| != 24 + Number(b, 16, 4) then Some(ProtocolFrame.FrameLengthMismatch)
    else if Number(b, 20, 4) != crc(b[24..]) then Some(ProtocolFrame.FrameChecksumMismatch)
    else if codec.deserialize(b[24..]).None? then Some(ProtocolFrame.Serialization)
    else if Datagram.KindToU16(codec.kind(codec.deserialize(b[24..]).value)) != Number(b, 6, 2) then Some(ProtocolFrame.KindMismatch)
    else None
  }

  lemma FrameRefused<M>(b: seq<byte>, codec: ProtocolFrame.MessageCodec<M>, crc: Datagram.Crc)
    ensures var why := WhyNotFrame(b, codec, crc);
            if why.Some? then ProtocolFrame.DecodeFrame(b, codec, crc) == Err(why.value) else ProtocolFrame.DecodeFrame(b, codec, crc).Ok?
  {
    if |b| >= 24 {
      NumberParses(b, 4, 2);
      NumberParses(b, 6, 2);
      NumberParses(b, 16, 4);
      NumberParses(b, 20, 4);
      if codec.deserialize(b[24..]).Some? {
        Datagram.KindRoundTrip(codec.kind(codec.deserialize(b[24..]).value), Number(b, 6, 2));
      }
    }
  }

  function WhyNotSealed(b: seq<byte>): Option<SecureChannel.WireError> {
    if |b| < 18 then Some(SecureChannel.ShortDatagram)
    else if b[..4] != [71, 76, 89, 69] then Some(SecureChannel.BadMagic)
    else if Number(b, 4, 2) != 1 then Some(SecureChannel.UnsupportedVersion)
    else if Number(b, 14, 4) > 64 * 1024 || |b| != 18 + Number(b, 14, 4) then Some(SecureChannel.LengthMismatch)
    else None
  }

  lemma SealedRefused(b: seq<byte>)
    ensures var why := WhyNotSealed(b);
            if why.Some? then SecureChannel.DecodeSealedDatagram(b) == Err(why.value) else SecureChannel.DecodeSealedDatagram(b).Ok?
  {
    if |b| >= 18 {
      NumberParses(b, 4, 2);
      NumberParses(b, 14, 4);
    }
  }

  /** The head of a handshake message. */
  lemma HandshakeHeadRefused(b: seq<byte>, messageType: u8)
    ensures SessionWire.HeaderError(b, messageType)
            == if |b| < 8 then Some(SessionWire.ShortPacket)
               else if b[..4] != [71, 76, 89, 72] then Some(SessionWire.InvalidMagic)
               else if Number(b, 4, 2) != 1 then Some(SessionWire.UnsupportedVersion)
               else if b[6] != messageType then Some(SessionWire.UnexpectedType)
               else None
  {
    if |b| >= 8 {
      NumberParses(b, 4, 2);
    }
  }

  /** The head of a stylus batch; and a sample, whose tool and action must be known, the tool first. */
  lemma BatchHeadRefused(b: seq<byte>)
    ensures StylusWire.HeaderError(b)
            == if |b| < 28 then Some(StylusWire.ShortPacket)
               else if b[..4] != [71, 76, 89, 83] then Some(StylusWire.InvalidMagic)
               else if Number(b, 4, 2) != 1 then Some(StylusWire.UnsupportedVersion)
               else if |b| != 28 + 58 * Number(b, 22, 2) then Some(StylusWire.LengthMismatch)
               else None
  {
    if |b| >= 28 {
      NumberParses(b, 4, 2);
      NumberParses(b, 22, 2);
    }
  }

  lemma SampleRefused(b: seq<byte>)
    requires |b| >= 58
    ensures if b[24] > 4 then StylusWire.ReadSample(b) == Err(StylusWire.UnknownToolType(b[24]))
            else if b[25] > 6 then StylusWire.ReadSample(b) == Err(StylusWire.UnknownAction(b[25]))
            else StylusWire.ReadSample(b).Ok?
  {
  }

  predicate SampleKnown(b: seq<byte>, k: nat)
    requires 58 * k + 58 <= |b|
  {
    b[58 * k + 24] <= 4 && b[58 * k + 25] <= 6
  }

  lemma KnownLater(b: seq<byte>, k: nat)
    requires 58 * k + 116 <= |b|
    ensures SampleKnown(b[58..], k) <==> SampleKnown(b, k + 1)
  {
  }

  /** A batch is refused for its head, or for a sample that is. */
  lemma {:induction false} SamplesRefused(b: seq<byte>, n: nat)
    requires |b| == 58 * n
    ensures StylusWire.ReadSamples(b, n).Ok? <==> forall k :: 0 <= k < n ==> SampleKnown(b, k)
    decreases n
  {
    if n > 0 {
      SampleRefused(b);
      SamplesRefused(b[58..], n - 1);
      forall k | 0 <= k < n - 1
        ensures SampleKnown(b[58..], k) <==> SampleKnown(b, k + 1)
      {
        KnownLater(b, k);
      }
      Shifted(b, n);
      assert SampleKnown(b, 0) <==> b[24] <= 4 && b[25] <= 6;
    }
  }

  lemma Shifted(b: seq<byte>, n: nat)
    requires |b| == 58 * n && n > 0
    requires forall k :: 0 <= k < n - 1 ==> (SampleKnown(b[58..], k) <==> SampleKnown(b, k + 1))
    ensures (forall k :: 0 <= k < n ==> SampleKnown(b, k)) <==> SampleKnown(b, 0) && forall k :: 0 <= k < n - 1 ==> SampleKnown(b[58..], k)
  {
    if SampleKnown(b, 0) && forall k :: 0 <= k < n - 1 ==> SampleKnown(b[58..], k) {
      forall k | 0 <= k < n
        ensures SampleKnown(b, k)
      {
        if k > 0 {
          assert SampleKnown(b[58..], k - 1) <==> SampleKnown(b, k - 1 + 1);
        }
      }
    }
    if forall k :: 0 <= k < n ==> SampleKnown(b, k) {
      forall k | 0 <= k < n - 1
        ensures SampleKnown(b[58..], k)
      {
        assert SampleKnown(b, k + 1);
      }
    }
  }
}
