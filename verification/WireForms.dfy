/**
 The wire forms byte by byte: which number stands where in each, read as plain little-endian arithmetic.
 Other implementations read and write these places.
 */
module WireForms {
  import opened Bytes
  import opened Transport
  import Datagram
  import Fragment
  import Video
  import ProtocolFrame
  import SecureChannel
  import opened SessionWire
  import StylusWire

  /** The number in the `n` bytes from `i` on, least significant first. */
  function Number(bytes: seq<byte>, i: nat, n: nat): nat
    requires i + n <= |bytes|
    decreases n
  {
    if n == 0 then 0 else bytes[i] + 256 * Number(bytes, i + 1, n - 1)
  }

  lemma {:induction false} NumberParses(bytes: seq<byte>, i: nat, n: nat)
    requires i + n <= |bytes|
    ensures Number(bytes, i, n) == FromLittleEndian(bytes[i..i + n])
    decreases n
  {
    if n > 0 {
      NumberParses(bytes, i + 1, n - 1);
      assert bytes[i..i + n][1..] == bytes[i + 1..i + n];
    }
  }

  predicate Fits(v: nat, n: nat) {
    (n == 2 && v < 0x1_0000) || (n == 4 && v < TWO_TO_THE_32) || (n == 8 && v < TWO_TO_THE_64)
  }

  lemma NumberIs(bytes: seq<byte>, i: nat, n: nat, v: nat)
    requires i + n <= |bytes| && bytes[i..i + n] == LittleEndian(v, n) && Fits(v, n)
    ensures Number(bytes, i, n) == v
  {
    NumberParses(bytes, i, n);
    FixedWidthRoundTrip(v, n);
  }

  /** A datagram: "GLYT", version 1, channel, kind, sequence, time, length, checksum, payload. */
  lemma DatagramForm(p: Datagram.Packet, crc: Datagram.Crc)
    requires |p.payload| <= 60_000
    ensures var b := Datagram.PacketBytes(p, crc);
            && |b| == 33 + |p.payload| && b[..4] == [71, 76, 89, 84] && Number(b, 4, 2) == 1
            && b[6] == (match p.channel case Video => 1 case Audio => 2 case Input => 3 case Control => 4)
            && Number(b, 7, 2) == Datagram.KindToU16(p.messageKind)
            && Number(b, 9, 8) == p.sequence && Number(b, 17, 8) == p.enqueueTimestampUs
            && Number(b, 25, 4) == |p.payload| && Number(b, 29, 4) == crc(p.payload) && b[33..] == p.payload
  {
    var b := Datagram.PacketBytes(p, crc);
    Datagram.HeadLayout(p, crc);
    Datagram.TimesLayout(p, crc);
    Datagram.TailLayout(p, crc);
    NumberIs(b, 4, 2, 1);
    NumberIs(b, 7, 2, Datagram.KindToU16(p.messageKind));
    NumberIs(b, 9, 8, p.sequence);
    NumberIs(b, 17, 8, p.enqueueTimestampUs);
    NumberIs(b, 25, 4, |p.payload|);
    NumberIs(b, 29, 4, crc(p.payload));
  }

  /** A fragment: "GLYF", frame, index, count, length, payload. */
  lemma FragmentForm(f: Fragment.FrameFragment)
    requires |f.payload| < TWO_TO_THE_32
    ensures var b := Fragment.FragmentBytes(f);
            && |b| == 20 + |f.payload| && b[..4] == [71, 76, 89, 70]
            && Number(b, 4, 8) == f.frameSequence && Number(b, 12, 2) == f.fragmentIndex && Number(b, 14, 2) == f.fragmentCount
            && Number(b, 16, 4) == |f.payload| && b[20..] == f.payload
  {
    var b := Fragment.FragmentBytes(f);
    Fragment.FragmentLayout(f);
    NumberIs(b, 4, 8, f.frameSequence);
    NumberIs(b, 12, 2, f.fragmentIndex);
    NumberIs(b, 14, 2, f.fragmentCount);
    NumberIs(b, 16, 4, |f.payload|);
  }

  /** A video unit: codec, key-frame flag, sequence, time, length, payload. */
  lemma UnitForm(u: Video.AccessUnit)
    requires |u.payload| < TWO_TO_THE_32
    ensures var b := Video.AccessUnitBytes(u);
            && |b| == 22 + |u.payload|
            && b[0] == (match u.codec case H264 => 1 case H265 => 2 case Av1 => 3) && b[1] == (if u.isKeyframe then 1 else 0)
            && Number(b, 2, 8) == u.sequence && Number(b, 10, 8) == u.presentationTimeUs
            && Number(b, 18, 4) == |u.payload| && b[22..] == u.payload
  {
    var b := Video.AccessUnitBytes(u);
    Video.AccessUnitLayout(u);
    NumberIs(b, 2, 8, u.sequence);
    NumberIs(b, 10, 8, u.presentationTimeUs);
    NumberIs(b, 18, 4, |u.payload|);
  }

  /** A protocol frame: "GLYR", version 1, kind, sequence, length, checksum, payload. */
  lemma FrameForm(sequence: u64, kind: MessageKind, payload: seq<byte>, crc: Datagram.Crc)
    requires |payload| <= 16 * 1024 * 1024
    ensures var b := ProtocolFrame.FrameBytes(sequence, kind, payload, crc);
            && |b| == 24 + |payload| && b[..4] == [71, 76, 89, 82] && Number(b, 4, 2) == 1
            && Number(b, 6, 2) == Datagram.KindToU16(kind) && Number(b, 8, 8) == sequence
            && Number(b, 16, 4) == |payload| && Number(b, 20, 4) == crc(payload) && b[24..] == payload
  {
    var b := ProtocolFrame.FrameBytes(sequence, kind, payload, crc);
    ProtocolFrame.FrameLayout(sequence, kind, payload, crc);
    NumberIs(b, 4, 2, 1);
    NumberIs(b, 6, 2, Datagram.KindToU16(kind));
    NumberIs(b, 8, 8, sequence);
    NumberIs(b, 16, 4, |payload|);
    NumberIs(b, 20, 4, crc(payload));
  }

  /** A sealed datagram: "GLYE", version 1, counter, length, ciphertext. */
  lemma SealedForm(packet: SecureChannel.WirePacket)
    requires |packet.ciphertext| <= 64 * 1024
    ensures var b := SecureChannel.SealedBytes(packet);
            && |b| == 18 + |packet.ciphertext| && b[..4] == [71, 76, 89, 69] && Number(b, 4, 2) == 1
            && Number(b, 6, 8) == packet.counter && Number(b, 14, 4) == |packet.ciphertext| && b[18..] == packet.ciphertext
  {
    var b := SecureChannel.SealedBytes(packet);
    assert b[4..6] == LittleEndian(1, 2) && b[6..14] == LittleEndian(packet.counter, 8) && b[14..18] == LittleEndian(|packet.ciphertext|, 4);
    NumberIs(b, 4, 2, 1);
    NumberIs(b, 6, 8, packet.counter);
    NumberIs(b, 14, 4, |packet.ciphertext|);
  }

  /** The head of a stylus batch: "GLYS", version 1, sequence, time, number of samples, four zeros. */
  lemma BatchHeadForm(batch: StylusWire.StylusBatch)
    requires |batch.samples| <= U16_MAX
    ensures var b := StylusWire.HeaderBytes(batch);
            && |b| == 28 && b[..4] == [71, 76, 89, 83] && Number(b, 4, 2) == 1
            && Number(b, 6, 8) == batch.batchSequence && Number(b, 14, 8) == batch.monotonicTimestampUs
            && Number(b, 22, 2) == |batch.samples| && b[24..] == [0, 0, 0, 0]
  {
    var b := StylusWire.HeaderBytes(batch);
    StylusWire.HeaderLayout(batch);
    NumberIs(b, 4, 2, 1);
    NumberIs(b, 6, 8, batch.batchSequence);
    NumberIs(b, 14, 8, batch.monotonicTimestampUs);
    NumberIs(b, 22, 2, |batch.samples|);
  }

  lemma PartsAt(a: seq<byte>, b: seq<byte>, c: seq<byte>, i: nat, j: nat)
    requires i <= j
    ensures j <= |a| ==> (a + b + c)[i..j] == a[i..j]
    ensures |a| <= i && j <= |a| + |b| ==> (a + b + c)[i..j] == b[i - |a|..j - |a|]
    ensures |a| + |b| <= i && j <= |a| + |b| + |c| ==> (a + b + c)[i..j] == c[i - |a| - |b|..j - |a| - |b|]
  {
  }

  lemma IdentityForm(s: StylusWire.StylusSample)
    ensures var b := StylusWire.Identity(s);
            && b[0..8] == LittleEndian(s.sequence, 8) && b[8..16] == LittleEndian(s.timestampUs, 8)
            && b[16..20] == LittleEndian(s.displayId, 4) && b[20..24] == LittleEndian(s.pointerId, 4)
            && b[24] == StylusWire.ToolToU8(s.toolType) && b[25] == StylusWire.ActionToU8(s.action)
  {
  }

  lemma PoseForm(s: StylusWire.StylusSample)
    ensures var b := StylusWire.Pose(s);
            && b[0..4] == LittleEndian(s.x, 4) && b[4..8] == LittleEndian(s.y, 4) && b[8..12] == LittleEndian(s.pressure, 4)
            && b[12..16] == LittleEndian(s.tiltX, 4) && b[16..20] == LittleEndian(s.tiltY, 4) && b[20..24] == LittleEndian(s.orientation, 4)
  {
  }

  lemma SwitchesForm(s: StylusWire.StylusSample)
    ensures var b := StylusWire.Switches(s);
            && b[0..4] == LittleEndian(s.buttonFlags, 4) && b[5..] == [0, 0, 0]
            && b[4] == (if s.hover then 1 else 0) + (if s.eraser then 2 else 0) + (if s.predicted then 4 else 0)
  {
  }

  /** A stylus sample: sequence, time, display, pointer, tool, action, position, pressure, tilts,
      orientation, buttons, and a byte of flags. */
  lemma SampleForm(s: StylusWire.StylusSample)
    ensures var b := StylusWire.SampleBytes(s);
            && |b| == 58 && Number(b, 0, 8) == s.sequence && Number(b, 8, 8) == s.timestampUs
            && Number(b, 16, 4) == s.displayId && Number(b, 20, 4) == s.pointerId
            && Number(b, 26, 4) == s.x && Number(b, 30, 4) == s.y && Number(b, 34, 4) == s.pressure
            && Number(b, 38, 4) == s.tiltX && Number(b, 42, 4) == s.tiltY && Number(b, 46, 4) == s.orientation
            && Number(b, 50, 4) == s.buttonFlags
  {
    IdentityForm(s);
    PoseForm(s);
    SwitchesForm(s);
    SampleNumber(s, 0, 8, s.sequence);
    SampleNumber(s, 8, 8, s.timestampUs);
    SampleNumber(s, 16, 4, s.displayId);
    SampleNumber(s, 20, 4, s.pointerId);
    SampleNumber(s, 26, 4, s.x);
    SampleNumber(s, 30, 4, s.y);
    SampleNumber(s, 34, 4, s.pressure);
    SampleNumber(s, 38, 4, s.tiltX);
    SampleNumber(s, 42, 4, s.tiltY);
    SampleNumber(s, 46, 4, s.orientation);
    SampleNumber(s, 50, 4, s.buttonFlags);
  }

  lemma SampleNumber(s: StylusWire.StylusSample, i: nat, n: nat, v: nat)
    requires i + n <= 54 && Fits(v, n)
    requires (i + n <= 26 && StylusWire.Identity(s)[i..i + n] == LittleEndian(v, n))
             || (26 <= i && i + n <= 50 && StylusWire.Pose(s)[i - 26..i - 26 + n] == LittleEndian(v, n))
             || (50 <= i && StylusWire.Switches(s)[i - 50..i - 50 + n] == LittleEndian(v, n))
    ensures Number(StylusWire.SampleBytes(s), i, n) == v
  {
    PartsAt(StylusWire.Identity(s), StylusWire.Pose(s), StylusWire.Switches(s), i, i + n);
    NumberIs(StylusWire.SampleBytes(s), i, n, v);
  }

  /** And its single bytes. */
  lemma SampleBytesForm(s: StylusWire.StylusSample)
    ensures var b := StylusWire.SampleBytes(s);
            && b[24] == StylusWire.ToolToU8(s.toolType) && b[25] == StylusWire.ActionToU8(s.action)
            && b[54] == (if s.hover then 1 else 0) + (if s.eraser then 2 else 0) + (if s.predicted then 4 else 0)
            && b[55..] == [0, 0, 0]
  {
    var a, m, c := StylusWire.Identity(s), StylusWire.Pose(s), StylusWire.Switches(s);
    IdentityForm(s);
    SwitchesForm(s);
    assert (a + m + c)[24] == a[24] && (a + m + c)[25] == a[25] && (a + m + c)[54] == c[4];
    PartsAt(a, m, c, 55, 58);
    assert (a + m + c)[55..] == (a + m + c)[55..58] && c[5..] == c[5..8];
  }

  // ---------------------------------------------------------------------------------------------
  // Handshake messages
  // ---------------------------------------------------------------------------------------------

  /** A field at `i`: its length in two bytes, and its bytes. */
  predicate FieldAt(b: seq<byte>, i: nat, value: seq<byte>) {
    i + 2 + |value| <= |b| && Number(b, i, 2) == |value| && b[i + 2..i + 2 + |value|] == value
  }

  lemma FieldStarts(prefix: seq<byte>, value: seq<byte>, rest: seq<byte>)
    requires |value| < 0x1_0000
    ensures FieldAt(prefix + (Field(value) + rest), |prefix|, value)
  {
    var b, i := prefix + (Field(value) + rest), |prefix|;
    assert b[i..i + 2] == LittleEndian(|value|, 2);
    NumberIs(b, i, 2, |value|);
    assert b[i + 2..i + 2 + |value|] == value;
  }

  /** Three fields behind a head, and two. */
  lemma ThreeFields(head: seq<byte>, x: seq<byte>, y: seq<byte>, z: seq<byte>)
    requires |x| < 0x1_0000 && |y| < 0x1_0000 && |z| < 0x1_0000
    ensures var b := head + (Field(x) + (Field(y) + Field(z)));
            && |b| == |head| + 6 + |x| + |y| + |z|
            && FieldAt(b, |head|, x) && FieldAt(b, |head| + 2 + |x|, y) && FieldAt(b, |head| + 4 + |x| + |y|, z)
  {
    FieldStarts(head, x, Field(y) + Field(z));
    Append(head, Field(x), Field(y) + Field(z));
    FieldStarts(head + Field(x), y, Field(z));
    Append(head + Field(x), Field(y), Field(z));
    assert Field(z) + [] == Field(z);
    FieldStarts(head + Field(x) + Field(y), z, []);
  }

  lemma TwoFields(head: seq<byte>, x: seq<byte>, y: seq<byte>)
    requires |x| < 0x1_0000 && |y| < 0x1_0000
    ensures var b := head + (Field(x) + Field(y)); FieldAt(b, |head|, x) && FieldAt(b, |head| + 2 + |x|, y)
  {
    FieldStarts(head, x, Field(y));
    Append(head, Field(x), Field(y));
    assert Field(y) + [] == Field(y);
    FieldStarts(head + Field(x), y, []);
  }

  lemma HeaderForm()
    ensures Header(1, 0) == [71, 76, 89, 72, 1, 0, 1, 0] && Header(2, 0) == [71, 76, 89, 72, 1, 0, 2, 0]
  {
    assert LittleEndian(1, 2) == [1] + LittleEndian(0, 1) && LittleEndian(0, 1) == [0] + LittleEndian(0, 0);
  }

  lemma HeadAt(a: seq<byte>, b: seq<byte>, c: seq<byte>, d: seq<byte>, rest: seq<byte>)
    ensures var all := a + (b + (c + (d + rest)));
            && all == (a + (b + (c + d))) + rest
            && all[..|a|] == a && all[|a|..|a| + |b|] == b && all[|a| + |b|..|a| + |b| + |c|] == c
            && all[|a| + |b| + |c|..|a| + |b| + |c| + |d|] == d
  {
  }

  function ServerHead(e: ServerKeyExchange): (r: seq<byte>)
    ensures |r| == 64
  {
    Header(1, 0) + (e.sessionId + (LittleEndian(e.expiresAtUnixMs, 8) + e.salt))
  }

  function ServerFields(e: ServerKeyExchange): seq<byte> {
    Field(e.ephemeralPublicKeyDer) + (Field(e.hostIdentityPublicKeyDer) + Field(e.signature))
  }

  lemma ServerParts(e: ServerKeyExchange)
    ensures var b := ServerBytes(e, 0);
            && b == ServerHead(e) + ServerFields(e)
            && b[..8] == [71, 76, 89, 72, 1, 0, 1, 0] && b[8..24] == e.sessionId
            && b[24..32] == LittleEndian(e.expiresAtUnixMs, 8) && b[32..64] == e.salt
  {
    HeaderForm();
    HeadAt(Header(1, 0), e.sessionId, LittleEndian(e.expiresAtUnixMs, 8), e.salt, ServerFields(e));
  }

  /** A key exchange: "GLYH", version 1, type 1, a zero, id, expiry, salt, and the three fields. */
  lemma ServerForm(e: ServerKeyExchange)
    requires |e.ephemeralPublicKeyDer| <= 4096 && |e.hostIdentityPublicKeyDer| <= 4096 && |e.signature| <= 4096
    ensures var b, i := ServerBytes(e, 0), 66 + |e.ephemeralPublicKeyDer|;
            && |b| == i + 4 + |e.hostIdentityPublicKeyDer| + |e.signature|
            && b[..8] == [71, 76, 89, 72, 1, 0, 1, 0] && b[8..24] == e.sessionId
            && Number(b, 24, 8) == e.expiresAtUnixMs && b[32..64] == e.salt
            && FieldAt(b, 64, e.ephemeralPublicKeyDer) && FieldAt(b, i, e.hostIdentityPublicKeyDer)
            && FieldAt(b, i + 2 + |e.hostIdentityPublicKeyDer|, e.signature)
  {
    ServerParts(e);
    ThreeFields(ServerHead(e), e.ephemeralPublicKeyDer, e.hostIdentityPublicKeyDer, e.signature);
    NumberIs(ServerBytes(e, 0), 24, 8, e.expiresAtUnixMs);
  }

  /** A key confirmation: "GLYH", version 1, type 2, a zero, id, and the three fields. */
  lemma ClientForm(c: ClientKeyConfirm)
    requires |c.deviceId| <= 4096 && |c.ephemeralPublicKeyDer| <= 4096 && |c.signature| <= 4096
    ensures var b, i := ClientBytes(c, 0), 26 + |c.deviceId|;
            && |b| == i + 4 + |c.ephemeralPublicKeyDer| + |c.signature|
            && b[..8] == [71, 76, 89, 72, 1, 0, 2, 0] && b[8..24] == c.sessionId
            && FieldAt(b, 24, c.deviceId) && FieldAt(b, i, c.ephemeralPublicKeyDer)
            && FieldAt(b, i + 2 + |c.ephemeralPublicKeyDer|, c.signature)
  {
    var rest := Field(c.deviceId) + (Field(c.ephemeralPublicKeyDer) + Field(c.signature));
    HeaderForm();
    Append(Header(2, 0), c.sessionId, rest);
    ThreeFields(Header(2, 0) + c.sessionId, c.deviceId, c.ephemeralPublicKeyDer, c.signature);
  }

  /** What the host signs: its domain, id, expiry, salt and key. */
  lemma ServerPayloadForm(e: ServerKeyExchange)
    requires |e.ephemeralPublicKeyDer| < 0x1_0000
    ensures var b := ServerSigningPayload(e);
            && |b| == 89 + |e.ephemeralPublicKeyDer|
            && b[..31] == SERVER_DOMAIN && b[31..47] == e.sessionId && Number(b, 47, 8) == e.expiresAtUnixMs && b[55..87] == e.salt
            && FieldAt(b, 87, e.ephemeralPublicKeyDer)
  {
    var k := Field(e.ephemeralPublicKeyDer);
    HeadAt(SERVER_DOMAIN, e.sessionId, LittleEndian(e.expiresAtUnixMs, 8), e.salt, k);
    assert k + [] == k;
    FieldStarts(SERVER_DOMAIN + (e.sessionId + (LittleEndian(e.expiresAtUnixMs, 8) + e.salt)), e.ephemeralPublicKeyDer, []);
    NumberIs(ServerSigningPayload(e), 47, 8, e.expiresAtUnixMs);
  }

  /** What a client signs: its domain, the hash of the host's payload, id, device and key. */
  lemma ClientPayloadForm(hash: Bytes32, c: ClientKeyConfirm)
    requires |c.deviceId| < 0x1_0000 && |c.ephemeralPublicKeyDer| < 0x1_0000
    ensures var b := ClientSigningPayload(hash, c);
            && |b| == 82 + |c.deviceId| + |c.ephemeralPublicKeyDer|
            && b[..30] == CLIENT_DOMAIN && b[30..62] == hash && b[62..78] == c.sessionId
            && FieldAt(b, 78, c.deviceId) && FieldAt(b, 80 + |c.deviceId|, c.ephemeralPublicKeyDer)
  {
    var rest := Field(c.deviceId) + Field(c.ephemeralPublicKeyDer);
    HeadAt(CLIENT_DOMAIN, hash, c.sessionId, [], rest);
    assert [] + rest == rest && c.sessionId + [] == c.sessionId;
    TwoFields(CLIENT_DOMAIN + (hash + c.sessionId), c.deviceId, c.ephemeralPublicKeyDer);
  }
}
