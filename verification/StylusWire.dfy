/** The compact `GLYS` stylus batches. 32-bit floats are carried as their bit patterns. */
module StylusWire {
  import opened Bytes
  import opened Wrappers

  const STYLUS_MAGIC: seq<byte> := [71, 76, 89, 83] // "GLYS"
  const STYLUS_VERSION: u16 := 1
  const HEADER_LEN: nat := 28
  const SAMPLE_LEN: nat := 58

  datatype ToolType = Unknown | Finger | Stylus | Eraser | Mouse

  datatype Action = HoverEnter | HoverMove | HoverExit | Down | Move | Up | Cancel

  datatype StylusSample = StylusSample(
    sequence: u64,
    timestampUs: u64,
    displayId: u32,
    pointerId: u32,
    toolType: ToolType,
    action: Action,
    x: u32,
    y: u32,
    pressure: u32,
    tiltX: u32,
    tiltY: u32,
    orientation: u32,
    buttonFlags: u32,
    hover: bool,
    eraser: bool,
    predicted: bool)

  datatype StylusBatch = StylusBatch(batchSequence: u64, monotonicTimestampUs: u64, samples: seq<StylusSample>)

  datatype StylusWireError =
    | ShortPacket | InvalidMagic | UnsupportedVersion | LengthMismatch
    | UnknownToolType(tool: u8) | UnknownAction(action: u8) | TooManySamples

  function ToolToU8(tool: ToolType): u8 {
    match tool
    case Unknown => 0
    case Finger => 1
    case Stylus => 2
    case Eraser => 3
    case Mouse => 4
  }

  function ToolFromU8(value: u8): Option<ToolType> {
    match value
    case 0 => Some(Unknown)
    case 1 => Some(Finger)
    case 2 => Some(Stylus)
    case 3 => Some(Eraser)
    case 4 => Some(Mouse)
    case _ => None
  }

  function ActionToU8(action: Action): u8 {
    match action
    case HoverEnter => 0
    case HoverMove => 1
    case HoverExit => 2
    case Down => 3
    case Move => 4
    case Up => 5
    case Cancel => 6
  }

  function ActionFromU8(value: u8): Option<Action> {
    match value
    case 0 => Some(HoverEnter)
    case 1 => Some(HoverMove)
    case 2 => Some(HoverExit)
    case 3 => Some(Down)
    case 4 => Some(Move)
    case 5 => Some(Up)
    case 6 => Some(Cancel)
    case _ => None
  }

  // ---------------------------------------------------------------------------------------------
  // One sample
  // ---------------------------------------------------------------------------------------------

  function Flags(s: StylusSample): u8 {
    (if s.hover then 1 else 0) + (if s.eraser then 2 else 0) + (if s.predicted then 4 else 0)
  }

  /** Identity and kind: the first 26 bytes of a sample. */
  function Identity(s: StylusSample): (r: seq<byte>)
    ensures |r| == 26
  {
    LittleEndian(s.sequence, 8) + LittleEndian(s.timestampUs, 8) + LittleEndian(s.displayId, 4)
    + LittleEndian(s.pointerId, 4) + [ToolToU8(s.toolType), ActionToU8(s.action)]
  }

  /** Position, pressure and pose: the next 24 bytes. */
  function Pose(s: StylusSample): (r: seq<byte>)
    ensures |r| == 24
  {
    LittleEndian(s.x, 4) + LittleEndian(s.y, 4) + LittleEndian(s.pressure, 4)
    + LittleEndian(s.tiltX, 4) + LittleEndian(s.tiltY, 4) + LittleEndian(s.orientation, 4)
  }

  /** Buttons, flags and padding: the last 8 bytes. */
  function Switches(s: StylusSample): (r: seq<byte>)
    ensures |r| == 8
  {
    LittleEndian(s.buttonFlags, 4) + [Flags(s), 0, 0, 0]
  }

  function SampleBytes(s: StylusSample): (r: seq<byte>)
    ensures |r| == SAMPLE_LEN
  {
    Identity(s) + Pose(s) + Switches(s)
  }

  /** Reads the sample in the first 58 bytes of `b`. */
  function ReadSample(b: seq<byte>): Result<StylusSample, StylusWireError>
    requires |b| >= SAMPLE_LEN
  {
    if ToolFromU8(b[24]).None? then Err(UnknownToolType(b[24]))
    else if ActionFromU8(b[25]).None? then Err(UnknownAction(b[25]))
    else
      Ok(StylusSample(U64At(b, 0), U64At(b, 8), U32At(b, 16), U32At(b, 20),
                      ToolFromU8(b[24]).value, ActionFromU8(b[25]).value,
                      U32At(b, 26), U32At(b, 30), U32At(b, 34), U32At(b, 38), U32At(b, 42), U32At(b, 46),
                      U32At(b, 50), b[54] % 2 == 1, b[54] / 2 % 2 == 1, b[54] / 4 % 2 == 1))
  }

  function U64At(b: seq<byte>, i: nat): u64
    requires i + 8 <= |b|
  {
    FixedWidthParse(b[i..i + 8]);
    FromLittleEndian(b[i..i + 8])
  }

  function U32At(b: seq<byte>, i: nat): u32
    requires i + 4 <= |b|
  {
    FixedWidthParse(b[i..i + 4]);
    FromLittleEndian(b[i..i + 4])
  }

  /** A sample with the bits the decoder ignores set to zero: five flag bits and three pad bytes. */
  function CleanSample(b: seq<byte>): (r: seq<byte>)
    requires |b| == SAMPLE_LEN
    ensures |r| == SAMPLE_LEN
  {
    b[..54] + [b[54] % 8, 0, 0, 0]
  }

  /** `b` holds `v`'s little-endian bytes at `i`, which is what reading there gives back. */
  lemma Holds64(b: seq<byte>, i: nat, v: u64)
    requires i + 8 <= |b|
    ensures U64At(b, i) == v <==> b[i..i + 8] == LittleEndian(v, 8)
  {
    FixedWidthParse(b[i..i + 8]);
    FixedWidthRoundTrip(v, 8);
  }

  lemma Holds32(b: seq<byte>, i: nat, v: u32)
    requires i + 4 <= |b|
    ensures U32At(b, i) == v <==> b[i..i + 4] == LittleEndian(v, 4)
  {
    FixedWidthParse(b[i..i + 4]);
    FixedWidthRoundTrip(v, 4);
  }

  lemma IdentityReads(b: seq<byte>, s: StylusSample)
    requires |b| == SAMPLE_LEN
    ensures b[..26] == Identity(s) <==>
            && U64At(b, 0) == s.sequence && U64At(b, 8) == s.timestampUs && U32At(b, 16) == s.displayId
            && U32At(b, 20) == s.pointerId && b[24] == ToolToU8(s.toolType) && b[25] == ActionToU8(s.action)
  {
    Holds64(b, 0, s.sequence);
    Holds64(b, 8, s.timestampUs);
    Holds32(b, 16, s.displayId);
    Holds32(b, 20, s.pointerId);
    IdentityLayout(s);
    var p, image := b[..26], Identity(s);
    SubSlice(b, 0, 26, 0, 8);
    SubSlice(b, 0, 26, 8, 16);
    SubSlice(b, 0, 26, 16, 20);
    SubSlice(b, 0, 26, 20, 24);
    if p[0..8] == image[0..8] && p[8..16] == image[8..16] && p[16..20] == image[16..20] && p[20..24] == image[20..24] {
      SameSlice(p, image, 0, 8);
      SameSlice(p, image, 8, 16);
      SameSlice(p, image, 16, 20);
      SameSlice(p, image, 20, 24);
      assert p[24] == b[24] && p[25] == b[25];
    }
  }

  lemma IdentityLayout(s: StylusSample)
    ensures var p := Identity(s);
            && p[0..8] == LittleEndian(s.sequence, 8) && p[8..16] == LittleEndian(s.timestampUs, 8)
            && p[16..20] == LittleEndian(s.displayId, 4) && p[20..24] == LittleEndian(s.pointerId, 4)
            && p[24] == ToolToU8(s.toolType) && p[25] == ActionToU8(s.action)
  {
  }

  lemma PoseReads(b: seq<byte>, s: StylusSample)
    requires |b| == SAMPLE_LEN
    ensures b[26..50] == Pose(s) <==>
            && U32At(b, 26) == s.x && U32At(b, 30) == s.y && U32At(b, 34) == s.pressure
            && U32At(b, 38) == s.tiltX && U32At(b, 42) == s.tiltY && U32At(b, 46) == s.orientation
  {
    Holds32(b, 26, s.x);
    Holds32(b, 30, s.y);
    Holds32(b, 34, s.pressure);
    Holds32(b, 38, s.tiltX);
    Holds32(b, 42, s.tiltY);
    Holds32(b, 46, s.orientation);
    PoseLayout(s);
    var p, image := b[26..50], Pose(s);
    SubSlice(b, 26, 50, 0, 4);
    SubSlice(b, 26, 50, 4, 8);
    SubSlice(b, 26, 50, 8, 12);
    SubSlice(b, 26, 50, 12, 16);
    SubSlice(b, 26, 50, 16, 20);
    SubSlice(b, 26, 50, 20, 24);
    if p[0..4] == image[0..4] && p[4..8] == image[4..8] && p[8..12] == image[8..12]
       && p[12..16] == image[12..16] && p[16..20] == image[16..20] && p[20..24] == image[20..24] {
      SameSlice(p, image, 0, 4);
      SameSlice(p, image, 4, 8);
      SameSlice(p, image, 8, 12);
      SameSlice(p, image, 12, 16);
      SameSlice(p, image, 16, 20);
      SameSlice(p, image, 20, 24);
    }
  }

  lemma PoseLayout(s: StylusSample)
    ensures var p := Pose(s);
            && p[0..4] == LittleEndian(s.x, 4) && p[4..8] == LittleEndian(s.y, 4) && p[8..12] == LittleEndian(s.pressure, 4)
            && p[12..16] == LittleEndian(s.tiltX, 4) && p[16..20] == LittleEndian(s.tiltY, 4)
            && p[20..24] == LittleEndian(s.orientation, 4)
  {
  }

  lemma SwitchesRead(b: seq<byte>, s: StylusSample)
    requires |b| == SAMPLE_LEN
    ensures b[50..54] + [b[54] % 8, 0, 0, 0] == Switches(s) <==>
            && U32At(b, 50) == s.buttonFlags
            && (b[54] % 2 == 1) == s.hover && (b[54] / 2 % 2 == 1) == s.eraser && (b[54] / 4 % 2 == 1) == s.predicted
  {
    Holds32(b, 50, s.buttonFlags);
    FlagBits(b[54], s);
    var w := b[50..54] + [b[54] % 8, 0, 0, 0];
    if w == Switches(s) {
      assert b[50..54] == w[0..4] && b[54] % 8 == w[4];
    }
  }

  lemma FlagBits(flags: u8, s: StylusSample)
    ensures flags % 8 == Flags(s) <==>
            (flags % 2 == 1) == s.hover && (flags / 2 % 2 == 1) == s.eraser && (flags / 4 % 2 == 1) == s.predicted
  {
    LowBits(flags);
    EightFlags(flags % 8, s);
  }

  /** The low three bits of a byte are those of its remainder by eight. */
  lemma LowBits(flags: u8)
    ensures flags % 2 == flags % 8 % 2 && flags / 2 % 2 == flags % 8 / 2 % 2 && flags / 4 % 2 == flags % 8 / 4
  {
    var q, r := flags / 8, flags % 8;
    assert flags == 8 * q + r;
    BitOf(8 * q + r, 2, 4 * q, r);
    BitOf(8 * q + r, 4, 2 * q, r);
    DivModUnique(flags, 2, 4 * q + r / 2, r % 2);
    DivModUnique(flags / 2, 2, 2 * q + r / 2 / 2, r / 2 % 2);
    DivModUnique(flags / 4, 2, q, r / 4);
  }

  lemma BitOf(n: nat, d: nat, q: nat, r: nat)
    requires d > 0 && n == d * q + r
    ensures n / d == q + r / d
  {
    DivModUnique(n, d, q + r / d, r % d);
  }

  lemma EightFlags(bits: u8, s: StylusSample)
    requires bits < 8
    ensures bits == Flags(s) <==> (bits % 2 == 1) == s.hover && (bits / 2 % 2 == 1) == s.eraser && (bits / 4 == 1) == s.predicted
  {
  }

  /** A sample is read exactly from the strings that are its image up to the ignored bits. */
  lemma SampleRoundTrip(b: seq<byte>, s: StylusSample)
    requires |b| == SAMPLE_LEN
    ensures ReadSample(b) == Ok(s) <==> CleanSample(b) == SampleBytes(s)
  {
    IdentityReads(b, s);
    PoseReads(b, s);
    SwitchesRead(b, s);
    var c, image := CleanSample(b), SampleBytes(s);
    assert c == b[..26] + b[26..50] + (b[50..54] + [b[54] % 8, 0, 0, 0]);
    if c == image {
      assert c[..26] == image[..26] == Identity(s) && c[26..50] == image[26..50] == Pose(s) && c[50..] == image[50..] == Switches(s);
      assert c[..26] == b[..26] && c[26..50] == b[26..50] && c[50..] == b[50..54] + [b[54] % 8, 0, 0, 0];
    }
  }

  // ---------------------------------------------------------------------------------------------
  // Batches
  // ---------------------------------------------------------------------------------------------

  function HeaderBytes(b: StylusBatch): (r: seq<byte>)
    ensures |r| == HEADER_LEN
  {
    STYLUS_MAGIC + LittleEndian(STYLUS_VERSION, 2) + LittleEndian(b.batchSequence, 8)
    + LittleEndian(b.monotonicTimestampUs, 8) + LittleEndian(|b.samples|, 2) + [0, 0, 0, 0]
  }

  function SamplesBytes(samples: seq<StylusSample>): (r: seq<byte>)
    ensures |r| == SAMPLE_LEN * |samples|
  {
    if samples == [] then [] else SampleBytes(samples[0]) + SamplesBytes(samples[1..])
  }

  /** The wire form of a batch: 28 bytes and 58 more per sample. */
  function BatchBytes(b: StylusBatch): (r: seq<byte>)
    ensures |r| == HEADER_LEN + SAMPLE_LEN * |b.samples|
  {
    HeaderBytes(b) + SamplesBytes(b.samples)
  }

  method EncodeStylusBatch(b: StylusBatch) returns (r: Result<seq<byte>, StylusWireError>)
    ensures r == if |b.samples| > U16_MAX then Err(TooManySamples) else Ok(BatchBytes(b))
  {
    if |b.samples| > U16_MAX {
      return Err(TooManySamples);
    }
    var out := STYLUS_MAGIC;
    out := out + LittleEndian(STYLUS_VERSION, 2);
    out := out + LittleEndian(b.batchSequence, 8);
    out := out + LittleEndian(b.monotonicTimestampUs, 8);
    out := out + LittleEndian(|b.samples|, 2);
    out := out + [0, 0, 0, 0];
    for i := 0 to |b.samples|
      invariant BatchBytes(b) == out + SamplesBytes(b.samples[i..])
    {
      var encoded := EncodeSample(b.samples[i]);
      assert b.samples[i..][1..] == b.samples[i + 1..];
      Append(out, encoded, SamplesBytes(b.samples[i + 1..]));
      out := out + encoded;
    }
    assert b.samples[|b.samples|..] == [] && out + [] == out;
    return Ok(out);
  }

  method EncodeSample(s: StylusSample) returns (out: seq<byte>)
    ensures out == SampleBytes(s)
  {
    out := LittleEndian(s.sequence, 8);
    out := out + LittleEndian(s.timestampUs, 8);
    out := out + LittleEndian(s.displayId, 4);
    out := out + LittleEndian(s.pointerId, 4);
    out := out + [ToolToU8(s.toolType), ActionToU8(s.action)];
    assert out == Identity(s);
    var pose := LittleEndian(s.x, 4);
    pose := pose + LittleEndian(s.y, 4);
    pose := pose + LittleEndian(s.pressure, 4);
    pose := pose + LittleEndian(s.tiltX, 4);
    pose := pose + LittleEndian(s.tiltY, 4);
    pose := pose + LittleEndian(s.orientation, 4);
    out := out + pose;
    out := out + (LittleEndian(s.buttonFlags, 4) + [Flags(s), 0, 0, 0]);
  }

  function HeaderError(bytes: seq<byte>): Option<StylusWireError> {
    if |bytes| < HEADER_LEN then Some(ShortPacket)
    else if bytes[0..4] != STYLUS_MAGIC then Some(InvalidMagic)
    else if FromLittleEndian(bytes[4..6]) != STYLUS_VERSION then Some(UnsupportedVersion)
    else if |bytes| != HEADER_LEN + FromLittleEndian(bytes[22..24]) * SAMPLE_LEN then Some(LengthMismatch)
    else None
  }

  /** The first `n` samples of `b`, or the first error among them. */
  function ReadSamples(b: seq<byte>, n: nat): (r: Result<seq<StylusSample>, StylusWireError>)
    requires |b| == SAMPLE_LEN * n
    ensures r.Ok? ==> |r.value| == n
    decreases n
  {
    if n == 0 then Ok([])
    else
      match ReadSample(b)
      case Err(e) => Err(e)
      case Ok(s) =>
        match ReadSamples(b[SAMPLE_LEN..], n - 1)
        case Err(e) => Err(e)
        case Ok(rest) => Ok([s] + rest)
  }

  function ReadBatch(bytes: seq<byte>): Result<StylusBatch, StylusWireError> {
    if HeaderError(bytes).Some? then Err(HeaderError(bytes).value)
    else
      match ReadSamples(bytes[HEADER_LEN..], FromLittleEndian(bytes[22..24]))
      case Err(e) => Err(e)
      case Ok(samples) => Ok(StylusBatch(U64At(bytes, 6), U64At(bytes, 14), samples))
  }

  method DecodeStylusBatch(bytes: seq<byte>) returns (r: Result<StylusBatch, StylusWireError>)
    ensures r == ReadBatch(bytes)
  {
    var headerError := HeaderError(bytes);
    if headerError.Some? {
      return Err(headerError.value);
    }
    var samples := DecodeSamples(bytes[HEADER_LEN..], FromLittleEndian(bytes[22..24]));
    if samples.Err? {
      return Err(samples.error);
    }
    return Ok(StylusBatch(U64At(bytes, 6), U64At(bytes, 14), samples.value));
  }

  method DecodeSamples(bytes: seq<byte>, sampleCount: nat) returns (r: Result<seq<StylusSample>, StylusWireError>)
    requires |bytes| == SAMPLE_LEN * sampleCount
    ensures r == ReadSamples(bytes, sampleCount)
  {
    var samples: seq<StylusSample> := [];
    var offset := 0;
    assert bytes[0..] == bytes;
    PrependNone(ReadSamples(bytes, sampleCount));
    for i := 0 to sampleCount
      invariant 0 <= offset && offset + SAMPLE_LEN * (sampleCount - i) == |bytes|
      invariant ReadSamples(bytes, sampleCount) == Prepend(samples, ReadSamples(bytes[offset..], sampleCount - i))
    {
      NextSample(bytes, offset, samples, sampleCount - i);
      var sample := ReadSample(bytes[offset..]);
      if sample.Err? {
        return Err(sample.error);
      }
      samples := samples + [sample.value];
      offset := offset + SAMPLE_LEN;
    }
    assert samples + [] == samples;
    return Ok(samples);
  }

  /** One sample further: it joins those read, or its error is the result. */
  lemma NextSample(bytes: seq<byte>, offset: nat, samples: seq<StylusSample>, left: nat)
    requires left > 0 && offset + SAMPLE_LEN * left == |bytes|
    ensures var sample, all := ReadSample(bytes[offset..]), Prepend(samples, ReadSamples(bytes[offset..], left));
            all == if sample.Err? then Err(sample.error)
                   else Prepend(samples + [sample.value], ReadSamples(bytes[offset + SAMPLE_LEN..], left - 1))
  {
    assert bytes[offset..][SAMPLE_LEN..] == bytes[offset + SAMPLE_LEN..];
    var sample := ReadSample(bytes[offset..]);
    if sample.Ok? {
      PrependOne(samples, sample.value, ReadSamples(bytes[offset + SAMPLE_LEN..], left - 1));
    }
  }

  function Prepend(samples: seq<StylusSample>, r: Result<seq<StylusSample>, StylusWireError>): Result<seq<StylusSample>, StylusWireError> {
    match r
    case Err(e) => Err(e)
    case Ok(rest) => Ok(samples + rest)
  }

  lemma PrependNone(r: Result<seq<StylusSample>, StylusWireError>)
    ensures Prepend([], r) == r
  {
    if r.Ok? {
      assert [] + r.value == r.value;
    }
  }

  lemma PrependOne(samples: seq<StylusSample>, s: StylusSample, r: Result<seq<StylusSample>, StylusWireError>)
    ensures Prepend(samples, Prepend([s], r)) == Prepend(samples + [s], r)
  {
    if r.Ok? {
      Append(samples, [s], r.value);
    }
  }

  /** The samples with all ignored bits cleared. */
  function CleanSamples(b: seq<byte>, n: nat): seq<byte>
    requires |b| == SAMPLE_LEN * n
    decreases n
  {
    if n == 0 then [] else CleanSample(b[..SAMPLE_LEN]) + CleanSamples(b[SAMPLE_LEN..], n - 1)
  }

  /** A batch with the reserved header bytes and all ignored sample bits cleared. */
  function Clean(bytes: seq<byte>): seq<byte>
    requires |bytes| >= HEADER_LEN && (|bytes| - HEADER_LEN) % SAMPLE_LEN == 0
  {
    bytes[..24] + [0, 0, 0, 0] + CleanSamples(bytes[HEADER_LEN..], (|bytes| - HEADER_LEN) / SAMPLE_LEN)
  }

  predicate BatchSized(bytes: seq<byte>) {
    |bytes| >= HEADER_LEN && (|bytes| - HEADER_LEN) % SAMPLE_LEN == 0
  }

  /** Decoding yields `b` exactly on the strings that are `b`'s encoding up to the reserved header
      bytes, the unused flag bits and the padding. */
  lemma BatchRoundTrip(b: StylusBatch, bytes: seq<byte>)
    ensures ReadBatch(bytes) == Ok(b) <==>
            |b.samples| <= U16_MAX && BatchSized(bytes) && Clean(bytes) == BatchBytes(b)
  {
    if ReadBatch(bytes) == Ok(b) {
      ReadBatchIsImage(b, bytes);
    }
    if |b.samples| <= U16_MAX && BatchSized(bytes) && Clean(bytes) == BatchBytes(b) {
      ImageReadsBack(b, bytes);
    }
  }

  lemma ReadBatchIsImage(b: StylusBatch, bytes: seq<byte>)
    requires ReadBatch(bytes) == Ok(b)
    ensures |b.samples| <= U16_MAX && BatchSized(bytes) && Clean(bytes) == BatchBytes(b)
  {
    var n := FromLittleEndian(bytes[22..24]);
    FixedWidthParse(bytes[22..24]);
    assert |b.samples| == n;
    SizedBy(bytes, n);
    SamplesRoundTrip(bytes[HEADER_LEN..], n, b.samples);
    HeaderReads(bytes, b);
  }

  lemma SizedBy(bytes: seq<byte>, n: nat)
    requires |bytes| == HEADER_LEN + SAMPLE_LEN * n
    ensures BatchSized(bytes) && (|bytes| - HEADER_LEN) / SAMPLE_LEN == n
  {
  }

  lemma ImageReadsBack(b: StylusBatch, bytes: seq<byte>)
    requires |b.samples| <= U16_MAX && BatchSized(bytes) && Clean(bytes) == BatchBytes(b)
    ensures ReadBatch(bytes) == Ok(b)
  {
    var n := (|bytes| - HEADER_LEN) / SAMPLE_LEN;
    CleanLength(bytes[HEADER_LEN..], n);
    Peel(bytes[..24] + [0, 0, 0, 0], CleanSamples(bytes[HEADER_LEN..], n), HeaderBytes(b), SamplesBytes(b.samples));
    assert n == |b.samples|;
    SamplesRoundTrip(bytes[HEADER_LEN..], n, b.samples);
    HeaderReads(bytes, b);
    FixedWidthRoundTrip(n, 2);
    assert bytes[22..24] == LittleEndian(n, 2) by {
      HeaderLayout(b);
      assert (bytes[..24] + [0, 0, 0, 0])[22..24] == bytes[22..24];
    }
  }

  lemma HeaderLayout(b: StylusBatch)
    ensures var h := HeaderBytes(b);
            && h[0..4] == STYLUS_MAGIC
            && h[4..6] == LittleEndian(STYLUS_VERSION, 2)
            && h[6..14] == LittleEndian(b.batchSequence, 8)
            && h[14..22] == LittleEndian(b.monotonicTimestampUs, 8)
            && h[22..24] == LittleEndian(|b.samples|, 2)
            && h[24..] == [0, 0, 0, 0]
  {
  }

  lemma {:induction false} CleanLength(b: seq<byte>, n: nat)
    requires |b| == SAMPLE_LEN * n
    ensures |CleanSamples(b, n)| == |b|
  {
    if n > 0 {
      CleanLength(b[SAMPLE_LEN..], n - 1);
    }
  }

  lemma CleanHeaderSlice(bytes: seq<byte>, i: nat, j: nat)
    requires |bytes| >= HEADER_LEN && i <= j <= 24
    ensures (bytes[..24] + [0, 0, 0, 0])[i..j] == bytes[i..j]
  {
    PrefixSlice(bytes[..24], [0, 0, 0, 0], i, j);
    SubSlice(bytes, 0, 24, i, j);
  }

  /** A header with the fields of a batch has its bytes, but for the reserved ones. */
  lemma HeaderImage(bytes: seq<byte>, b: StylusBatch)
    requires |bytes| == HEADER_LEN + SAMPLE_LEN * |b.samples| && |b.samples| <= U16_MAX
    requires bytes[0..4] == STYLUS_MAGIC && bytes[4..6] == LittleEndian(STYLUS_VERSION, 2)
    requires bytes[6..14] == LittleEndian(b.batchSequence, 8) && bytes[14..22] == LittleEndian(b.monotonicTimestampUs, 8)
    requires bytes[22..24] == LittleEndian(|b.samples|, 2)
    ensures bytes[..24] + [0, 0, 0, 0] == HeaderBytes(b)
  {
    HeaderLayout(b);
    var head, image := bytes[..24] + [0, 0, 0, 0], HeaderBytes(b);
    CleanHeaderSlice(bytes, 0, 4);
    CleanHeaderSlice(bytes, 4, 6);
    CleanHeaderSlice(bytes, 6, 14);
    CleanHeaderSlice(bytes, 14, 22);
    CleanHeaderSlice(bytes, 22, 24);
    assert head[24..] == [0, 0, 0, 0];
    SameSlice(head, image, 0, 4);
    SameSlice(head, image, 4, 6);
    SameSlice(head, image, 6, 14);
    SameSlice(head, image, 14, 22);
    SameSlice(head, image, 22, 24);
    SameSlice(head, image, 24, 28);
  }

  lemma HeaderReads(bytes: seq<byte>, b: StylusBatch)
    requires |bytes| == HEADER_LEN + SAMPLE_LEN * |b.samples| && |b.samples| <= U16_MAX
    ensures bytes[..24] + [0, 0, 0, 0] == HeaderBytes(b) <==>
            HeaderError(bytes).None? && U64At(bytes, 6) == b.batchSequence && U64At(bytes, 14) == b.monotonicTimestampUs
  {
    Holds64(bytes, 6, b.batchSequence);
    Holds64(bytes, 14, b.monotonicTimestampUs);
    if HeaderError(bytes).None? && U64At(bytes, 6) == b.batchSequence && U64At(bytes, 14) == b.monotonicTimestampUs {
      HeaderNumbers(bytes, |b.samples|);
      HeaderImage(bytes, b);
    }
    if bytes[..24] + [0, 0, 0, 0] == HeaderBytes(b) {
      HeaderSlices(bytes, b);
      FixedWidthRoundTrip(STYLUS_VERSION, 2);
      FixedWidthRoundTrip(|b.samples|, 2);
    }
  }

  lemma HeaderNumbers(bytes: seq<byte>, n: nat)
    requires |bytes| == HEADER_LEN + SAMPLE_LEN * n && n <= U16_MAX && HeaderError(bytes).None?
    ensures bytes[4..6] == LittleEndian(STYLUS_VERSION, 2) && bytes[22..24] == LittleEndian(n, 2)
  {
    FixedWidthParse(bytes[4..6]);
    FixedWidthParse(bytes[22..24]);
    assert FromLittleEndian(bytes[22..24]) == n;
  }

  lemma HeaderSlices(bytes: seq<byte>, b: StylusBatch)
    requires |bytes| >= HEADER_LEN && bytes[..24] + [0, 0, 0, 0] == HeaderBytes(b)
    ensures bytes[0..4] == STYLUS_MAGIC && bytes[4..6] == LittleEndian(STYLUS_VERSION, 2)
    ensures bytes[6..14] == LittleEndian(b.batchSequence, 8) && bytes[14..22] == LittleEndian(b.monotonicTimestampUs, 8)
    ensures bytes[22..24] == LittleEndian(|b.samples|, 2)
  {
    HeaderLayout(b);
    CleanHeaderSlice(bytes, 0, 4);
    CleanHeaderSlice(bytes, 4, 6);
    CleanHeaderSlice(bytes, 6, 14);
    CleanHeaderSlice(bytes, 14, 22);
    CleanHeaderSlice(bytes, 22, 24);
  }

  lemma {:induction false} SamplesRoundTrip(b: seq<byte>, n: nat, samples: seq<StylusSample>)
    requires |b| == SAMPLE_LEN * n
    ensures ReadSamples(b, n) == Ok(samples) <==> CleanSamples(b, n) == SamplesBytes(samples)
    decreases n
  {
    CleanLength(b, n);
    if n > 0 && samples != [] {
      var head, tail := b[..SAMPLE_LEN], b[SAMPLE_LEN..];
      SampleRoundTrip(head, samples[0]);
      ReadSampleLocal(b);
      SamplesRoundTrip(tail, n - 1, samples[1..]);
      FirstSampleSplits(head, tail, n - 1, samples);
      FirstSampleRead(b, n, samples);
    }
  }

  /** Two batches of samples have the same bytes when their first samples have and the rest have. */
  lemma FirstSampleSplits(head: seq<byte>, tail: seq<byte>, n: nat, samples: seq<StylusSample>)
    requires |head| == SAMPLE_LEN && |tail| == SAMPLE_LEN * n && samples != []
    ensures CleanSample(head) + CleanSamples(tail, n) == SamplesBytes(samples)
            <==> CleanSample(head) == SampleBytes(samples[0]) && CleanSamples(tail, n) == SamplesBytes(samples[1..])
  {
    if CleanSample(head) + CleanSamples(tail, n) == SamplesBytes(samples) {
      Peel(CleanSample(head), CleanSamples(tail, n), SampleBytes(samples[0]), SamplesBytes(samples[1..]));
    }
  }

  lemma FirstSampleRead(b: seq<byte>, n: nat, samples: seq<StylusSample>)
    requires n > 0 && |b| == SAMPLE_LEN * n && samples != []
    ensures ReadSamples(b, n) == Ok(samples) <==> ReadSample(b) == Ok(samples[0]) && ReadSamples(b[SAMPLE_LEN..], n - 1) == Ok(samples[1..])
  {
    assert samples == [samples[0]] + samples[1..];
  }

  lemma ReadSampleLocal(b: seq<byte>)
    requires |b| >= SAMPLE_LEN
    ensures ReadSample(b) == ReadSample(b[..SAMPLE_LEN])
  {
    var h := b[..SAMPLE_LEN];
    forall i, j | 0 <= i <= j <= SAMPLE_LEN
      ensures b[i..j] == h[i..j]
    {
      SubSlice(b, 0, SAMPLE_LEN, i, j);
    }
  }
}
