/**
 Cutting a payload into `GLYF` fragments and rebuilding it from fragments that arrive reordered,
 duplicated, interleaved with other frames, or not at all.
 */
module Fragment {
  import opened Bytes
  import opened Wrappers
  import opened Finite

  datatype FrameFragment = FrameFragment(
    frameSequence: u64,
    fragmentIndex: u16,
    fragmentCount: u16,
    payload: seq<byte>)

  datatype FragmentError =
    | PayloadTooLarge | ShortFragment | BadMagic | InvalidIndex | LengthMismatch | CountChanged

  // ---------------------------------------------------------------------------------------------
  // Cutting
  // ---------------------------------------------------------------------------------------------

  /** `payload.chunks(max)`. */
  function Chunks(payload: seq<byte>, max: nat): seq<seq<byte>>
    requires max > 0
  {
    if payload == [] then []
    else
      var size := Min(max, |payload|);
      [payload[..size]] + Chunks(payload[size..], max)
  }

  function Concat(parts: seq<seq<byte>>): seq<byte> {
    if parts == [] then [] else parts[0] + Concat(parts[1..])
  }

  /** `payload.len().div_ceil(max)`. */
  function DivCeil(length: nat, max: nat): (r: nat)
    requires max > 0
  {
    (length + max - 1) / max
  }

  /** The parts of a frame; an empty frame still has one, empty, part. */
  function Parts(payload: seq<byte>, max: nat): seq<seq<byte>>
    requires max > 0
  {
    if payload == [] then [[]] else Chunks(payload, max)
  }

  ghost predicate CutOf(fragments: seq<FrameFragment>, sequence: u64, payload: seq<byte>) {
    && 1 <= |fragments| <= U16_MAX
    && (forall i :: 0 <= i < |fragments| ==>
          && fragments[i].frameSequence == sequence
          && fragments[i].fragmentIndex == i
          && fragments[i].fragmentCount == |fragments|)
    && Concat(Payloads(fragments)) == payload
  }

  function Payloads(fragments: seq<FrameFragment>): (r: seq<seq<byte>>)
    ensures |r| == |fragments|
  {
    seq(|fragments|, i requires 0 <= i < |fragments| => fragments[i].payload)
  }

  /** The fragments of a payload with at most 65,535 parts. */
  function FragmentsOf(sequence: u64, payload: seq<byte>, max: nat): (r: seq<FrameFragment>)
    requires max > 0 && |Parts(payload, max)| <= U16_MAX
  {
    var parts := Parts(payload, max);
    seq(|parts|, i requires 0 <= i < |parts| => FrameFragment(sequence, i, |parts|, parts[i]))
  }

  lemma DivCeilSteps(length: nat, max: nat)
    requires max > 0
    ensures length == 0 ==> DivCeil(length, max) == 0
    ensures 0 < length <= max ==> DivCeil(length, max) == 1
    ensures length > max ==> DivCeil(length, max) == DivCeil(length - max, max) + 1
  {
    var n := length + max - 1;
    if length == 0 {
      DivModUnique(n, max, 0, max - 1);
    } else if length <= max {
      DivModUnique(n, max, 1, length - 1);
    } else {
      var q, r := (n - max) / max, (n - max) % max;
      assert n - max == q * max + r;
      assert (q + 1) * max == q * max + max;
      DivModUnique(n, max, q + 1, r);
    }
  }

  lemma {:induction false} ChunksCoverPayload(payload: seq<byte>, max: nat)
    requires max > 0
    ensures |Chunks(payload, max)| == DivCeil(|payload|, max)
    ensures Concat(Chunks(payload, max)) == payload
    ensures forall i :: 0 <= i < |Chunks(payload, max)| ==> 1 <= |Chunks(payload, max)[i]| <= max
    ensures forall i :: 0 <= i < |Chunks(payload, max)| - 1 ==> |Chunks(payload, max)[i]| == max
    decreases |payload|
  {
    DivCeilSteps(|payload|, max);
    if payload != [] {
      var size := Min(max, |payload|);
      ChunksCoverPayload(payload[size..], max);
      assert Chunks(payload, max)[1..] == Chunks(payload[size..], max);
      assert payload == payload[..size] + payload[size..];
    }
  }

  /** Cutting with any fragment size gives indices 0, 1, ... of one count whose payloads spell the
      frame; every fragment is full except the last, which is not empty unless the frame is. */
  lemma FragmentsSpellPayload(sequence: u64, payload: seq<byte>, max: nat)
    requires max > 0
    ensures |Parts(payload, max)| == Max(1, DivCeil(|payload|, max))
    ensures |Parts(payload, max)| <= U16_MAX ==>
      && CutOf(FragmentsOf(sequence, payload, max), sequence, payload)
      && forall i :: 0 <= i < |Parts(payload, max)| ==>
           var length := |FragmentsOf(sequence, payload, max)[i].payload|;
           length <= max && (i < |Parts(payload, max)| - 1 ==> length == max) && (payload != [] ==> length > 0)
  {
    PartsCoverPayload(payload, max);
    if |Parts(payload, max)| <= U16_MAX {
      assert Payloads(FragmentsOf(sequence, payload, max)) == Parts(payload, max);
    }
  }

  lemma PartsCoverPayload(payload: seq<byte>, max: nat)
    requires max > 0
    ensures var parts := Parts(payload, max);
            && |parts| == Max(1, DivCeil(|payload|, max))
            && Concat(parts) == payload
            && forall i :: 0 <= i < |parts| ==>
                 |parts[i]| <= max && (i < |parts| - 1 ==> |parts[i]| == max) && (payload != [] ==> |parts[i]| > 0)
  {
    DivCeilSteps(|payload|, max);
    if payload == [] {
      var single: seq<seq<byte>> := [[]];
      assert single[1..] == [] && Concat(single) == [];
    } else {
      ChunksCoverPayload(payload, max);
    }
  }

  lemma NextFragment(sequence: u64, payload: seq<byte>, max: nat, index: nat, chunk: seq<byte>, rest: seq<seq<byte>>)
    requires max > 0 && payload != [] && |Parts(payload, max)| <= U16_MAX
    requires index <= |Chunks(payload, max)| && Chunks(payload, max)[index..] == [chunk] + rest
    ensures index < |Chunks(payload, max)| && Chunks(payload, max)[index + 1..] == rest
    ensures FragmentsOf(sequence, payload, max)[..index + 1]
         == FragmentsOf(sequence, payload, max)[..index] + [FrameFragment(sequence, index, |Parts(payload, max)|, chunk)]
  {
    assert Chunks(payload, max)[index] == Chunks(payload, max)[index..][0] == chunk;
    assert Chunks(payload, max)[index + 1..] == Chunks(payload, max)[index..][1..];
  }

  method FragmentFrame(sequence: u64, payload: seq<byte>, max: nat) returns (r: Result<seq<FrameFragment>, FragmentError>)
    ensures r.Err? <==> max == 0 || DivCeil(|payload|, max) > U16_MAX
    ensures r.Err? ==> r.error == PayloadTooLarge
    ensures r.Ok? ==> |Parts(payload, max)| <= U16_MAX && r.value == FragmentsOf(sequence, payload, max)
    ensures r.Ok? ==> CutOf(r.value, sequence, payload)
  {
    if max == 0 {
      return Err(PayloadTooLarge);
    }
    var fragmentCount := DivCeil(|payload|, max);
    if fragmentCount > U16_MAX {
      return Err(PayloadTooLarge);
    }
    FragmentsSpellPayload(sequence, payload, max);
    var fragments: seq<FrameFragment> := [];
    if payload == [] {
      fragments := [FrameFragment(sequence, 0, 1, [])];
      assert fragments == FragmentsOf(sequence, payload, max);
      return Ok(fragments);
    }
    ghost var all := FragmentsOf(sequence, payload, max);
    var rest := payload;
    var index := 0;
    while rest != []
      invariant index <= fragmentCount
      invariant Chunks(payload, max)[index..] == Chunks(rest, max)
      invariant fragments == all[..index]
      decreases |rest|
    {
      var chunk := rest[..Min(max, |rest|)];
      NextFragment(sequence, payload, max, index, chunk, Chunks(rest[|chunk|..], max));
      fragments := fragments + [FrameFragment(sequence, index, fragmentCount, chunk)];
      rest := rest[|chunk|..];
      index := index + 1;
    }
    return Ok(fragments);
  }

  // ---------------------------------------------------------------------------------------------
  // The `GLYF` wire form
  // ---------------------------------------------------------------------------------------------

  const FRAGMENT_MAGIC: seq<byte> := [71, 76, 89, 70] // "GLYF"
  const FRAGMENT_HEADER_LEN: nat := 20

  function FragmentBytes(f: FrameFragment): (r: seq<byte>)
    ensures |r| == FRAGMENT_HEADER_LEN + |f.payload|
  {
    FRAGMENT_MAGIC + LittleEndian(f.frameSequence, 8) + LittleEndian(f.fragmentIndex, 2)
    + LittleEndian(f.fragmentCount, 2) + LittleEndian(|f.payload|, 4) + f.payload
  }

  method EncodeFragment(f: FrameFragment) returns (out: seq<byte>)
    ensures out == FragmentBytes(f)
  {
    out := FRAGMENT_MAGIC;
    out := out + LittleEndian(f.frameSequence, 8);
    out := out + LittleEndian(f.fragmentIndex, 2);
    out := out + LittleEndian(f.fragmentCount, 2);
    out := out + LittleEndian(|f.payload|, 4);
    out := out + f.payload;
  }

  function DecodeFragment(bytes: seq<byte>): Result<FrameFragment, FragmentError> {
    if |bytes| < FRAGMENT_HEADER_LEN then Err(ShortFragment)
    else if bytes[0..4] != FRAGMENT_MAGIC then Err(BadMagic)
    else
      FixedWidthParse(bytes[4..12]);
      FixedWidthParse(bytes[12..14]);
      FixedWidthParse(bytes[14..16]);
      var frameSequence := FromLittleEndian(bytes[4..12]);
      var fragmentIndex := FromLittleEndian(bytes[12..14]);
      var fragmentCount := FromLittleEndian(bytes[14..16]);
      var payloadLength := FromLittleEndian(bytes[16..20]);
      if fragmentCount == 0 || fragmentIndex >= fragmentCount then Err(InvalidIndex)
      else if |bytes| != FRAGMENT_HEADER_LEN + payloadLength then Err(LengthMismatch)
      else Ok(FrameFragment(frameSequence, fragmentIndex, fragmentCount, bytes[FRAGMENT_HEADER_LEN..]))
  }

  /** What the decoder can return: an index below its count and a length that fits its field. */
  predicate Encodable(f: FrameFragment) {
    f.fragmentIndex < f.fragmentCount && |f.payload| < TWO_TO_THE_32
  }

  /** The decoder accepts exactly the images of encodable fragments, and inverts them. */
  lemma FragmentRoundTrip(f: FrameFragment, bytes: seq<byte>)
    ensures DecodeFragment(bytes) == Ok(f) <==> Encodable(f) && bytes == FragmentBytes(f)
  {
    if Encodable(f) && bytes == FragmentBytes(f) {
      FragmentFields(f);
    }
    if DecodeFragment(bytes) == Ok(f) {
      FragmentImage(bytes);
    }
  }

  lemma FragmentLayout(f: FrameFragment)
    ensures var bytes := FragmentBytes(f);
            && bytes[0..4] == FRAGMENT_MAGIC
            && bytes[4..12] == LittleEndian(f.frameSequence, 8)
            && bytes[12..14] == LittleEndian(f.fragmentIndex, 2)
            && bytes[14..16] == LittleEndian(f.fragmentCount, 2)
            && bytes[16..20] == LittleEndian(|f.payload|, 4)
            && bytes[20..] == f.payload
  {
  }

  lemma FragmentFields(f: FrameFragment)
    requires Encodable(f)
    ensures DecodeFragment(FragmentBytes(f)) == Ok(f)
  {
    FragmentLayout(f);
    FixedWidthRoundTrip(f.frameSequence, 8);
    FixedWidthRoundTrip(f.fragmentIndex, 2);
    FixedWidthRoundTrip(f.fragmentCount, 2);
    FixedWidthRoundTrip(|f.payload|, 4);
  }

  lemma FragmentImage(bytes: seq<byte>)
    requires DecodeFragment(bytes).Ok?
    ensures Encodable(DecodeFragment(bytes).value) && bytes == FragmentBytes(DecodeFragment(bytes).value)
  {
    var image := FragmentBytes(DecodeFragment(bytes).value);
    FragmentLayout(DecodeFragment(bytes).value);
    FixedWidthParse(bytes[4..12]);
    FixedWidthParse(bytes[12..14]);
    FixedWidthParse(bytes[14..16]);
    FixedWidthParse(bytes[16..20]);
    SameSlice(bytes, image, 0, 4);
    SameSlice(bytes, image, 4, 12);
    SameSlice(bytes, image, 12, 14);
    SameSlice(bytes, image, 14, 16);
    SameSlice(bytes, image, 16, 20);
    SameSlice(bytes, image, 20, |bytes|);
  }

  // ---------------------------------------------------------------------------------------------
  // Reassembly
  // ---------------------------------------------------------------------------------------------

  datatype Slots = Slots(fragmentCount: u16, received: nat, fragments: seq<Option<seq<byte>>>)

  /** A pending frame has one slot per fragment, from its creation on. */
  type PendingFrame = s: Slots | |s.fragments| == s.fragmentCount witness Slots(0, 0, [])

  type Pending = map<u64, PendingFrame>

  function NewPendingFrame(fragmentCount: u16): PendingFrame {
    Slots(fragmentCount, 0, seq(fragmentCount, _ => None))
  }

  /** Every entry of the reassembler: a proper part of its slots is filled. */
  ghost predicate ValidEntry(p: PendingFrame) {
    && p.received == |Filled(p)|
    && 1 <= p.received < p.fragmentCount
  }

  ghost function Filled(p: PendingFrame): set<int> {
    set i | 0 <= i < |p.fragments| && p.fragments[i].Some?
  }

  ghost predicate ValidPending(pending: Pending) {
    forall s :: s in pending ==> ValidEntry(pending[s])
  }

  /** `flatten`: the filled slots in order, joined. */
  function Join(fragments: seq<Option<seq<byte>>>): seq<byte> {
    if fragments == [] then []
    else (if fragments[0].Some? then fragments[0].value else []) + Join(fragments[1..])
  }

  /** The entry a fragment goes to, before the fragment is stored. */
  function EntryFor(pending: Pending, f: FrameFragment): PendingFrame {
    if f.frameSequence in pending then pending[f.frameSequence] else NewPendingFrame(f.fragmentCount)
  }

  function Store(p: PendingFrame, index: nat, payload: seq<byte>): PendingFrame
    requires index < |p.fragments|
  {
    if p.fragments[index].Some? then p
    else p.(received := p.received + 1, fragments := p.fragments[index := Some(payload)])
  }

  function PushError(pending: Pending, f: FrameFragment): Option<FragmentError> {
    if f.fragmentCount == 0 || f.fragmentIndex >= f.fragmentCount then Some(InvalidIndex)
    else if EntryFor(pending, f).fragmentCount != f.fragmentCount then Some(CountChanged)
    else None
  }

  ghost function Stored(pending: Pending, f: FrameFragment): PendingFrame
    requires PushError(pending, f).None?
  {
    Store(EntryFor(pending, f), f.fragmentIndex, f.payload)
  }

  ghost function PushResult(pending: Pending, f: FrameFragment): Result<Option<seq<byte>>, FragmentError>
  {
    if PushError(pending, f).Some? then Err(PushError(pending, f).value)
    else
      var p := Stored(pending, f);
      if p.received == p.fragmentCount then Ok(Some(Join(p.fragments))) else Ok(None)
  }

  ghost function AfterPush(pending: Pending, f: FrameFragment): Pending
  {
    if PushError(pending, f).Some? then pending
    else
      var p := Stored(pending, f);
      if p.received == p.fragmentCount then pending - {f.frameSequence} else pending[f.frameSequence := p]
  }

  /** What a push decides: a fragment whose index is not below its count is refused, and one whose count is
      not that of its pending frame; any other fills its slot, unless that is filled, and completes the frame
      when then every slot is filled, joined in order. Other frames stay. */
  lemma PushDecides(pending: Pending, f: FrameFragment)
    ensures var r, after, s := PushResult(pending, f), AfterPush(pending, f), f.frameSequence;
            if f.fragmentIndex >= f.fragmentCount then r == Err(InvalidIndex) && after == pending
            else if s in pending && pending[s].fragmentCount != f.fragmentCount then r == Err(CountChanged) && after == pending
            else
              var slots := if s in pending then pending[s].fragments else seq(f.fragmentCount, _ => None);
              var filled := if slots[f.fragmentIndex].Some? then slots else slots[f.fragmentIndex := Some(f.payload)];
              var received := (if s in pending then pending[s].received else 0) + if slots[f.fragmentIndex].Some? then 0 else 1;
              && (forall q :: q != s ==> (q in after <==> q in pending) && (q in pending ==> after[q] == pending[q]))
              && if received == f.fragmentCount then r == Ok(Some(Join(filled))) && s !in after
                 else r == Ok(None) && s in after && after[s] == Slots(f.fragmentCount, received, filled)
  {
  }


  class FrameReassembler {
    var pending: Pending

    ghost predicate Valid()
      reads this
    {
      ValidPending(pending)
    }

    constructor ()
      ensures Valid() && pending == map[]
    {
      pending := map[];
    }

    method Push(fragment: FrameFragment) returns (r: Result<Option<seq<byte>>, FragmentError>)
      requires Valid()
      modifies this
      ensures Valid()
      ensures r == PushResult(old(pending), fragment)
      ensures pending == AfterPush(old(pending), fragment)
    {
      PushKeepsValid(pending, fragment);
      var frameSequence, fragmentCount := fragment.frameSequence, fragment.fragmentCount;
      if fragmentCount == 0 || fragment.fragmentIndex >= fragmentCount {
        return Err(InvalidIndex);
      }
      if frameSequence !in pending {
        pending := pending[frameSequence := NewPendingFrame(fragmentCount)];
      }
      var entry: PendingFrame := pending[frameSequence];
      if entry.fragmentCount != fragmentCount {
        return Err(CountChanged);
      }
      var index := fragment.fragmentIndex;
      if entry.fragments[index].None? {
        entry := entry.(received := entry.received + 1);
        entry := entry.(fragments := entry.fragments[index := Some(fragment.payload)]);
        pending := pending[frameSequence := entry];
      }
      if entry.received == entry.fragmentCount {
        pending := pending - {frameSequence};
        var complete := JoinSlots(entry.fragments);
        assert pending == AfterPush(old(pending), fragment);
        return Ok(Some(complete));
      }
      assert pending == AfterPush(old(pending), fragment);
      return Ok(None);
    }
  }

  method JoinSlots(fragments: seq<Option<seq<byte>>>) returns (out: seq<byte>)
    ensures out == Join(fragments)
  {
    out := [];
    for i := 0 to |fragments|
      invariant Join(fragments) == out + Join(fragments[i..])
    {
      assert fragments[i..][1..] == fragments[i + 1..];
      if fragments[i].Some? {
        out := out + fragments[i].value;
      }
    }
  }

  lemma StoreFills(p: PendingFrame, index: nat, payload: seq<byte>)
    requires index < |p.fragments| && p.received == |Filled(p)|
    ensures Filled(Store(p, index, payload)) == Filled(p) + {index}
    ensures Store(p, index, payload).received == |Filled(Store(p, index, payload))|
  {
    if p.fragments[index].None? {
      assert index !in Filled(p);
    }
  }

  lemma FilledBounded(p: PendingFrame)
    ensures |Filled(p)| <= |p.fragments|
    ensures |Filled(p)| == |p.fragments| <==> forall i :: 0 <= i < |p.fragments| ==> p.fragments[i].Some?
  {
    var all := Indices(|p.fragments|);
    assert Filled(p) <= all;
    SubsetCardinality(Filled(p), all);
    assert forall i :: i in all ==> (i in Filled(p) <==> p.fragments[i].Some?);
  }

  /** Every push keeps every entry with at least one slot filled and at least one empty. */
  lemma PushKeepsValid(pending: Pending, f: FrameFragment)
    requires ValidPending(pending)
    ensures ValidPending(AfterPush(pending, f))
  {
    if PushError(pending, f).None? {
      var entry := EntryFor(pending, f);
      assert f.frameSequence !in pending ==> Filled(entry) == {};
      StoreFills(entry, f.fragmentIndex, f.payload);
      FilledBounded(Stored(pending, f));
      assert Stored(pending, f).received >= 1 by {
        assert f.fragmentIndex in Filled(Stored(pending, f));
      }
    }
  }

  // ---------------------------------------------------------------------------------------------
  // Delivery runs
  // ---------------------------------------------------------------------------------------------

  /** A set of cut frames, by sequence number. */
  type Frames = map<u64, seq<FrameFragment>>

  ghost predicate CutFrames(frames: Frames, payloads: map<u64, seq<byte>>) {
    && frames.Keys == payloads.Keys
    && forall s :: s in frames ==> CutOf(frames[s], s, payloads[s])
  }

  /** The arrival of one fragment of one of the frames. */
  datatype Arrival = Arrival(sequence: u64, index: nat)

  predicate Arrives(frames: Frames, a: Arrival) {
    a.sequence in frames && a.index < |frames[a.sequence]|
  }

  ghost predicate Delivery(frames: Frames, d: seq<Arrival>) {
    forall k :: 0 <= k < |d| ==> Arrives(frames, d[k])
  }

  /** The indices of frame `s` that arrived since it was last emitted. */
  ghost function Seen(frames: Frames, d: seq<Arrival>, s: u64): set<int>
    requires s in frames
  {
    if d == [] then {}
    else
      var before, a := Seen(frames, d[..|d| - 1], s), d[|d| - 1];
      if a.sequence != s then before
      else if before + {a.index} == Indices(|frames[s]|) then {}
      else before + {a.index}
  }

  /** Does the arrival complete its frame? */
  ghost predicate Completes(frames: Frames, d: seq<Arrival>, a: Arrival)
    requires Arrives(frames, a)
  {
    Seen(frames, d, a.sequence) + {a.index} == Indices(|frames[a.sequence]|)
  }

  ghost function PendingAfter(frames: Frames, d: seq<Arrival>): (pending: Pending)
    requires Delivery(frames, d)
    ensures ValidPending(pending)
  {
    if d == [] then map[]
    else
      var before, a := PendingAfter(frames, d[..|d| - 1]), d[|d| - 1];
      assert Arrives(frames, a);
      PushKeepsValid(before, frames[a.sequence][a.index]);
      AfterPush(before, frames[a.sequence][a.index])
  }

  /** The entry that holds exactly the fragments in `indices`. */
  ghost function Holding(fragments: seq<FrameFragment>, indices: set<int>): PendingFrame
    requires |fragments| <= U16_MAX
  {
    Slots(|fragments|, |indices|,
          seq(|fragments|, i requires 0 <= i < |fragments| => if i in indices then Some(fragments[i].payload) else None))
  }

  /** The reassembler holds exactly the fragments of `s` seen since its last emission. */
  ghost predicate MirrorsFrame(frames: Frames, d: seq<Arrival>, pending: Pending, s: u64)
    requires s in frames
  {
    && |frames[s]| <= U16_MAX
    && Seen(frames, d, s) <= Indices(|frames[s]|)
    && (s in pending <==> Seen(frames, d, s) != {})
    && (s in pending ==> pending[s] == Holding(frames[s], Seen(frames, d, s)))
  }

  /** Over every delivery, reordered, duplicated, lossy and interleaved as it may be: pushing a
      fragment never fails; it emits the whole payload of its frame exactly when the fragments seen
      since that frame's last emission, this one included, cover all indices; otherwise nothing. */
  lemma Reassembly(frames: Frames, payloads: map<u64, seq<byte>>, d: seq<Arrival>, a: Arrival)
    requires CutFrames(frames, payloads) && Delivery(frames, d) && Arrives(frames, a)
    ensures PushResult(PendingAfter(frames, d), frames[a.sequence][a.index])
         == Ok(if Completes(frames, d, a) then Some(payloads[a.sequence]) else None)
  {
    DeliveryMirrored(frames, payloads, d, a.sequence);
    ArrivalResult(frames, payloads[a.sequence], d, PendingAfter(frames, d), a);
  }

  lemma {:induction false} DeliveryMirrored(frames: Frames, payloads: map<u64, seq<byte>>, d: seq<Arrival>, s: u64)
    requires CutFrames(frames, payloads) && Delivery(frames, d) && s in frames
    ensures MirrorsFrame(frames, d, PendingAfter(frames, d), s)
  {
    assert CutOf(frames[s], s, payloads[s]);
    if d != [] {
      var before, a := d[..|d| - 1], d[|d| - 1];
      assert Arrives(frames, a);
      DeliveryMirrored(frames, payloads, before, s);
      DeliveryMirrored(frames, payloads, before, a.sequence);
      assert before + [a] == d;
      ArrivalMirrored(frames, payloads[a.sequence], before, PendingAfter(frames, before), a, s);
    }
  }

  lemma ArrivalStored(frames: Frames, payload: seq<byte>, d: seq<Arrival>, pending: Pending, a: Arrival)
    requires Arrives(frames, a) && CutOf(frames[a.sequence], a.sequence, payload)
    requires MirrorsFrame(frames, d, pending, a.sequence)
    ensures PushError(pending, frames[a.sequence][a.index]).None?
    ensures Stored(pending, frames[a.sequence][a.index])
         == Holding(frames[a.sequence], Seen(frames, d, a.sequence) + {a.index})
    ensures Seen(frames, d, a.sequence) + {a.index} <= Indices(|frames[a.sequence]|)
    ensures Completes(frames, d, a) <==>
            |Seen(frames, d, a.sequence) + {a.index}| == |frames[a.sequence]|
  {
    var fragments := frames[a.sequence];
    var seen := Seen(frames, d, a.sequence);
    assert EntryFor(pending, fragments[a.index]) == Holding(fragments, seen);
    HoldingGrows(fragments, seen, a.index);
    SubsetCardinality(seen + {a.index}, Indices(|fragments|));
  }

  lemma HoldingGrows(fragments: seq<FrameFragment>, indices: set<int>, index: nat)
    requires |fragments| <= U16_MAX && index < |fragments|
    ensures Store(Holding(fragments, indices), index, fragments[index].payload) == Holding(fragments, indices + {index})
  {
    var held := Holding(fragments, indices);
    if index in indices {
      assert indices + {index} == indices;
    } else {
      assert |indices + {index}| == |indices| + 1;
      assert held.fragments[index := Some(fragments[index].payload)] == Holding(fragments, indices + {index}).fragments;
    }
  }

  lemma ArrivalResult(frames: Frames, payload: seq<byte>, d: seq<Arrival>, pending: Pending, a: Arrival)
    requires Arrives(frames, a) && CutOf(frames[a.sequence], a.sequence, payload)
    requires MirrorsFrame(frames, d, pending, a.sequence)
    ensures PushResult(pending, frames[a.sequence][a.index])
         == Ok(if Completes(frames, d, a) then Some(payload) else None)
  {
    ArrivalStored(frames, payload, d, pending, a);
    if Completes(frames, d, a) {
      var fragments := frames[a.sequence];
      JoinAll(fragments, Holding(fragments, Indices(|fragments|)).fragments);
    }
  }

  lemma {:induction false} JoinAll(fragments: seq<FrameFragment>, slots: seq<Option<seq<byte>>>)
    requires |slots| == |fragments|
    requires forall i :: 0 <= i < |slots| ==> slots[i] == Some(fragments[i].payload)
    ensures Join(slots) == Concat(Payloads(fragments))
  {
    if slots != [] {
      JoinAll(fragments[1..], slots[1..]);
      assert Payloads(fragments)[1..] == Payloads(fragments[1..]);
    }
  }

  /** One arrival keeps every frame mirrored: its own, and the others untouched. */
  lemma ArrivalMirrored(frames: Frames, payload: seq<byte>, d: seq<Arrival>, pending: Pending, a: Arrival, s: u64)
    requires Arrives(frames, a) && CutOf(frames[a.sequence], a.sequence, payload)
    requires MirrorsFrame(frames, d, pending, a.sequence)
    requires s in frames && MirrorsFrame(frames, d, pending, s)
    ensures MirrorsFrame(frames, d + [a], AfterPush(pending, frames[a.sequence][a.index]), s)
  {
    assert (d + [a])[..|d|] == d;
    if s == a.sequence {
      OwnFrameMirrored(frames, payload, d, pending, a);
    }
  }

  lemma OwnFrameMirrored(frames: Frames, payload: seq<byte>, d: seq<Arrival>, pending: Pending, a: Arrival)
    requires Arrives(frames, a) && CutOf(frames[a.sequence], a.sequence, payload)
    requires MirrorsFrame(frames, d, pending, a.sequence)
    ensures MirrorsFrame(frames, d + [a], AfterPush(pending, frames[a.sequence][a.index]), a.sequence)
  {
    assert (d + [a])[..|d|] == d;
    ArrivalStored(frames, payload, d, pending, a);
    assert a.index in Seen(frames, d, a.sequence) + {a.index};
  }

  ghost function Arrived(d: seq<Arrival>, s: u64): set<int> {
    set k | 0 <= k < |d| && d[k].sequence == s :: d[k].index
  }

  /** Nothing is emitted early: until every index of a frame has arrived at least once the frame has
      not been emitted, and the arrival that first completes the set emits it. */
  lemma FirstEmission(frames: Frames, d: seq<Arrival>, a: Arrival)
    requires Delivery(frames, d) && Arrives(frames, a)
    requires !(Indices(|frames[a.sequence]|) <= Arrived(d, a.sequence))
    ensures forall k :: 0 <= k < |d| && d[k].sequence == a.sequence ==> !Completes(frames, d[..k], d[k])
    ensures Completes(frames, d, a) <==> Indices(|frames[a.sequence]|) <= Arrived(d + [a], a.sequence)
  {
    var s := a.sequence;
    forall k | 0 <= k < |d| && d[k].sequence == s
      ensures !Completes(frames, d[..k], d[k])
    {
      SeenUntilComplete(frames, d[..k], s);
      assert d[..k + 1][..k] == d[..k];
      ArrivedGrows(d[..k], d[k], s);
      assert d[..k] + [d[k]] == d[..k + 1];
      assert Arrived(d[..k + 1], s) <= Arrived(d, s);
    }
    SeenUntilComplete(frames, d, s);
    ArrivedGrows(d, a, s);
    ArrivedBounded(frames, d, s);
  }

  lemma ArrivedGrows(d: seq<Arrival>, a: Arrival, s: u64)
    ensures Arrived(d + [a], s) == Arrived(d, s) + if a.sequence == s then {a.index} else {}
  {
    var d' := d + [a];
    forall x | x in Arrived(d', s)
      ensures x in Arrived(d, s) || (a.sequence == s && x == a.index)
    {
      var k :| 0 <= k < |d'| && d'[k].sequence == s && d'[k].index == x;
      assert k < |d| ==> d[k].index == x;
    }
    forall x | x in Arrived(d, s)
      ensures x in Arrived(d', s)
    {
      var k :| 0 <= k < |d| && d[k].sequence == s && d[k].index == x;
      assert d'[k] == d[k];
    }
    assert d'[|d|] == a;
  }

  lemma ArrivedBounded(frames: Frames, d: seq<Arrival>, s: u64)
    requires Delivery(frames, d) && s in frames
    ensures Arrived(d, s) <= Indices(|frames[s]|)
  {
    forall x | x in Arrived(d, s)
      ensures x in Indices(|frames[s]|)
    {
      var k :| 0 <= k < |d| && d[k].sequence == s && d[k].index == x;
      assert Arrives(frames, d[k]);
    }
  }

  lemma {:induction false} SeenUntilComplete(frames: Frames, d: seq<Arrival>, s: u64)
    requires Delivery(frames, d) && s in frames
    requires !(Indices(|frames[s]|) <= Arrived(d, s))
    ensures Seen(frames, d, s) == Arrived(d, s)
  {
    if d != [] {
      var before, a := d[..|d| - 1], d[|d| - 1];
      assert before + [a] == d;
      ArrivedGrows(before, a, s);
      SeenUntilComplete(frames, before, s);
    }
  }
}
