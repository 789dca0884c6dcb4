/**
 Turning length-prefixed H.264 access units into the byte-stream format of Annex B of ITU-T H.264,
 as the Windows encoder and the macOS encoder do it.
 */
module AnnexB {
  import opened Bytes
  import opened Wrappers

  const START_CODE: seq<byte> := [0, 0, 0, 1]

  type Units = seq<seq<byte>>

  /** Each unit after a four-byte start code. */
  function ByteStream(units: Units): seq<byte> {
    if units == [] then [] else START_CODE + units[0] + ByteStream(units[1..])
  }

  /** Each unit after its big-endian 32-bit length. */
  function LengthPrefixed(units: Units): seq<byte> {
    if units == [] then [] else BigEndian(|units[0]|, 4) + units[0] + LengthPrefixed(units[1..])
  }

  ghost predicate Prefixable(units: Units) {
    forall i :: 0 <= i < |units| ==> 1 <= |units[i]| < TWO_TO_THE_32
  }

  predicate StartsWithStartCode(payload: seq<byte>) {
    [0, 0, 1] <= payload || START_CODE <= payload
  }

  /** The units of a payload that is a whole number of length-prefixed units. */
  function ParseUnits(payload: seq<byte>): (r: Option<Units>)
    decreases |payload|
  {
    if payload == [] then Some([])
    else if |payload| < 4 then None
    else
      var length := FromBigEndian(payload[..4]);
      if length == 0 || 4 + length > |payload| then None
      else
        match ParseUnits(payload[4 + length..])
        case None => None
        case Some(rest) => Some([payload[4..4 + length]] + rest)
  }

  /** The result of the Windows normalization. */
  function Normalized(payload: seq<byte>): seq<byte> {
    if StartsWithStartCode(payload) then payload
    else
      match ParseUnits(payload)
      case None => payload
      case Some(units) => ByteStream(units)
  }

  method NormalizeH264AccessUnit(payload: seq<byte>) returns (r: seq<byte>)
    ensures r == Normalized(payload)
  {
    if [0, 0, 1] <= payload || [0, 0, 0, 1] <= payload {
      return payload;
    }
    var offset := 0;
    var annexB: seq<byte> := [];
    assert payload[0..] == payload;
    AddUnits([], ParseUnits(payload));
    ghost var units: Units := [];
    while offset + 4 <= |payload|
      invariant offset <= |payload|
      invariant annexB == ByteStream(units)
      invariant ParseUnits(payload) == Added(units, ParseUnits(payload[offset..]))
      invariant annexB == [] <==> offset == 0
      decreases |payload| - offset
    {
      var length := FromBigEndian(payload[offset..offset + 4]);
      assert payload[offset..][..4] == payload[offset..offset + 4];
      offset := offset + 4;
      if length == 0 || offset + length > |payload| {
        return payload;
      }
      var unit := payload[offset..offset + length];
      NextUnit(payload, offset, length, units);
      StreamGrows(units, unit);
      units := units + [unit];
      annexB := annexB + [0, 0, 0, 1];
      annexB := annexB + unit;
      offset := offset + length;
    }
    if offset == |payload| && annexB != [] {
      assert payload[offset..] == [];
      assert units + [] == units;
      return annexB;
    }
    return payload;
  }

  function Added(units: Units, rest: Option<Units>): Option<Units> {
    if rest.None? then None else Some(units + rest.value)
  }

  lemma AddUnits(units: Units, rest: Option<Units>)
    ensures Added([], rest) == rest
    ensures forall unit :: Added(units, Added([unit], rest)) == Added(units + [unit], rest)
  {
    if rest.Some? {
      assert [] + rest.value == rest.value;
      forall unit
        ensures units + ([unit] + rest.value) == (units + [unit]) + rest.value
      {
      }
    }
  }

  lemma NextUnit(payload: seq<byte>, offset: nat, length: nat, units: Units)
    requires 4 <= offset && 0 < length && offset + length <= |payload|
    requires length == FromBigEndian(payload[offset - 4..offset])
    ensures Added(units, ParseUnits(payload[offset - 4..]))
         == Added(units + [payload[offset..offset + length]], ParseUnits(payload[offset + length..]))
  {
    var tail := payload[offset - 4..];
    assert tail[..4] == payload[offset - 4..offset];
    assert tail[4..4 + length] == payload[offset..offset + length];
    assert tail[4 + length..] == payload[offset + length..];
    AddUnits(units, ParseUnits(payload[offset + length..]));
  }

  lemma {:induction false} StreamGrows(units: Units, unit: seq<byte>)
    ensures ByteStream(units + [unit]) == ByteStream(units) + (START_CODE + unit)
  {
    if units == [] {
      assert ByteStream([]) == [] && [unit][1..] == [];
      assert ByteStream([unit]) == START_CODE + unit;
    } else {
      StreamGrows(units[1..], unit);
      assert (units + [unit])[1..] == units[1..] + [unit];
    }
  }

  /** The Swift conversion: no start-code check, and a verdict instead of the unchanged payload. */
  method AppendAnnexBNalUnits(payload: seq<byte>, out: seq<byte>) returns (ok: bool, out': seq<byte>)
    ensures ok <==> payload != [] && ParseUnits(payload).Some?
    ensures ok ==> out' == out + ByteStream(ParseUnits(payload).value)
    ensures out <= out'
  {
    out' := out;
    var offset := 0;
    var appendedAnyUnit := false;
    assert payload[0..] == payload;
    AddUnits([], ParseUnits(payload));
    ghost var units: Units := [];
    while offset + 4 <= |payload|
      invariant offset <= |payload|
      invariant out' == out + ByteStream(units)
      invariant ParseUnits(payload) == Added(units, ParseUnits(payload[offset..]))
      invariant appendedAnyUnit <==> offset > 0
      decreases |payload| - offset
    {
      var length := FromBigEndian(payload[offset..offset + 4]);
      assert payload[offset..][..4] == payload[offset..offset + 4];
      offset := offset + 4;
      if length == 0 || offset + length > |payload| {
        return false, out';
      }
      var unit := payload[offset..offset + length];
      NextUnit(payload, offset, length, units);
      StreamGrows(units, unit);
      Append(out, ByteStream(units), START_CODE + unit);
      units := units + [unit];
      out' := out' + (START_CODE + unit);
      offset := offset + length;
      appendedAnyUnit := true;
    }
    if appendedAnyUnit && offset == |payload| {
      assert payload[offset..] == [];
      assert units + [] == units;
    }
    return appendedAnyUnit && offset == |payload|, out';
  }

  // ---------------------------------------------------------------------------------------------
  // What normalization achieves
  // ---------------------------------------------------------------------------------------------

  /** Parsing inverts length prefixing, on exactly the strings that are length-prefixed units. */
  lemma ParseRoundTrip(payload: seq<byte>, units: Units)
    ensures ParseUnits(payload) == Some(units) <==> Prefixable(units) && payload == LengthPrefixed(units)
  {
    if Prefixable(units) {
      PrefixedParses(units);
    }
    if ParseUnits(payload).Some? {
      ParsedIsPrefixed(payload);
    }
  }

  lemma {:induction false} PrefixedParses(units: Units)
    requires Prefixable(units)
    ensures ParseUnits(LengthPrefixed(units)) == Some(units)
  {
    if units != [] {
      var unit, rest := units[0], units[1..];
      var payload, length := LengthPrefixed(units), BigEndian(|unit|, 4);
      FixedWidthRoundTrip(|unit|, 4);
      Append(length, unit, LengthPrefixed(rest));
      assert payload[..4] == length;
      assert payload[4..4 + |unit|] == unit;
      assert payload[4 + |unit|..] == LengthPrefixed(rest);
      PrefixedParses(rest);
      assert units == [unit] + rest;
    }
  }

  lemma {:induction false} ParsedIsPrefixed(payload: seq<byte>)
    requires ParseUnits(payload).Some?
    ensures Prefixable(ParseUnits(payload).value) && payload == LengthPrefixed(ParseUnits(payload).value)
    decreases |payload|
  {
    if payload != [] {
      var length := FromBigEndian(payload[..4]);
      var unit, tail := payload[4..4 + length], payload[4 + length..];
      ParsedIsPrefixed(tail);
      assert ParseUnits(payload).value == [unit] + ParseUnits(tail).value;
      PrefixedWhole(payload, length, ParseUnits(tail).value);
    }
  }

  lemma PrefixedWhole(payload: seq<byte>, length: nat, rest: Units)
    requires 4 + length <= |payload| && length == FromBigEndian(payload[..4])
    requires payload[4 + length..] == LengthPrefixed(rest)
    ensures length <= 0xFFFF_FFFF && payload == LengthPrefixed([payload[4..4 + length]] + rest)
  {
    FixedWidthParse(payload[..4]);
    PrefixedNext(payload[4..4 + length], rest);
    ThreeParts(payload, 4, 4 + length);
  }

  lemma ThreeParts(s: seq<byte>, i: nat, j: nat)
    requires i <= j <= |s|
    ensures s == s[..i] + (s[i..j] + s[j..])
  {
  }

  lemma OnePrefix()
    ensures BigEndian(1, 4) == START_CODE
  {
    FourBytes(1);
  }

  lemma PrefixedNext(unit: seq<byte>, rest: Units)
    ensures LengthPrefixed([unit] + rest) == BigEndian(|unit|, 4) + (unit + LengthPrefixed(rest))
    ensures ByteStream([unit] + rest) == START_CODE + (unit + ByteStream(rest))
  {
    var units := [unit] + rest;
    assert units[0] == unit && units[1..] == rest;
    Append(BigEndian(|unit|, 4), unit, LengthPrefixed(rest));
    Append(START_CODE, unit, ByteStream(rest));
  }

  /** A length-prefixed payload looks like a byte stream exactly when its first length is 1 or from
      256 to 511. */
  lemma LooksLikeByteStream(units: Units)
    requires Prefixable(units) && units != []
    ensures StartsWithStartCode(LengthPrefixed(units)) <==> |units[0]| == 1 || 256 <= |units[0]| <= 511
  {
    var p, n := LengthPrefixed(units), |units[0]|;
    var b := BigEndian(n, 4);
    assert p == b + (units[0] + LengthPrefixed(units[1..]));
    FourBytes(n);
    assert p[0] == b[0] && p[1] == b[1] && p[2] == b[2] && p[3] == b[3];
  }

  lemma FourBytes(n: nat)
    requires n < TWO_TO_THE_32
    ensures var b := BigEndian(n, 4);
            b[3] == n % 256 && b[2] == n / 256 % 256 && b[1] == n / 0x1_0000 % 256 && b[0] == n / 0x100_0000
  {
    assert BigEndian(n, 4) == BigEndian(n / 256, 3) + [n % 256];
    assert BigEndian(n / 256, 3) == BigEndian(n / 256 / 256, 2) + [n / 256 % 256];
    assert BigEndian(n / 256 / 256, 2) == BigEndian(n / 256 / 256 / 256, 1) + [n / 256 / 256 % 256];
    assert BigEndian(n / 256 / 256 / 256, 1) == [n / 256 / 256 / 256 % 256];
  }

  /** When every unit reaches the stream behind its own start code: always, except that a first
      length of 256 to 511 is mistaken for a start code, and so is a first length of 1, which then
      does no harm only if all units have length 1. */
  lemma NormalizesToByteStream(units: Units)
    requires Prefixable(units) && units != []
    ensures Normalized(LengthPrefixed(units)) == ByteStream(units) <==>
            && !(256 <= |units[0]| <= 511)
            && (|units[0]| == 1 ==> forall i :: 0 <= i < |units| ==> |units[i]| == 1)
  {
    ParseRoundTrip(LengthPrefixed(units), units);
    LooksLikeByteStream(units);
    PrefixesAreStartCodes(units);
    if 256 <= |units[0]| <= 511 {
      assert exists i :: 0 <= i < |units| && |units[i]| != 1 by {
        assert |units[0]| != 1;
      }
    }
  }

  /** At such an input: one unit of 256 bytes, each 0x65, reaches the stream with its length for a start code. */
  lemma LongUnitMistaken()
    ensures var units: Units := [seq(256, _ => 0x65)];
            Prefixable(units) && Normalized(LengthPrefixed(units)) != ByteStream(units)
  {
    var units: Units := [seq(256, _ => 0x65)];
    NormalizesToByteStream(units);
  }

  /** The two forms coincide exactly when every unit has length 1. */
  lemma {:induction false} PrefixesAreStartCodes(units: Units)
    requires Prefixable(units)
    ensures LengthPrefixed(units) == ByteStream(units) <==> AllSingle(units)
  {
    if units != [] {
      var unit, rest := units[0], units[1..];
      assert units == [unit] + rest;
      PrefixesAreStartCodes(rest);
      PrefixedNext(unit, rest);
      FirstPrefix(unit, LengthPrefixed(rest), ByteStream(rest));
      SingleNext(unit, rest);
    }
  }

  predicate AllSingle(units: Units) {
    forall i :: 0 <= i < |units| ==> |units[i]| == 1
  }

  lemma SingleNext(unit: seq<byte>, rest: Units)
    ensures AllSingle([unit] + rest) <==> |unit| == 1 && AllSingle(rest)
  {
    var units := [unit] + rest;
    assert units[0] == unit && forall i :: 0 <= i < |rest| ==> units[i + 1] == rest[i];
  }

  lemma SamePrefix(m: nat, n: nat)
    requires m < TWO_TO_THE_32 && n < TWO_TO_THE_32 && BigEndian(m, 4) == BigEndian(n, 4)
    ensures m == n
  {
    FixedWidthRoundTrip(m, 4);
    FixedWidthRoundTrip(n, 4);
  }

  /** A prefixed unit is one behind a start code exactly when its length is 1 and what follows agrees. */
  lemma FirstPrefix(unit: seq<byte>, prefixed: seq<byte>, stream: seq<byte>)
    requires 1 <= |unit| < TWO_TO_THE_32
    ensures BigEndian(|unit|, 4) + (unit + prefixed) == START_CODE + (unit + stream) <==> |unit| == 1 && prefixed == stream
  {
    OnePrefix();
    if BigEndian(|unit|, 4) + (unit + prefixed) == START_CODE + (unit + stream) {
      Peel(BigEndian(|unit|, 4), unit + prefixed, START_CODE, unit + stream);
      Peel(unit, prefixed, unit, stream);
      SamePrefix(|unit|, 1);
    }
  }

  /** Input that is no whole number of length-prefixed units comes back unchanged, and a second
      normalization changes nothing, on every input. */
  lemma NormalizationStable(payload: seq<byte>)
    ensures (forall units :: Prefixable(units) ==> payload != LengthPrefixed(units)) ==> Normalized(payload) == payload
    ensures Normalized(Normalized(payload)) == Normalized(payload)
  {
    if ParseUnits(payload).Some? {
      ParseRoundTrip(payload, ParseUnits(payload).value);
      var units := ParseUnits(payload).value;
      if units != [] {
        assert ByteStream(units) == START_CODE + (units[0] + ByteStream(units[1..]));
        assert START_CODE <= ByteStream(units);
      }
    }
  }

  /** What the macOS host sends for a unit without parameter sets. */
  function SwiftPayload(payload: seq<byte>): seq<byte> {
    if payload != [] && ParseUnits(payload).Some? then ByteStream(ParseUnits(payload).value) else payload
  }

  /** The two hosts convert alike exactly where the start-code check makes no difference. */
  lemma HostsAgree(payload: seq<byte>)
    ensures SwiftPayload(payload) == Normalized(payload) <==>
            !(StartsWithStartCode(payload) && ParseUnits(payload).Some?
              && exists i :: 0 <= i < |ParseUnits(payload).value| && |ParseUnits(payload).value[i]| != 1)
  {
    if ParseUnits(payload).Some? {
      var units := ParseUnits(payload).value;
      ParseRoundTrip(payload, units);
      PrefixesAreStartCodes(units);
    }
  }
}
