/** Finding a key frame in a byte stream: does any NAL unit carry an IDR slice? */
module Keyframe {
  import opened Bytes
  import opened AnnexB

  const IDR: nat := 5

  function NalType(header: byte): nat {
    header % 32
  }

  /** The scan from some position on; it stops four bytes before the end. */
  function Scan(s: seq<byte>): bool {
    if |s| <= 4 then false
    else if START_CODE <= s then NalType(s[4]) == IDR || Scan(s[5..])
    else if [0, 0, 1] <= s then NalType(s[3]) == IDR || Scan(s[4..])
    else Scan(s[1..])
  }

  lemma ScanFrom(payload: seq<byte>, index: nat)
    requires index + 4 < |payload|
    ensures var rest := payload[index..];
            Scan(rest) == if START_CODE <= rest then NalType(payload[index + 4]) == IDR || Scan(payload[index + 5..])
                          else if [0, 0, 1] <= rest then NalType(payload[index + 3]) == IDR || Scan(payload[index + 4..])
                          else Scan(payload[index + 1..])
  {
    var rest := payload[index..];
    assert payload[index + 5..] == rest[5..] && payload[index + 4..] == rest[4..] && payload[index + 1..] == rest[1..];
  }

  method ContainsIdr(payload: seq<byte>) returns (found: bool)
    ensures found == Scan(payload)
  {
    var index := 0;
    assert payload[0..] == payload;
    while index + 4 < |payload|
      invariant index <= |payload|
      invariant Scan(payload) == Scan(payload[index..])
      decreases |payload| - index
    {
      ScanFrom(payload, index);
      var rest := payload[index..];
      var startLen;
      if START_CODE <= rest {
        startLen := 4;
      } else if [0, 0, 1] <= rest {
        startLen := 3;
      } else {
        index := index + 1;
        continue;
      }
      var nalIndex := index + startLen;
      if NalType(payload[nalIndex]) == IDR {
        return true;
      }
      index := nalIndex + 1;
    }
    return false;
  }

  /** No start code inside the bytes, as emulation prevention ensures. */
  ghost predicate NoStartCode(bytes: seq<byte>) {
    forall k :: 0 <= k && k + 2 < |bytes| ==> !(bytes[k] == 0 && bytes[k + 1] == 0 && bytes[k + 2] == 1)
  }

  ghost predicate CleanUnit(unit: seq<byte>) {
    unit != [] && NoStartCode(unit[1..])
  }

  predicate IsIdr(unit: seq<byte>) {
    unit != [] && NalType(unit[0]) == IDR
  }

  /** The scan passes over bytes without a start code, up to the next unit or the end. */
  lemma {:induction false} SkipBytes(bytes: seq<byte>, rest: seq<byte>)
    requires NoStartCode(bytes) && (rest == [] || (|rest| > 4 && START_CODE <= rest))
    ensures Scan(bytes + rest) == Scan(rest)
  {
    var s := bytes + rest;
    if bytes == [] {
      assert s == rest;
    } else if |s| > 4 {
      forall k | 0 <= k && k + 2 < |bytes[1..]|
        ensures !(bytes[1..][k] == 0 && bytes[1..][k + 1] == 0 && bytes[1..][k + 2] == 1)
      {
        assert bytes[k + 1] == bytes[1..][k];
      }
      SkipBytes(bytes[1..], rest);
      assert s[1..] == bytes[1..] + rest;
      NotAtStartCode(bytes, rest);
    }
  }

  lemma NotAtStartCode(bytes: seq<byte>, rest: seq<byte>)
    requires NoStartCode(bytes) && bytes != [] && (rest == [] || (|rest| > 4 && START_CODE <= rest))
    ensures !([0, 0, 1] <= bytes + rest) && !(START_CODE <= bytes + rest)
  {
    var s := bytes + rest;
    assert |bytes| >= 3 ==> !(bytes[0] == 0 && bytes[1] == 0 && bytes[2] == 1);
    assert |bytes| >= 4 ==> !(bytes[1] == 0 && bytes[2] == 0 && bytes[3] == 1);
    assert forall k :: 0 <= k < |bytes| ==> s[k] == bytes[k];
    assert rest != [] ==> s[|bytes|] == 0 && s[|bytes| + 1] == 0 && s[|bytes| + 2] == 0;
  }

  lemma StreamStart(units: Units)
    requires units != [] && units[0] != []
    ensures |ByteStream(units)| > 4 && START_CODE <= ByteStream(units)
    ensures ByteStream(units)[4] == units[0][0] && ByteStream(units)[5..] == units[0][1..] + ByteStream(units[1..])
  {
    assert ByteStream(units) == START_CODE + (units[0] + ByteStream(units[1..]));
    assert units[0] + ByteStream(units[1..]) == [units[0][0]] + (units[0][1..] + ByteStream(units[1..]));
  }

  /** A byte stream of clean units is found to hold an IDR slice exactly when one of its units is one. */
  lemma {:induction false} IdrFound(units: Units)
    requires forall i :: 0 <= i < |units| ==> CleanUnit(units[i])
    ensures Scan(ByteStream(units)) <==> exists i :: 0 <= i < |units| && IsIdr(units[i])
  {
    if units != [] {
      var rest := units[1..];
      assert CleanUnit(units[0]);
      StreamStart(units);
      if rest != [] {
        assert CleanUnit(units[1]);
        StreamStart(rest);
      }
      SkipBytes(units[0][1..], ByteStream(rest));
      IdrFound(rest);
      if i :| 0 <= i < |units| && IsIdr(units[i]) {
        assert i == 0 || rest[i - 1] == units[i];
      }
      if i :| 0 <= i < |rest| && IsIdr(rest[i]) {
        assert units[i + 1] == rest[i];
      }
    }
  }
}
