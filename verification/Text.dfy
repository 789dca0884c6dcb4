/** Strings as the settings file uses them: trimming, splitting, lines, decimals and hexadecimal. */
module Text {
  import opened Wrappers
  import opened Bytes

  // ---------------------------------------------------------------------------------------------
  // Trimming
  // ---------------------------------------------------------------------------------------------

  /** The Unicode property White_Space. */
  predicate IsWhitespace(c: char) {
    var n := c as int;
    9 <= n <= 13 || n == 0x20 || n == 0x85 || n == 0xA0 || n == 0x1680 || 0x2000 <= n <= 0x200A
    || n == 0x2028 || n == 0x2029 || n == 0x202F || n == 0x205F || n == 0x3000
  }

  function TrimStart(s: string): string {
    if s != "" && IsWhitespace(s[0]) then TrimStart(s[1..]) else s
  }

  function TrimEnd(s: string): string {
    if s != "" && IsWhitespace(s[|s| - 1]) then TrimEnd(s[..|s| - 1]) else s
  }

  function Trim(s: string): string {
    TrimEnd(TrimStart(s))
  }

  predicate Trimmed(s: string) {
    s == "" || (!IsWhitespace(s[0]) && !IsWhitespace(s[|s| - 1]))
  }

  lemma {:induction false} TrimStartStarts(s: string)
    ensures TrimStart(s) == "" || !IsWhitespace(TrimStart(s)[0])
  {
    if s != "" && IsWhitespace(s[0]) {
      TrimStartStarts(s[1..]);
    }
  }

  lemma {:induction false} TrimEndEnds(s: string)
    ensures TrimEnd(s) <= s
    ensures TrimEnd(s) == "" || !IsWhitespace(TrimEnd(s)[|TrimEnd(s)| - 1])
  {
    if s != "" && IsWhitespace(s[|s| - 1]) {
      TrimEndEnds(s[..|s| - 1]);
    }
  }

  /** Trimming gives a trimmed string, and changes only strings that are not. */
  lemma TrimTrims(s: string)
    ensures Trimmed(Trim(s))
    ensures Trimmed(s) ==> Trim(s) == s
  {
    TrimStartStarts(s);
    TrimEndEnds(TrimStart(s));
    if Trim(s) != "" {
      assert Trim(s)[0] == TrimStart(s)[0];
    }
  }

  /** Trimming never adds characters. */
  lemma {:induction false} TrimKeeps(s: string, c: char)
    requires c in Trim(s)
    ensures c in s
  {
    TrimEndEnds(TrimStart(s));
    assert c in TrimStart(s);
    TrimStartKeeps(s, c);
  }

  lemma {:induction false} TrimStartKeeps(s: string, c: char)
    requires c in TrimStart(s)
    ensures c in s
  {
    if s != "" && IsWhitespace(s[0]) {
      TrimStartKeeps(s[1..], c);
    }
  }

  // ---------------------------------------------------------------------------------------------
  // Splitting
  // ---------------------------------------------------------------------------------------------

  /** What is before and after the first `c`. */
  function SplitOnce(s: string, c: char): Option<(string, string)> {
    if s == "" then None
    else if s[0] == c then Some(("", s[1..]))
    else
      match SplitOnce(s[1..], c)
      case None => None
      case Some((before, after)) => Some(([s[0]] + before, after))
  }

  lemma {:induction false} SplitAtFirst(before: string, c: char, after: string)
    requires c !in before
    ensures SplitOnce(before + ([c] + after), c) == Some((before, after))
  {
    var s := before + ([c] + after);
    if before == "" {
      assert s == [c] + after;
      assert s[1..] == after;
    } else {
      assert s[1..] == before[1..] + ([c] + after);
      SplitAtFirst(before[1..], c, after);
      assert [s[0]] + before[1..] == before;
    }
  }

  function Lines(s: string): seq<string>
    decreases |s|
  {
    match SplitOnce(s, '\n')
    case None => if s == "" then [] else [s]
    case Some((line, rest)) => SplitShrinks(s, '\n'); [line] + Lines(rest)
  }

  lemma {:induction false} SplitShrinks(s: string, c: char)
    ensures SplitOnce(s, c).Some? ==> |SplitOnce(s, c).value.1| < |s|
  {
    if s != "" && s[0] != c {
      SplitShrinks(s[1..], c);
    }
  }

  lemma FirstLine(line: string, rest: string)
    requires '\n' !in line
    ensures Lines(line + ("\n" + rest)) == [line] + Lines(rest)
  {
    SplitAtFirst(line, '\n', rest);
  }

  // ---------------------------------------------------------------------------------------------
  // Decimals
  // ---------------------------------------------------------------------------------------------

  predicate IsDigit(c: char) {
    '0' <= c <= '9'
  }

  function Digit(d: nat): (c: char)
    requires d < 10
    ensures IsDigit(c) && c as int == '0' as int + d
  {
    ('0' as int + d) as char
  }

  function Decimal(n: nat): (s: string)
    ensures s != "" && forall i :: 0 <= i < |s| ==> IsDigit(s[i])
  {
    if n < 10 then [Digit(n)] else Decimal(n / 10) + [Digit(n % 10)]
  }

  /** The value of digits, however many. */
  function DigitsValue(s: string): Option<nat> {
    if s == "" then Some(0)
    else
      var c := s[|s| - 1];
      match DigitsValue(s[..|s| - 1])
      case None => None
      case Some(v) => if IsDigit(c) then Some(10 * v + (c as int - '0' as int)) else None
  }

  /** An unsigned number as the standard library reads it: an optional plus, then at least one digit,
      and no more than the type holds. */
  function ParseUnsigned(s: string, max: nat): Option<nat> {
    var digits := if s != "" && s[0] == '+' then s[1..] else s;
    if digits == "" then None
    else
      match DigitsValue(digits)
      case None => None
      case Some(v) => if v <= max then Some(v) else None
  }

  /** A leading plus changes nothing; a sign alone, or a second one, is no number. */
  lemma PlusRead(s: string, max: nat)
    ensures ParseUnsigned("+" + s, max) == if s != "" && s[0] == '+' then None else ParseUnsigned(s, max)
    ensures ParseUnsigned("", max) == None
  {
    assert ("+" + s)[1..] == s;
    if s != "" && s[0] == '+' {
      NotDigits(s, 0);
    }
  }

  /** One character that is no digit makes the whole no number. */
  lemma {:induction false} NotDigits(s: string, i: nat)
    requires i < |s| && !IsDigit(s[i])
    ensures DigitsValue(s).None?
  {
    if i < |s| - 1 {
      NotDigits(s[..|s| - 1], i);
    }
  }

  lemma {:induction false} DecimalValue(n: nat)
    ensures DigitsValue(Decimal(n)) == Some(n)
  {
    if n < 10 {
      assert DigitsValue("") == Some(0);
      assert [Digit(n)][..0] == "";
    } else {
      var prefix := Decimal(n / 10);
      DecimalValue(n / 10);
      assert (prefix + [Digit(n % 10)])[..|prefix|] == prefix;
    }
  }

  lemma DecimalRoundTrip(n: nat, max: nat)
    ensures ParseUnsigned(Decimal(n), max) == if n <= max then Some(n) else None
  {
    DecimalValue(n);
    assert Decimal(n)[0] != '+';
  }

  // ---------------------------------------------------------------------------------------------
  // Hexadecimal
  // ---------------------------------------------------------------------------------------------

  function HexDigit(d: nat): (c: char)
    requires d < 16
    ensures if d < 10 then c as int == '0' as int + d else c as int == 'a' as int + d - 10
  {
    if d < 10 then ('0' as int + d) as char else ('a' as int + d - 10) as char
  }

  function HexNibble(c: char): (r: Option<nat>)
    ensures r.Some? ==> r.value < 16
  {
    if '0' <= c <= '9' then Some(c as int - '0' as int)
    else if 'a' <= c <= 'f' then Some(c as int - 'a' as int + 10)
    else if 'A' <= c <= 'F' then Some(c as int - 'A' as int + 10)
    else None
  }

  lemma NibbleRoundTrip(d: nat)
    requires d < 16
    ensures HexNibble(HexDigit(d)) == Some(d)
  {
  }

  function Hex(bytes: seq<byte>): (s: string)
    ensures |s| == 2 * |bytes|
  {
    if bytes == [] then ""
    else
      var b := bytes[|bytes| - 1];
      Hex(bytes[..|bytes| - 1]) + [HexDigit(b / 16), HexDigit(b % 16)]
  }

  /** The bytes of pairs of hexadecimal digits. */
  function FromHex(s: string): Option<seq<byte>>
    requires |s| % 2 == 0
  {
    if s == "" then Some([])
    else
      match (FromHex(s[..|s| - 2]), HexNibble(s[|s| - 2]), HexNibble(s[|s| - 1]))
      case (Some(bytes), Some(high), Some(low)) => Some(bytes + [16 * high + low])
      case _ => None
  }

  const MAX_HEX: nat := 8192

  function DecodeHex(text: string): Option<seq<byte>> {
    var s := Trim(text);
    if |s| % 2 != 0 || |s| > MAX_HEX then None else FromHex(s)
  }

  lemma {:induction false} FromHexRoundTrip(bytes: seq<byte>)
    ensures |Hex(bytes)| % 2 == 0 && FromHex(Hex(bytes)) == Some(bytes)
  {
    if bytes != [] {
      var n, b := |bytes| - 1, bytes[|bytes| - 1];
      var s := Hex(bytes[..n]);
      FromHexRoundTrip(bytes[..n]);
      NibbleRoundTrip(b / 16);
      NibbleRoundTrip(b % 16);
      assert Hex(bytes)[..2 * n] == s;
      assert bytes == bytes[..n] + [b];
    }
  }

  lemma {:induction false} HexPlain(bytes: seq<byte>)
    ensures forall i :: 0 <= i < |Hex(bytes)| ==> IsHexLower(Hex(bytes)[i])
  {
    if bytes != [] {
      HexPlain(bytes[..|bytes| - 1]);
    }
  }

  predicate IsHexLower(c: char) {
    '0' <= c <= '9' || 'a' <= c <= 'f'
  }

  lemma HexTrimmed(s: string)
    requires forall i :: 0 <= i < |s| ==> IsHexLower(s[i])
    ensures Trim(s) == s
  {
    TrimTrims(s);
  }

  /** Bytes survive the trip through hexadecimal exactly when there are at most 4,096 of them. */
  lemma HexRoundTrip(bytes: seq<byte>)
    ensures DecodeHex(Hex(bytes)) == if |bytes| <= 4096 then Some(bytes) else None
  {
    HexPlain(bytes);
    HexTrimmed(Hex(bytes));
    FromHexRoundTrip(bytes);
  }

  /** Every accepted text, already trimmed, spells up to case the bytes it decodes to. */
  lemma {:induction false} FromHexImage(s: string)
    requires |s| % 2 == 0 && FromHex(s).Some?
    ensures |FromHex(s).value| == |s| / 2
    ensures Hex(FromHex(s).value) == AsciiLower(s)
  {
    if s != "" {
      var n := |s| - 2;
      FromHexImage(s[..n]);
      var bytes, high, low := FromHex(s[..n]).value, HexNibble(s[n]).value, HexNibble(s[n + 1]).value;
      DivModUnique(16 * high + low, 16, high, low);
      assert (bytes + [16 * high + low])[..|bytes|] == bytes;
      assert AsciiLower(s) == AsciiLower(s[..n]) + [LowerChar(s[n]), LowerChar(s[n + 1])];
    }
  }

  // ---------------------------------------------------------------------------------------------
  // Case and order
  // ---------------------------------------------------------------------------------------------

  function LowerChar(c: char): char {
    if 'A' <= c <= 'Z' then ((c as int) + 32) as char else c
  }

  function AsciiLower(s: string): (r: string)
    ensures |r| == |s|
  {
    seq(|s|, i requires 0 <= i < |s| => LowerChar(s[i]))
  }

  predicate SameIgnoringCase(a: string, b: string) {
    AsciiLower(a) == AsciiLower(b)
  }

  /** Strings in the order of their characters, as byte order of their UTF-8 forms. */
  predicate AtMost(a: string, b: string) {
    a == "" || (b != "" && (a[0] < b[0] || (a[0] == b[0] && AtMost(a[1..], b[1..]))))
  }

  lemma {:induction false} AtMostTotal(a: string, b: string)
    ensures AtMost(a, b) || AtMost(b, a)
  {
    if a != "" && b != "" && a[0] == b[0] {
      AtMostTotal(a[1..], b[1..]);
    }
  }

  lemma {:induction false} AtMostTransitive(a: string, b: string, c: string)
    requires AtMost(a, b) && AtMost(b, c)
    ensures AtMost(a, c)
  {
    if a != "" && a[0] == b[0] && b[0] == c[0] {
      AtMostTransitive(a[1..], b[1..], c[1..]);
    }
  }

  // ---------------------------------------------------------------------------------------------
  // UTF-8 lengths
  // ---------------------------------------------------------------------------------------------

  function Utf8Len(c: char): (n: nat)
    ensures 1 <= n <= 4
  {
    var n := c as int;
    if n < 0x80 then 1 else if n < 0x800 then 2 else if n < 0x1_0000 then 3 else 4
  }

  function Utf8Size(s: string): nat {
    if s == "" then 0 else Utf8Len(s[0]) + Utf8Size(s[1..])
  }

  /** The prefix that takes `n` bytes; there is none when byte `n` is inside a character. */
  function Prefix(s: string, n: nat): Option<string> {
    if n == 0 then Some("")
    else if s == "" || Utf8Len(s[0]) > n then None
    else
      match Prefix(s[1..], n - Utf8Len(s[0]))
      case None => None
      case Some(rest) => Some([s[0]] + rest)
  }

  /** `truncate`, or `None` where it panics. */
  function Truncated(s: string, n: nat): Option<string> {
    if Utf8Size(s) <= n then Some(s) else Prefix(s, n)
  }

  lemma {:induction false} PrefixExact(s: string, n: nat)
    ensures Prefix(s, n).Some? ==> Prefix(s, n).value <= s && Utf8Size(Prefix(s, n).value) == n
    ensures Prefix(s, n).Some? <==> exists k :: 0 <= k <= |s| && Utf8Size(s[..k]) == n
  {
    if n == 0 {
      assert Utf8Size(s[..0]) == n;
    } else if s != "" && Utf8Len(s[0]) <= n {
      PrefixExact(s[1..], n - Utf8Len(s[0]));
      forall k | 0 < k <= |s|
        ensures Utf8Size(s[..k]) == Utf8Len(s[0]) + Utf8Size(s[1..][..k - 1])
      {
        assert s[..k][1..] == s[1..][..k - 1];
      }
      if k :| 0 <= k <= |s[1..]| && Utf8Size(s[1..][..k]) == n - Utf8Len(s[0]) {
        assert Utf8Size(s[..k + 1]) == n;
      }
    } else {
      forall k | 0 <= k <= |s|
        ensures Utf8Size(s[..k]) != n
      {
        assert k > 0 ==> s[..k][0] == s[0];
      }
    }
  }

  lemma {:induction false} Utf8SizePrefix(s: string, k: nat)
    requires k <= |s|
    ensures Utf8Size(s[..k]) <= Utf8Size(s)
  {
    if k > 0 {
      assert s[..k][1..] == s[1..][..k - 1];
      Utf8SizePrefix(s[1..], k - 1);
    }
  }
}
