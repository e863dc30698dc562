/** The string operations of the host runtime the codec relies on: padding,
    character search, trimming, and invariant-culture decimal formatting and
    parsing of integers, booleans and floating-point literals. */
module NetStrings {
  import opened Wrappers

  /** `new string(' ', n)`. */
  function Spaces(n: nat): (r: string)
    ensures |r| == n && forall i :: 0 <= i < n ==> r[i] == ' '
  {
    seq(n, _ => ' ')
  }

  /** The number of spaces a string starts with. */
  function LeadingSpaces(s: string): (r: nat)
    ensures r <= |s| && forall k :: 0 <= k < r ==> s[k] == ' '
    ensures r < |s| ==> s[r] != ' '
  {
    if |s| > 0 && s[0] == ' ' then 1 + LeadingSpaces(s[1..]) else 0
  }

  /** `IndexOf(c)`: the first position of `c`, or -1. */
  function IndexOf(s: string, c: char): (r: int)
    ensures -1 <= r < |s|
    ensures r == -1 <==> c !in s
    ensures r >= 0 ==> s[r] == c && c !in s[..r]
  {
    if |s| == 0 then -1
    else if s[0] == c then 0
    else
      var k := IndexOf(s[1..], c);
      assert s[1..][..if k < 0 then 0 else k] == s[1..1 + if k < 0 then 0 else k];
      if k == -1 then -1 else k + 1
  }

  /** `LastIndexOf(c)`: the last position of `c`, or -1. */
  function LastIndexOf(s: string, c: char): (r: int)
    ensures -1 <= r < |s|
    ensures r == -1 <==> c !in s
    ensures r >= 0 ==> s[r] == c && c !in s[r + 1..]
  {
    if |s| == 0 then -1
    else if s[|s| - 1] == c then |s| - 1
    else
      var k := LastIndexOf(s[..|s| - 1], c);
      assert s == s[..|s| - 1] + [s[|s| - 1]];
      k
  }

  /** `Char.IsWhiteSpace`. */
  predicate IsWhiteSpace(c: char)
  {
    c == ' ' || ('\t' <= c <= '\r') || c == '\U{0085}' || c == '\U{00A0}' || c == '\U{1680}'
    || ('\U{2000}' <= c <= '\U{200A}') || c == '\U{2028}' || c == '\U{2029}' || c == '\U{202F}'
    || c == '\U{205F}' || c == '\U{3000}'
  }

  /** The white space a number may carry around it: tab to carriage return, and space. */
  predicate IsNumberWhite(c: char)
  {
    c == ' ' || ('\t' <= c <= '\r')
  }

  function TrimStartBy(s: string, p: char -> bool): (r: string)
    ensures |r| <= |s| && r == s[|s| - |r|..]
    ensures forall i :: 0 <= i < |s| - |r| ==> p(s[i])
    ensures |r| > 0 ==> !p(r[0])
  {
    if |s| > 0 && p(s[0]) then TrimStartBy(s[1..], p) else s
  }

  function TrimEndBy(s: string, p: char -> bool): (r: string)
    ensures |r| <= |s| && r == s[..|r|]
    ensures forall i :: |r| <= i < |s| ==> p(s[i])
    ensures |r| > 0 ==> !p(r[|r| - 1])
  {
    if |s| > 0 && p(s[|s| - 1]) then TrimEndBy(s[..|s| - 1], p) else s
  }

  /** `String.Trim()`. */
  function Trim(s: string): (r: string)
    ensures |r| > 0 ==> !IsWhiteSpace(r[0]) && !IsWhiteSpace(r[|r| - 1])
  {
    TrimEndBy(TrimStartBy(s, IsWhiteSpace), IsWhiteSpace)
  }

  /** A string whose ends are not white is left alone by trimming. */
  lemma TrimUnchanged(s: string, p: char -> bool)
    requires |s| > 0 ==> !p(s[0]) && !p(s[|s| - 1])
    ensures TrimEndBy(TrimStartBy(s, p), p) == s
  {
  }

  predicate IsDigit(c: char)
  {
    '0' <= c <= '9'
  }

  predicate AllDigits(s: string)
  {
    forall i :: 0 <= i < |s| ==> IsDigit(s[i])
  }

  function DigitChar(d: nat): (c: char)
    requires d < 10
    ensures IsDigit(c) && c as int - '0' as int == d
  {
    ('0' as int + d) as char
  }

  /** The number a run of decimal digits denotes. */
  function DigitsValue(s: string): nat
    requires AllDigits(s)
  {
    if |s| == 0 then 0 else DigitsValue(s[..|s| - 1]) * 10 + (s[|s| - 1] as int - '0' as int)
  }

  /** Decimal rendering of a natural number, without leading zeros. */
  function NatToString(n: nat): (r: string)
    ensures |r| > 0 && AllDigits(r)
  {
    if n < 10 then [DigitChar(n)] else NatToString(n / 10) + [DigitChar(n % 10)]
  }

  lemma {:induction false} NatToStringValue(n: nat)
    ensures DigitsValue(NatToString(n)) == n
  {
    if n >= 10 {
      var r := NatToString(n);
      assert r[..|r| - 1] == NatToString(n / 10);
      NatToStringValue(n / 10);
    }
  }

  /** Invariant-culture decimal rendering of an integer. */
  function IntToString(i: int): (r: string)
    ensures |r| > 0 && (r[0] == '-' || IsDigit(r[0])) && IsDigit(r[|r| - 1])
  {
    if i < 0 then "-" + NatToString(-i) else NatToString(i)
  }

  /** `{i:d8}`: at least `width` digits, zero-padded on the left. */
  function ZeroPad(n: nat, width: nat): (r: string)
    ensures AllDigits(r) && DigitsValue(r) == n
    ensures |r| == if |NatToString(n)| < width then width else |NatToString(n)|
  {
    var d := NatToString(n);
    NatToStringValue(n);
    if |d| < width then
      var r := seq(width - |d|, _ => '0') + d;
      LeadingZeros(width - |d|, d);
      r
    else d
  }

  lemma {:induction false} LeadingZeros(k: nat, d: string)
    requires AllDigits(d)
    ensures AllDigits(seq(k, _ => '0') + d)
    ensures DigitsValue(seq(k, _ => '0') + d) == DigitsValue(d)
  {
    var s := seq(k, _ => '0') + d;
    if |d| == 0 {
      ZerosValue(k);
      assert s == seq(k, _ => '0');
    } else {
      assert s[..|s| - 1] == seq(k, _ => '0') + d[..|d| - 1];
      LeadingZeros(k, d[..|d| - 1]);
    }
  }

  lemma {:induction false} ZerosValue(k: nat)
    ensures AllDigits(seq(k, _ => '0')) && DigitsValue(seq(k, _ => '0')) == 0
  {
    if k > 0 {
      assert seq(k, _ => '0')[..k - 1] == seq(k - 1, _ => '0');
      ZerosValue(k - 1);
    }
  }

  /** Invariant-culture integer parsing with NumberStyles.Integer: optional
      white space around, an optional leading sign, at least one digit.
      None is the FormatException. Range checks belong to the caller. */
  function ParseInteger(s: string): (r: Option<int>)
    ensures r.Some? ==> exists i :: 0 <= i < |s| && IsDigit(s[i])
  {
    var t := TrimEndBy(TrimStartBy(s, IsNumberWhite), IsNumberWhite);
    if |t| > 1 && (t[0] == '-' || t[0] == '+') && AllDigits(t[1..]) then
      assert IsDigit(t[1..][0]);
      var d: int := DigitsValue(t[1..]);
      var v := if t[0] == '-' then -d else d;
      Some(v)
    else if |t| > 0 && AllDigits(t) then
      assert IsDigit(t[0]);
      Some(DigitsValue(t))
    else None
  }

  lemma ParseIntegerOfIntToString(i: int)
    ensures ParseInteger(IntToString(i)) == Some(i)
  {
    if i < 0 {
      var n: nat := -i;
      ParseNegative(n);
      assert IntToString(i) == "-" + NatToString(n);
    } else {
      ParseNatural(i);
      assert IntToString(i) == NatToString(i);
    }
  }

  lemma ParseNatural(n: nat)
    ensures ParseInteger(NatToString(n)) == Some(n)
  {
    TrimUnchanged(NatToString(n), IsNumberWhite);
    NatToStringValue(n);
  }

  lemma ParseNegative(n: nat)
    ensures ParseInteger("-" + NatToString(n)) == Some(-(n as int))
  {
    var t := NatToString(n);
    var s := "-" + t;
    assert s[1..] == t;
    NatToStringValue(n);
    ParseMinus(s, n);
  }

  /** A minus sign followed by digits parses as the negated digits. */
  lemma ParseMinus(s: string, v: nat)
    requires |s| > 1 && s[0] == '-' && AllDigits(s[1..]) && DigitsValue(s[1..]) == v
    ensures ParseInteger(s) == Some(-(v as int))
  {
    assert IsDigit(s[1..][|s| - 2]);
    TrimUnchanged(s, IsNumberWhite);
  }

  function AsciiLower(c: char): char
  {
    if 'A' <= c <= 'Z' then (c as int + 32) as char else c
  }

  /** Ordinal comparison ignoring the case of ASCII letters. */
  predicate EqualsIgnoreCase(a: string, b: string)
  {
    |a| == |b| && forall i :: 0 <= i < |a| ==> AsciiLower(a[i]) == AsciiLower(b[i])
  }

  predicate IsWhiteOrNul(c: char)
  {
    IsWhiteSpace(c) || c == '\0'
  }

  /** `bool.Parse`: "True" or "False" in any letter case, white space and NUL
      characters around it ignored. None is the FormatException. */
  function ParseBool(s: string): (r: Option<bool>)
    ensures r == Some(true) <==> EqualsIgnoreCase(TrimEndBy(TrimStartBy(s, IsWhiteOrNul), IsWhiteOrNul), "true")
    ensures r == Some(false) <==> EqualsIgnoreCase(TrimEndBy(TrimStartBy(s, IsWhiteOrNul), IsWhiteOrNul), "false")
  {
    var t := TrimEndBy(TrimStartBy(s, IsWhiteOrNul), IsWhiteOrNul);
    if EqualsIgnoreCase(t, "true") then Some(true)
    else if EqualsIgnoreCase(t, "false") then Some(false)
    else None
  }

  /** First position at or after `i` that is not a digit. */
  function SkipDigits(t: string, i: nat): (r: nat)
    requires i <= |t|
    ensures i <= r <= |t| && (r < |t| ==> !IsDigit(t[r]))
    ensures forall k :: i <= k < r ==> IsDigit(t[k])
    decreases |t| - i
  {
    if i < |t| && IsDigit(t[i]) then SkipDigits(t, i + 1) else i
  }

  /** The literals NumberStyles.Float accepts: white space around, an optional
      sign, digits with an optional decimal point (at least one digit in all),
      an optional exponent; or one of the symbols for infinity and NaN. */
  predicate IsFloatLiteral(s: string)
  {
    var t := TrimEndBy(TrimStartBy(s, IsNumberWhite), IsNumberWhite);
    t == "NaN" || t == "Infinity" || t == "-Infinity" || t == "+Infinity" ||
    (var i0 := if |t| > 0 && (t[0] == '+' || t[0] == '-') then 1 else 0;
    var i1 := SkipDigits(t, i0);
    var i2 := if i1 < |t| && t[i1] == '.' then SkipDigits(t, i1 + 1) else i1;
    var fraction := if i1 < |t| && t[i1] == '.' then i2 - i1 - 1 else 0;
    (i1 - i0) + fraction > 0 &&
    (i2 == |t| ||
      ((t[i2] == 'e' || t[i2] == 'E') &&
       var i3 := if i2 + 1 < |t| && (t[i2 + 1] == '+' || t[i2 + 1] == '-') then i2 + 2 else i2 + 1;
       var i4 := SkipDigits(t, i3);
       i4 > i3 && i4 == |t|)))
  }
}
