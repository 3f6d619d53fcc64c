/** The .NET string operations that RobotController relies on, as total functions over
    strings: invariant upper-casing (ASCII letters only), ordinal prefix and character
    search, Char.IsWhiteSpace, and Int32.TryParse restricted to surrounding white space,
    an optional sign and decimal digits.  IntToDecimal renders an int the way
    Int32.ToString does for the invariant culture. */
module TextRules {

  datatype Option<T> = None | Some(value: T)

  const MinInt32: int := -0x8000_0000
  const MaxInt32: int := 0x7FFF_FFFF

  predicate InInt32(n: int) {
    MinInt32 <= n <= MaxInt32
  }

  // ---------------------------------------------------------------------------
  // Upper-casing (String.ToUpperInvariant, ASCII letters)
  // ---------------------------------------------------------------------------

  predicate IsAsciiLower(c: char) {
    'a' <= c <= 'z'
  }

  function UpperChar(c: char): (u: char)
    ensures !IsAsciiLower(u)
    ensures IsAsciiLower(c) ==> u as int == c as int - 32
    ensures !IsAsciiLower(c) ==> u == c
  {
    if IsAsciiLower(c) then (c as int - 32) as char else c
  }

  /** Every character mapped through UpperChar, position by position: no lower-case
      letter is left, and nothing but lower-case letters changes. */
  function ToUpper(s: string): (r: string)
    ensures |r| == |s| && NoLower(r)
    ensures forall i :: 0 <= i < |s| && !IsAsciiLower(s[i]) ==> r[i] == s[i]
  {
    seq(|s|, i requires 0 <= i < |s| => UpperChar(s[i]))
  }

  /** No lower-case ASCII letter anywhere in s. */
  predicate NoLower(s: string) {
    forall i :: 0 <= i < |s| ==> !IsAsciiLower(s[i])
  }

  lemma NoLowerConcat(a: string, b: string)
    requires NoLower(a) && NoLower(b)
    ensures NoLower(a + b)
  {
    assert forall i :: |a| <= i < |a + b| ==> (a + b)[i] == b[i - |a|];
  }

  /** A string with no lower-case ASCII letter is its own upper-case form. */
  lemma ToUpperFixed(s: string)
    requires NoLower(s)
    ensures ToUpper(s) == s
  {
  }

  lemma ToUpperIdempotent(s: string)
    ensures ToUpper(ToUpper(s)) == ToUpper(s)
  {
    ToUpperFixed(ToUpper(s));
  }

  lemma ToUpperConcat(a: string, b: string)
    ensures ToUpper(a + b) == ToUpper(a) + ToUpper(b)
  {
  }

  // ---------------------------------------------------------------------------
  // Ordinal prefix test and character search
  // ---------------------------------------------------------------------------

  /** String.StartsWith, compared character by character. */
  predicate StartsWith(s: string, prefix: string): (b: bool)
    ensures b ==> |prefix| <= |s| && forall i :: 0 <= i < |prefix| ==> s[i] == prefix[i]
  {
    |prefix| <= |s| && s[..|prefix|] == prefix
  }

  /** String.IndexOf(char): the first index holding c, or -1 when c does not occur. */
  function IndexOf(s: string, c: char): (r: int)
    ensures -1 <= r < |s|
    ensures r >= 0 ==> s[r] == c
    ensures forall j :: 0 <= j < |s| && (r < 0 || j < r) ==> s[j] != c
  {
    IndexFrom(s, c, 0)
  }

  /** The first index at or after start holding c, or -1. */
  function IndexFrom(s: string, c: char, start: nat): (r: int)
    requires start <= |s|
    ensures -1 <= r < |s| && (r >= 0 ==> start <= r && s[r] == c)
    ensures forall j :: start <= j < |s| && (r < 0 || j < r) ==> s[j] != c
    decreases |s| - start
  {
    if start == |s| then -1
    else if s[start] == c then start
    else IndexFrom(s, c, start + 1)
  }

  /** String.LastIndexOf(char): the last index holding c, or -1 when c does not occur. */
  function LastIndexOf(s: string, c: char): (r: int)
    ensures -1 <= r < |s|
    ensures r >= 0 ==> s[r] == c
    ensures forall j :: r < j < |s| ==> s[j] != c
  {
    LastIndexBefore(s, c, |s|)
  }

  /** The last index before end holding c, or -1. */
  function LastIndexBefore(s: string, c: char, end: nat): (r: int)
    requires end <= |s|
    ensures -1 <= r < end && (r >= 0 ==> s[r] == c)
    ensures forall j :: r < j < end ==> s[j] != c
  {
    if end == 0 then -1
    else if s[end - 1] == c then end - 1
    else LastIndexBefore(s, c, end - 1)
  }

  // ---------------------------------------------------------------------------
  // White space
  // ---------------------------------------------------------------------------

  /** Char.IsWhiteSpace: the Unicode separators plus U+0009..U+000D, U+0085 and U+00A0. */
  predicate IsWhiteSpace(c: char): (b: bool)
    ensures IsNumberWhite(c) ==> b
    ensures b ==> !IsDigit(c) && c != '-' && c != '+'
  {
    c == ' ' || ('\t' <= c <= '\r') || c == '\U{0085}' || c == '\U{00A0}'
    || c == '\U{1680}' || ('\U{2000}' <= c <= '\U{200A}') || c == '\U{2028}' || c == '\U{2029}'
    || c == '\U{202F}' || c == '\U{205F}' || c == '\U{3000}'
  }

  /** String.IsNullOrWhiteSpace for a non-null string: empty or white space only. */
  predicate IsNullOrWhiteSpace(s: string): (b: bool)
    ensures s == [] ==> b
    ensures b ==> forall i :: 0 <= i < |s| ==> !IsDigit(s[i])
  {
    forall i :: 0 <= i < |s| ==> IsWhiteSpace(s[i])
  }

  /** The white space Int32.TryParse skips around a number: U+0009..U+000D and U+0020. */
  predicate IsNumberWhite(c: char) {
    c == ' ' || ('\t' <= c <= '\r')
  }

  /** The first index at or after i that is not number white space. */
  function SkipWhite(s: string, i: nat): (k: nat)
    requires i <= |s|
    ensures i <= k <= |s|
    decreases |s| - i
  {
    if i < |s| && IsNumberWhite(s[i]) then SkipWhite(s, i + 1) else i
  }

  /** The end of s once the number white space before end is dropped. */
  function SkipWhiteBack(s: string, end: nat): (k: nat)
    requires end <= |s|
    ensures k <= end
  {
    if end > 0 && IsNumberWhite(s[end - 1]) then SkipWhiteBack(s, end - 1) else end
  }

  /** The text left once the leading number white space is dropped. */
  function TrimStart(s: string): string {
    s[SkipWhite(s, 0)..]
  }

  /** The text left once the trailing number white space is dropped. */
  function TrimEnd(s: string): string {
    s[..SkipWhiteBack(s, |s|)]
  }

  // ---------------------------------------------------------------------------
  // Decimal digits
  // ---------------------------------------------------------------------------

  predicate IsDigit(c: char) {
    '0' <= c <= '9'
  }

  /** One or more decimal digits and nothing else. */
  predicate IsDigits(s: string) {
    |s| > 0 && forall i :: 0 <= i < |s| ==> IsDigit(s[i])
  }

  function DigitValue(c: char): (v: nat)
    requires IsDigit(c)
    ensures v < 10
  {
    c as int - '0' as int
  }

  function DigitChar(v: nat): (c: char)
    requires v < 10
    ensures IsDigit(c) && DigitValue(c) == v
  {
    ('0' as int + v) as char
  }

  /** The value of a digit string read most significant digit first. */
  function DigitsValue(s: string): nat
    requires forall i :: 0 <= i < |s| ==> IsDigit(s[i])
  {
    if s == [] then 0 else DigitsValue(s[..|s| - 1]) * 10 + DigitValue(s[|s| - 1])
  }

  /** Int32.TryParse with NumberStyles.Integer: white space, an optional sign, at least one
      digit, white space; no value outside the 32-bit range. */
  function ParseInt(s: string): (r: Option<int>)
    ensures r.Some? ==> InInt32(r.value)
  {
    ParseTrimmed(TrimEnd(TrimStart(s)))
  }

  /** TryParse once the surrounding white space is gone: an optional sign, then digits. */
  function ParseTrimmed(t: string): (r: Option<int>)
    ensures r.Some? ==> InInt32(r.value)
    ensures r.Some? ==> t != [] && (IsDigit(t[0]) || t[0] == '-' || t[0] == '+')
    ensures r.Some? && t[0] == '-' ==> r.value <= 0
    ensures r.Some? && t[0] != '-' ==> r.value >= 0
  {
    var negative := t != [] && t[0] == '-';
    var digits := if t != [] && (t[0] == '-' || t[0] == '+') then t[1..] else t;
    if !IsDigits(digits) then None
    else
      var magnitude: int := DigitsValue(digits);
      var v := if negative then -magnitude else magnitude;
      if InInt32(v) then Some(v) else None
  }

  /** Trimming keeps a string that starts and ends with something other than white space. */
  lemma TrimKeeps(s: string)
    requires s != [] && !IsNumberWhite(s[0]) && !IsNumberWhite(s[|s| - 1])
    ensures TrimEnd(TrimStart(s)) == s
  {
    assert SkipWhite(s, 0) == 0;
    assert TrimStart(s) == s;
    assert SkipWhiteBack(s, |s|) == |s|;
  }

  /** Int32.TryParse succeeds only on text whose first character is white space, a sign or
      a digit. */
  lemma ParseIntFirstChar(s: string)
    requires s != [] && !IsNumberWhite(s[0]) && s[0] != '-' && s[0] != '+' && !IsDigit(s[0])
    ensures ParseInt(s) == None
  {
    assert SkipWhite(s, 0) == 0;
    assert TrimStart(s) == s;
    var t := TrimEnd(s);
    if t != [] {
      assert t[0] == s[0];
    }
  }

  /** A blank field never parses: String.IsNullOrWhiteSpace rules out every number. */
  lemma BlankNeverParses(s: string)
    requires IsNullOrWhiteSpace(s)
    ensures ParseInt(s) == None
  {
    var k := SkipWhite(s, 0);
    var t := TrimEnd(TrimStart(s));
    assert forall i :: 0 <= i < |t| ==> t[i] == s[k + i];
    if t != [] {
      assert IsWhiteSpace(s[k]);
    }
  }

  // ---------------------------------------------------------------------------
  // Decimal rendering (Int32.ToString)
  // ---------------------------------------------------------------------------

  /** The canonical decimal digits of n: no leading zero unless n is zero. */
  function NatToDecimal(n: nat): (r: string)
    ensures IsDigits(r) && DigitsValue(r) == n
    ensures r[0] == '0' ==> r == "0"
    decreases n
  {
    if n < 10 then [DigitChar(n)]
    else
      var front := NatToDecimal(n / 10);
      var r := front + [DigitChar(n % 10)];
      assert r[..|r| - 1] == front;
      r
  }

  /** Int32.ToString: a minus sign for negative numbers, then the canonical digits. */
  function IntToDecimal(n: int): (r: string)
    ensures r != [] && !IsNumberWhite(r[0]) && IsDigit(r[|r| - 1])
  {
    if n < 0 then "-" + NatToDecimal(-n) else NatToDecimal(n)
  }

  /** Every character of a decimal rendering is a digit, except a leading minus sign. */
  lemma DecimalChars(n: int)
    ensures var r := IntToDecimal(n);
            forall i :: 0 <= i < |r| ==> IsDigit(r[i]) || (i == 0 && r[i] == '-' && n < 0)
  {
  }

  /** Parsing what IntToDecimal renders gives the number back, exactly when it fits in 32
      bits. */
  lemma ParseIntToDecimal(n: int)
    ensures ParseInt(IntToDecimal(n)) == if InInt32(n) then Some(n) else None
  {
    TrimKeeps(IntToDecimal(n));
    if n < 0 {
      NegativeDecimal(n);
    } else {
      ParseNatDecimal(n);
    }
  }

  lemma ParseNatDecimal(n: nat)
    ensures ParseTrimmed(NatToDecimal(n)) == if InInt32(n) then Some(n) else None
  {
    var s := NatToDecimal(n);
    assert s[0] != '-' && s[0] != '+';
  }

  lemma NegativeDecimal(n: int)
    requires n < 0
    ensures ParseTrimmed(IntToDecimal(n)) == if InInt32(n) then Some(n) else None
  {
    var s := IntToDecimal(n);
    assert s[0] == '-' && s[1..] == NatToDecimal(-n);
  }

  /** A decimal rendering holds no lower-case letter. */
  lemma DecimalNoLower(n: int)
    ensures NoLower(IntToDecimal(n))
  {
    DecimalChars(n);
  }

  /** The values 0..9 render as one digit. */
  lemma SmallDecimal(n: int)
    requires 0 <= n < 10
    ensures IntToDecimal(n) == [DigitChar(n)]
  {
  }
}
