/** Python's `int(text)` and `int(float(text))` on decimal text. */
module PyNum {
  import opened Wrappers
  import opened PyStr

  predicate IsDigit(c: char) { '0' <= c <= '9' }

  predicate AllDigits(s: string) {
    forall i :: 0 <= i < |s| ==> IsDigit(s[i])
  }

  function DigitsValue(s: string): nat
    requires AllDigits(s)
    decreases |s|
  {
    if s == "" then 0
    else 10 * DigitsValue(s[..|s| - 1]) + (s[|s| - 1] as int - '0' as int)
  }

  /** An optional leading `-` or `+`, and what follows it. */
  function SplitSign(t: string): (int, string)
  {
    if t != "" && t[0] == '-' then (-1, t[1..])
    else if t != "" && t[0] == '+' then (1, t[1..])
    else (1, t)
  }

  /** The number of leading decimal digits of `s`. */
  function LeadingDigits(s: string): (k: nat)
    ensures k <= |s| && AllDigits(s[..k])
    ensures k < |s| ==> !IsDigit(s[k])
  {
    if s != "" && IsDigit(s[0]) then
      var k := 1 + LeadingDigits(s[1..]);
      assert s[..k] == [s[0]] + s[1..][..k - 1];
      k
    else 0
  }

  /** `int(text)`: surrounding white space, an optional sign, then one or more
      decimal digits; anything else raises ValueError (None here). */
  function ParseInt(text: string): (r: Option<int>)
  {
    var (sign, body) := SplitSign(Strip(text));
    if body != "" && AllDigits(body) then Some(sign * DigitsValue(body)) else None
  }

  /** `int(float(text))` for plain decimal notation: an optional sign, digits,
      and an optional fraction after a point, with at least one digit in all;
      the fraction is dropped, which truncates toward zero. */
  function ParseTruncated(text: string): (r: Option<int>)
  {
    var (sign, body) := SplitSign(Strip(text));
    var k := LeadingDigits(body);
    var whole, rest := body[..k], body[k..];
    if rest == "" then
      if whole != "" then Some(sign * DigitsValue(whole)) else None
    else if rest[0] == '.' && AllDigits(rest[1..]) && (whole != "" || |rest| > 1) then
      Some(sign * DigitsValue(whole))
    else None
  }

  /** Text `float` reads as an infinity: an optional sign, then "inf" or
      "infinity" in any case. `int` of an infinity raises OverflowError. */
  predicate IsInfinity(text: string) {
    var body := SplitSign(Strip(text)).1;
    Lower(body) == "inf" || Lower(body) == "infinity"
  }

  /** An infinity is not plain decimal text. */
  lemma InfinityIsNotDecimal(text: string)
    requires IsInfinity(text)
    ensures ParseTruncated(text).None?
  {
    var body := SplitSign(Strip(text)).1;
    assert LowerChar(body[0]) == 'i';
    assert LeadingDigits(body) == 0;
  }

  /** Text that `int` accepts is read to the same number by `int(float(...))`. */
  lemma ParseTruncatedExtendsParseInt(text: string)
    requires ParseInt(text).Some?
    ensures ParseTruncated(text) == ParseInt(text)
  {
    var (sign, body) := SplitSign(Strip(text));
    var k := LeadingDigits(body);
    assert body[..k] == body;
  }

  /** Leading digits stop at the first non-digit. */
  lemma {:induction false} LeadingDigitsOf(digits: string, rest: string)
    requires AllDigits(digits)
    requires rest == "" || !IsDigit(rest[0])
    ensures LeadingDigits(digits + rest) == |digits|
    decreases |digits|
  {
    if digits != "" {
      var s := digits + rest;
      assert s[0] == digits[0] && s[1..] == digits[1..] + rest;
      LeadingDigitsOf(digits[1..], rest);
    }
  }

  /** In digits, a point and digits, the leading digits are the whole part
      and the point follows them. */
  lemma DecimalParts(body: string, whole: string, fraction: string)
    requires AllDigits(whole) && AllDigits(fraction)
    requires body == whole + ("." + fraction)
    ensures LeadingDigits(body) == |whole|
    ensures body[..|whole|] == whole && body[|whole|..] == "." + fraction
    ensures body[|whole|..][0] == '.' && body[|whole|..][1..] == fraction
  {
    LeadingDigitsOf(whole, "." + fraction);
  }

  lemma SplitSignOf(text: string, negative: bool, body: string)
    requires body != "" && IsDigit(body[0])
    requires text == (if negative then "-" else "") + body
    ensures SplitSign(text) == (if negative then -1 else 1, body)
  {
    if negative {
      assert text[0] == '-' && text[1..] == body;
    } else {
      assert text == body;
    }
  }

  /** `int(float(text))` of decimal text with a fraction keeps the whole part
      with its sign: the fraction is dropped, truncating toward zero. */
  lemma ParseTruncatedDecimal(text: string, negative: bool, whole: string, fraction: string)
    requires whole != "" && AllDigits(whole) && AllDigits(fraction)
    requires text == (if negative then "-" else "") + whole + "." + fraction
    ensures ParseTruncated(text) == Some((if negative then -1 else 1) * DigitsValue(whole))
  {
    var body := whole + ("." + fraction);
    assert text == (if negative then "-" else "") + body;
    assert text[0] == '-' || IsDigit(text[0]);
    assert text[|text| - 1] == '.' || IsDigit(text[|text| - 1]);
    StripUnpadded(text);
    SplitSignOf(text, negative, body);
    DecimalParts(body, whole, fraction);
  }

  lemma DigitsValueOfTwo(s: string)
    requires |s| == 2 && AllDigits(s)
    ensures DigitsValue(s) == 10 * (s[0] as int - '0' as int) + (s[1] as int - '0' as int)
  {
    var first := s[..1];
    assert first[..0] == "" && first[0] == s[0];
    assert DigitsValue(first) == s[0] as int - '0' as int;
  }

  /** `int(float(text))` keeps only the whole part: "12.75" reads as 12. */
  lemma ParseTruncatedDropsFraction()
    ensures ParseTruncated("12.75") == Some(12)
  {
    ParseTruncatedDecimal("12.75", false, "12", "75");
    DigitsValueOfTwo("12");
  }

  lemma ParseNegativeZeroPoint(text: string, fraction: string)
    requires AllDigits(fraction)
    requires text == "-" + "0" + "." + fraction
    ensures ParseTruncated(text) == Some(0)
  {
    ParseTruncatedDecimal(text, true, "0", fraction);
    assert "0"[..0] == "";
  }

  /** ... and "-0.5" reads as 0: truncation is toward zero. */
  lemma ParseTruncatedTowardZero()
    ensures ParseTruncated("-0.5") == Some(0)
  {
    ParseNegativeZeroPoint("-0.5", "5");
  }
}
