/**
 * Numbers read from cell text.
 *
 * `ParseNumber` is what `pd.to_numeric(..., errors="coerce")` does with one
 * string: leading and trailing ASCII whitespace is skipped, an optional sign,
 * digits with at most one decimal point and at least one digit are read, and
 * anything else becomes a missing value.  Floats are modelled as exact reals.
 * `ParseInteger` is Python's `int(str)`, `IntToText` is `str(int)`, `Trunc`
 * is `int(float)` / `astype(int)` and `Ceil` is `np.ceil`.
 */
module Numbers {
  import opened Wrappers
  import opened Text

  predicate IsDigit(c: char) { '0' <= c <= '9' }

  predicate AllDigits(s: string) {
    forall i :: 0 <= i < |s| ==> IsDigit(s[i])
  }

  /** The whitespace the C number parser behind `pd.to_numeric` skips. */
  predicate IsAsciiSpace(c: char) { c == ' ' || ('\t' <= c <= '\r') }

  /** A character that may appear in text that `ParseNumber` accepts. */
  predicate NumberChar(c: char) {
    IsDigit(c) || c == '.' || c == '+' || c == '-' || IsAsciiSpace(c)
  }

  function DigitValue(c: char): nat
    requires IsDigit(c)
  {
    c as int - '0' as int
  }

  function DigitChar(d: nat): char
    requires d < 10
  {
    ('0' as int + d) as char
  }

  /** The value of a string of decimal digits (0 for the empty string). */
  function DigitsValue(s: string): nat
    requires AllDigits(s)
  {
    if s == [] then 0 else 10 * DigitsValue(s[..|s| - 1]) + DigitValue(s[|s| - 1])
  }

  function Pow10(n: nat): (r: nat)
    ensures r >= 1
  {
    if n == 0 then 1 else 10 * Pow10(n - 1)
  }

  /** Number of leading characters of `s` that are ASCII whitespace. */
  function LeadingAsciiSpaces(s: string): (n: nat)
    ensures n <= |s|
    ensures forall k :: 0 <= k < n ==> IsAsciiSpace(s[k])
    ensures n < |s| ==> !IsAsciiSpace(s[n])
  {
    if s != [] && IsAsciiSpace(s[0]) then 1 + LeadingAsciiSpaces(s[1..]) else 0
  }

  /** Number of trailing characters of `s` that are ASCII whitespace. */
  function TrailingAsciiSpaces(s: string): (n: nat)
    ensures n <= |s|
    ensures forall k :: |s| - n <= k < |s| ==> IsAsciiSpace(s[k])
    ensures n < |s| ==> !IsAsciiSpace(s[|s| - n - 1])
  {
    if s != [] && IsAsciiSpace(s[|s| - 1]) then 1 + TrailingAsciiSpaces(s[..|s| - 1]) else 0
  }

  /** Position of the first `.` in `s`, or `|s|` when there is none. */
  function DotIndex(s: string): (k: nat)
    ensures k <= |s|
    ensures forall i :: 0 <= i < k ==> s[i] != '.'
    ensures k < |s| ==> s[k] == '.'
  {
    if s == [] || s[0] == '.' then 0 else 1 + DotIndex(s[1..])
  }

  /** The value of the decimal `whole.frac`. */
  function DecimalValue(whole: string, frac: string): real
    requires AllDigits(whole) && AllDigits(frac)
  {
    DigitsValue(whole) as real + DigitsValue(frac) as real / Pow10(|frac|) as real
  }

  /** Unsigned decimal: digits, optionally a point and more digits, at least one digit in all. */
  function ParseUnsigned(b: string): Option<real> {
    var k := DotIndex(b);
    var whole := b[..k];
    var frac := if k < |b| then b[k + 1..] else [];
    if AllDigits(whole) && AllDigits(frac) && |whole| + |frac| > 0 then Some(DecimalValue(whole, frac))
    else None
  }

  /** `s` without its leading and trailing ASCII whitespace. */
  function TrimAscii(s: string): string {
    var t := s[LeadingAsciiSpaces(s)..];
    t[..|t| - TrailingAsciiSpaces(t)]
  }

  /** An optional sign followed by an unsigned decimal. */
  function ParseSigned(u: string): Option<real> {
    if u != [] && (u[0] == '+' || u[0] == '-') then
      match ParseUnsigned(u[1..])
      case Some(v) => Some(if u[0] == '-' then -v else v)
      case None => None
    else ParseUnsigned(u)
  }

  /**
   * `pd.to_numeric(s, errors="coerce")` on one string; `None` is the NaN it
   * produces on failure.  What it accepts holds nothing but digits, points,
   * signs and ASCII whitespace, and at least one digit: any other character
   * (a `$`, a letter, a `%`, a comma) makes the value missing.
   */
  function ParseNumber(s: string): (r: Option<real>)
    ensures r.Some? ==> forall i :: 0 <= i < |s| ==> NumberChar(s[i])
    ensures r.Some? ==> exists i :: 0 <= i < |s| && IsDigit(s[i])
  {
    TrimmedSignedChars(s);
    ParseSigned(TrimAscii(s))
  }

  /**
   * Python `int(s)` on a string: surrounding whitespace, an optional sign and
   * digits, with single underscores allowed between digits.
   */
  function ParseInteger(s: string): (r: Option<int>)
    ensures r.Some? ==> var u := Strip(s);
      u != [] && forall i :: 0 <= i < |u| ==> IsDigit(u[i]) || u[i] == '_' || (i == 0 && (u[0] == '+' || u[0] == '-'))
    ensures var u := Strip(s); u != [] && AllDigits(u) ==> r == Some(DigitsValue(u) as int)
  {
    SignedIntegerChars(Strip(s));
    ParseSignedInteger(Strip(s))
  }

  /** The digits of an integer literal: digits, each underscore between two digits. */
  predicate IntegerDigits(b: string) {
    && b != []
    && IsDigit(b[0])
    && IsDigit(b[|b| - 1])
    && (forall i :: 0 <= i < |b| ==> IsDigit(b[i]) || b[i] == '_')
    && (forall i :: 0 <= i < |b| - 1 && b[i] == '_' ==> IsDigit(b[i + 1]))
  }

  /** `int()` once the surrounding whitespace is gone: an optional sign, then the digits. */
  function ParseSignedInteger(u: string): Option<int> {
    var b := if u != [] && (u[0] == '+' || u[0] == '-') then u[1..] else u;
    if IntegerDigits(b) then
      DeleteLeavesDigits(b);
      var v := DigitsValue(Delete(b, '_')) as int;
      Some(if u[0] == '-' then -v else v)
    else None
  }

  /** `str(n)` for a natural number: its decimal digits, without leading zeros. */
  function NatToText(n: nat): (r: string)
    decreases n
    ensures r != [] && AllDigits(r) && DigitsValue(r) == n
    ensures r[0] != '0' || n == 0
  {
    if n < 10 then [DigitChar(n)]
    else
      var prefix := NatToText(n / 10);
      var r := prefix + [DigitChar(n % 10)];
      assert r[..|r| - 1] == prefix;
      r
  }

  /** `str(n)`: read back by `int()` or by `pd.to_numeric` it is `n` again. */
  function IntToText(n: int): (r: string)
    ensures ParseInteger(r) == Some(n)
    ensures ParseNumber(r) == Some(n as real)
  {
    if n < 0 then
      var digits := NatToText(-n);
      ParseIntegerMinus(digits);
      ParseNumberMinusDigits(digits);
      "-" + digits
    else
      var digits := NatToText(n);
      DigitsReadBack(digits);
      digits
  }

  /** `int(x)` / `astype(int)` on a float: the integer part, rounding toward zero. */
  function Trunc(x: real): (r: int)
    ensures x >= 0.0 ==> 0 <= r && r as real <= x < r as real + 1.0
    ensures x < 0.0 ==> r <= 0 && r as real - 1.0 < x <= r as real
  {
    if x >= 0.0 then x.Floor else -((-x).Floor)
  }

  /** `np.ceil(x)`: the least integer not below `x`. */
  function Ceil(x: real): (r: int)
    ensures x <= r as real < x + 1.0
  {
    -((-x).Floor)
  }

  predicate IsIntegral(x: real) {
    x == x.Floor as real
  }

  // ---------------------------------------------------------------------
  // Lemmas

  lemma {:induction false} DotIndexAfterDigits(digits: string, rest: string)
    requires AllDigits(digits)
    ensures DotIndex(digits + rest) == |digits| + DotIndex(rest)
  {
    if digits != [] {
      assert (digits + rest)[1..] == digits[1..] + rest;
      DotIndexAfterDigits(digits[1..], rest);
    } else {
      assert digits + rest == rest;
    }
  }

  /** A decimal written as digits, a point and digits parses to its value. */
  lemma ParseUnsignedDecimal(whole: string, frac: string)
    requires AllDigits(whole) && AllDigits(frac) && |whole| + |frac| > 0
    ensures ParseUnsigned(whole + "." + frac)
            == Some(DecimalValue(whole, frac))
  {
    var b := whole + ("." + frac);
    assert whole + "." + frac == b;
    DotIndexAfterDigits(whole, "." + frac);
    assert b[..|whole|] == whole;
    assert b[|whole| + 1..] == frac;
  }

  /** Text made of digits only parses to its decimal value. */
  lemma ParseUnsignedDigits(digits: string)
    requires AllDigits(digits) && digits != []
    ensures ParseUnsigned(digits) == Some(DigitsValue(digits) as real)
  {
    DotIndexAfterDigits(digits, []);
    assert digits + [] == digits;
    assert digits[..|digits|] == digits;
  }

  /** Text without surrounding ASCII whitespace is parsed as it stands. */
  lemma ParseNumberTrimmed(s: string)
    requires s == [] || (!IsAsciiSpace(s[0]) && !IsAsciiSpace(s[|s| - 1]))
    ensures ParseNumber(s) == ParseSigned(s)
  {
    assert LeadingAsciiSpaces(s) == 0;
    assert s[0..] == s;
    assert TrailingAsciiSpaces(s) == 0;
    assert s[..|s|] == s;
  }

  /** A digit string parses to its value. */
  lemma ParseNumberDigits(digits: string)
    requires AllDigits(digits) && digits != []
    ensures ParseNumber(digits) == Some(DigitsValue(digits) as real)
  {
    ParseNumberTrimmed(digits);
    ParseUnsignedDigits(digits);
  }

  /** A minus sign in front of an unsigned decimal negates its value. */
  lemma ParseNumberMinus(b: string, x: real)
    requires b != [] && !IsAsciiSpace(b[|b| - 1])
    requires ParseUnsigned(b) == Some(x)
    ensures ParseNumber("-" + b) == Some(-x)
  {
    var u := "-" + b;
    assert u[|u| - 1] == b[|b| - 1];
    ParseNumberTrimmed(u);
    assert u[1..] == b;
  }

  /** Trimming keeps a contiguous block of `s` and drops only ASCII whitespace around it. */
  lemma TrimAsciiParts(s: string)
    ensures LeadingAsciiSpaces(s) + |TrimAscii(s)| <= |s|
    ensures forall k :: 0 <= k < |TrimAscii(s)| ==> s[LeadingAsciiSpaces(s) + k] == TrimAscii(s)[k]
    ensures forall k :: LeadingAsciiSpaces(s) + |TrimAscii(s)| <= k < |s| ==> IsAsciiSpace(s[k])
  {
    var lead := LeadingAsciiSpaces(s);
    var t := s[lead..];
    var r := TrimAscii(s);
    forall k | lead + |r| <= k < |s|
      ensures IsAsciiSpace(s[k])
    {
      assert s[k] == t[k - lead];
    }
  }

  /** A digit string with a decimal point parses to its value. */
  lemma ParseNumberDecimal(whole: string, frac: string)
    requires AllDigits(whole) && AllDigits(frac) && |whole| + |frac| > 0
    ensures ParseNumber(whole + "." + frac)
            == Some(DecimalValue(whole, frac))
  {
    var s := whole + "." + frac;
    if whole != [] {
      assert s[0] == whole[0];
    }
    if frac != [] {
      assert s[|s| - 1] == frac[|frac| - 1];
    }
    ParseNumberTrimmed(s);
    ParseUnsignedDecimal(whole, frac);
  }

  /** Every character of an unsigned decimal that parses is a digit or the point. */
  lemma ParseUnsignedChars(b: string)
    requires ParseUnsigned(b).Some?
    ensures forall i :: 0 <= i < |b| ==> IsDigit(b[i]) || b[i] == '.'
    ensures exists i :: 0 <= i < |b| && IsDigit(b[i])
  {
    var k := DotIndex(b);
    forall i | 0 <= i < |b|
      ensures IsDigit(b[i]) || b[i] == '.'
    {
      if i < k {
        assert b[i] == b[..k][i];
      } else if i > k {
        assert b[i] == b[k + 1..][i - k - 1];
      }
    }
    if k > 0 {
      assert IsDigit(b[..k][0]);
    } else {
      assert IsDigit(b[k + 1..][0]);
      assert b[k + 1..][0] == b[k + 1];
    }
  }

  /** Every character of a signed decimal that parses is a digit, the point or the leading sign. */
  lemma ParseSignedChars(u: string)
    requires ParseSigned(u).Some?
    ensures forall i :: 0 <= i < |u| ==> IsDigit(u[i]) || u[i] == '.' || (i == 0 && (u[0] == '+' || u[0] == '-'))
    ensures exists i :: 0 <= i < |u| && IsDigit(u[i])
  {
    if u != [] && (u[0] == '+' || u[0] == '-') {
      var b := u[1..];
      ParseUnsignedChars(b);
      forall i | 1 <= i < |u|
        ensures IsDigit(u[i]) || u[i] == '.'
      {
        assert u[i] == b[i - 1];
      }
      var j :| 0 <= j < |b| && IsDigit(b[j]);
      assert u[j + 1] == b[j];
    } else {
      ParseUnsignedChars(u);
    }
  }

  /** Text that the number parser accepts once trimmed holds only number characters and a digit. */
  lemma TrimmedSignedChars(s: string)
    ensures ParseSigned(TrimAscii(s)).Some? ==> forall i :: 0 <= i < |s| ==> NumberChar(s[i])
    ensures ParseSigned(TrimAscii(s)).Some? ==> exists i :: 0 <= i < |s| && IsDigit(s[i])
  {
    var u := TrimAscii(s);
    if ParseSigned(u).Some? {
      ParseSignedChars(u);
      TrimmedChars(s, u);
    }
  }

  /** The characters of `s` are those of its trimmed block and the ASCII whitespace around it. */
  lemma TrimmedChars(s: string, u: string)
    requires u == TrimAscii(s)
    requires forall i :: 0 <= i < |u| ==> IsDigit(u[i]) || u[i] == '.' || (i == 0 && (u[0] == '+' || u[0] == '-'))
    requires exists i :: 0 <= i < |u| && IsDigit(u[i])
    ensures forall i :: 0 <= i < |s| ==> NumberChar(s[i])
    ensures exists i :: 0 <= i < |s| && IsDigit(s[i])
  {
    var lead := LeadingAsciiSpaces(s);
    TrimAsciiParts(s);
    forall i | 0 <= i < |s|
      ensures NumberChar(s[i])
    {
      if lead <= i < lead + |u| {
        assert s[i] == u[i - lead];
      }
    }
    var j :| 0 <= j < |u| && IsDigit(u[j]);
    assert s[lead + j] == u[j];
  }

  /** Text with no digit at all is never a number. */
  lemma ParseNumberNeedsDigit(s: string)
    requires forall i :: 0 <= i < |s| ==> !IsDigit(s[i])
    ensures ParseNumber(s) == None
  {
  }

  /** Deleting the underscores of digits and underscores leaves digits. */
  lemma {:induction false} DeleteLeavesDigits(b: string)
    requires forall i :: 0 <= i < |b| ==> IsDigit(b[i]) || b[i] == '_'
    ensures AllDigits(Delete(b, '_'))
  {
    if b != [] {
      DeleteLeavesDigits(b[1..]);
    }
  }

  /** What `int()` accepts once stripped, and what it makes of plain digits. */
  lemma SignedIntegerChars(u: string)
    ensures ParseSignedInteger(u).Some? ==>
      u != [] && forall i :: 0 <= i < |u| ==> IsDigit(u[i]) || u[i] == '_' || (i == 0 && (u[0] == '+' || u[0] == '-'))
    ensures u != [] && AllDigits(u) ==> ParseSignedInteger(u) == Some(DigitsValue(u) as int)
  {
    if u != [] && (u[0] == '+' || u[0] == '-') {
      forall i | 1 <= i < |u|
        ensures u[i] == u[1..][i - 1]
      {
      }
    }
    if u != [] && AllDigits(u) {
      DeleteAbsent(u, '_');
    }
  }

  lemma ParseIntegerDigits(digits: string)
    requires AllDigits(digits) && digits != []
    ensures ParseInteger(digits) == Some(DigitsValue(digits) as int)
  {
    StrippedFixpoint(digits);
  }

  lemma ParseIntegerMinus(digits: string)
    requires AllDigits(digits) && digits != []
    ensures ParseInteger("-" + digits) == Some(-(DigitsValue(digits) as int))
  {
    var s := "-" + digits;
    assert s[|s| - 1] == digits[|digits| - 1];
    StrippedFixpoint(s);
    SignedIntegerMinus(digits);
  }

  lemma SignedIntegerMinus(digits: string)
    requires AllDigits(digits) && digits != []
    ensures ParseSignedInteger("-" + digits) == Some(-(DigitsValue(digits) as int))
  {
    var s := "-" + digits;
    assert s[1..] == digits;
    assert IntegerDigits(digits);
    DeleteAbsent(digits, '_');
  }

  /** A digit string reads back as its value, by `int()` and by `pd.to_numeric`. */
  lemma DigitsReadBack(digits: string)
    requires AllDigits(digits) && digits != []
    ensures ParseInteger(digits) == Some(DigitsValue(digits) as int)
    ensures ParseNumber(digits) == Some(DigitsValue(digits) as real)
  {
    ParseIntegerDigits(digits);
    ParseNumberDigits(digits);
  }

  /** A minus sign and a digit string make the negated value for `pd.to_numeric`. */
  lemma ParseNumberMinusDigits(digits: string)
    requires AllDigits(digits) && digits != []
    ensures ParseNumber("-" + digits) == Some(-(DigitsValue(digits) as real))
  {
    var x := DigitsValue(digits) as real;
    ParseUnsignedDigits(digits);
    assert IsDigit(digits[|digits| - 1]);
    ParseNumberMinus(digits, x);
  }

  /** `int()` takes an underscore between two digits as a digit separator. */
  lemma ParseIntegerUnderscore()
    ensures ParseInteger("1_000") == Some(1000)
  {
    var u := "1_000";
    StrippedFixpoint(u);
    assert IntegerDigits(u);
    assert Delete(u, '_') == "1000" by {
      assert u[1..] == "_000" && u[2..] == "000";
      DeleteAbsent("000", '_');
    }
    assert DigitsValue("1000") == 1000 by {
      assert "1000"[..3] == "100";
      assert "100"[..2] == "10";
      assert "10"[..1] == "1";
      assert "1"[..0] == "";
    }
  }

  /** Two underscores in a row, or one at either end, make the text no integer. */
  lemma ParseIntegerMisplacedUnderscore()
    ensures ParseInteger("1__0") == None
    ensures ParseInteger("_1") == None
    ensures ParseInteger("1_") == None
  {
    StrippedFixpoint("1__0");
    StrippedFixpoint("_1");
    StrippedFixpoint("1_");
    assert "1__0"[1] == '_' && "1__0"[2] == '_';
  }

  /** `astype(int)` keeps integral values and drops the fraction of the others toward zero. */
  lemma TruncIntegral(x: real)
    ensures IsIntegral(x) <==> Trunc(x) as real == x
  {
    if x < 0.0 {
      if IsIntegral(x) {
        var m := x.Floor;
        assert -x == (-m) as real;
        assert (-x).Floor == -m;
      }
      if Trunc(x) as real == x {
        assert x.Floor == Trunc(x);
      }
    }
  }

  /** `np.ceil` and truncation agree exactly on integral values and on negative inputs' side of zero. */
  lemma CeilVersusTrunc(x: real)
    ensures IsIntegral(x) ==> Ceil(x) == Trunc(x)
    ensures x > 0.0 && !IsIntegral(x) ==> Ceil(x) == Trunc(x) + 1
  {
  }
}
