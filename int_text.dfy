/**
 * `parseInt(text)` with no radix (ECMAScript's algorithm: skip leading white
 * space, take an optional sign, read a "0x"/"0X" prefix as hexadecimal, then
 * the longest run of digits; no digits at all is `NaN`), and
 * `Number.prototype.toString` for integers.
 */
module IntText {
  import opened Common
  import opened Text

  predicate IsDecimalDigit(c: char)
  {
    '0' <= c <= '9'
  }

  predicate IsHexDigit(c: char)
  {
    IsDecimalDigit(c) || 'a' <= c <= 'f' || 'A' <= c <= 'F'
  }

  /** `radix` is 10 or 16, the two radices `parseInt` picks by itself. */
  predicate IsDigitIn(c: char, radix: nat)
  {
    if radix == 16 then IsHexDigit(c) else IsDecimalDigit(c)
  }

  function DigitValue(c: char): nat
  {
    if IsDecimalDigit(c) then c as int - '0' as int
    else if 'a' <= c <= 'f' then c as int - 'a' as int + 10
    else if 'A' <= c <= 'F' then c as int - 'A' as int + 10
    else 0
  }

  /** The longest prefix made of digits of the radix. */
  function LeadingDigits(s: string, radix: nat): (d: string)
    ensures |d| <= |s| && d == s[..|d|]
    ensures forall k :: 0 <= k < |d| ==> IsDigitIn(d[k], radix)
    ensures |d| < |s| ==> !IsDigitIn(s[|d|], radix)
  {
    if |s| > 0 && IsDigitIn(s[0], radix) then [s[0]] + LeadingDigits(s[1..], radix) else []
  }

  /** The integer a digit string denotes in the radix, most significant digit first. */
  function DigitsValue(ds: string, radix: nat): nat
  {
    if ds == [] then 0
    else DigitsValue(ds[..|ds| - 1], radix) * radix + DigitValue(ds[|ds| - 1])
  }

  /** `parseInt(text)`; `None` is `NaN`. */
  function ParseInt(text: string): Option<int>
  {
    ParseSigned(TrimStart(text))
  }

  /** The text after the leading white space: an optional sign, then the number. */
  function ParseSigned(s: string): Option<int>
  {
    if s != [] && s[0] == '-' then
      match ParseUnsigned(s[1..])
      case None => None
      case Some(v) => Some(-v)
    else if s != [] && s[0] == '+' then ParseUnsigned(s[1..])
    else ParseUnsigned(s)
  }

  /** What follows the sign: a "0x"/"0X" prefix selects radix 16, otherwise radix 10. */
  function ParseUnsigned(s: string): Option<int>
  {
    var hex := |s| >= 2 && s[0] == '0' && (s[1] == 'x' || s[1] == 'X');
    var radix := if hex then 16 else 10;
    var digits := LeadingDigits(if hex then s[2..] else s, radix);
    if digits == [] then None else Some(DigitsValue(digits, radix))
  }

  function DigitChar(d: nat): char
    requires d < 10
  {
    ('0' as int + d) as char
  }

  /** Decimal digits of `n`, without leading zeros. */
  function NatToDecimal(n: nat): (s: string)
    ensures s != [] && forall k :: 0 <= k < |s| ==> IsDecimalDigit(s[k])
    ensures s[0] == '0' ==> n == 0 && |s| == 1
  {
    if n < 10 then [DigitChar(n)] else NatToDecimal(n / 10) + [DigitChar(n % 10)]
  }

  /** `n.toString()` for an integer `n`. */
  function IntToString(n: int): string
  {
    if n < 0 then "-" + NatToDecimal(-n) else NatToDecimal(n)
  }

  lemma {:induction false} DecimalValue(n: nat)
    ensures DigitsValue(NatToDecimal(n), 10) == n
  {
    var s := NatToDecimal(n);
    if n >= 10 {
      DecimalValue(n / 10);
      assert s[..|s| - 1] == NatToDecimal(n / 10);
    }
  }

  /** A digit run followed by a character that is not a digit is read up to that character. */
  lemma {:induction false} LeadingDigitsStop(ds: string, rest: string, radix: nat)
    requires forall k :: 0 <= k < |ds| ==> IsDigitIn(ds[k], radix)
    requires rest == [] || !IsDigitIn(rest[0], radix)
    ensures LeadingDigits(ds + rest, radix) == ds
  {
    if ds == [] {
      assert ds + rest == rest;
    } else {
      assert (ds + rest)[0] == ds[0];
      assert (ds + rest)[1..] == ds[1..] + rest;
      LeadingDigitsStop(ds[1..], rest, radix);
    }
  }

  /**
   * Leading white space and any tail that does not continue the number are
   * ignored: `parseInt(" 12abc")` is 12.  A tail starting with 'x' after a
   * lone "0" would switch to hexadecimal, hence the second requirement.
   */
  lemma {:induction false} ParseDecimalPrefix(space: string, n: int, rest: string)
    requires IsBlank(space)
    requires rest == [] || !IsDecimalDigit(rest[0])
    requires n == 0 ==> rest == [] || (rest[0] != 'x' && rest[0] != 'X')
    ensures ParseInt(space + IntToString(n) + rest) == Some(n)
  {
    var signed := IntToString(n) + rest;
    SignedDecimal(n, rest);
    assert space + IntToString(n) + rest == space + signed;
    SkipSpace(space, signed);
  }

  lemma {:induction false} SignedDecimal(n: int, rest: string)
    requires rest == [] || !IsDecimalDigit(rest[0])
    requires n == 0 ==> rest == [] || (rest[0] != 'x' && rest[0] != 'X')
    ensures var s := IntToString(n) + rest; s != [] && !IsSpace(s[0]) && ParseSigned(s) == Some(n)
  {
    SignedStart(n, rest);
    if n < 0 {
      NegativeDecimal(n, rest);
    } else {
      UnsignedDecimal(n, rest);
      DigitFirst(NatToDecimal(n) + rest);
    }
  }

  /** The text of a number starts with a sign or a digit, never with white space. */
  lemma SignedStart(n: int, rest: string)
    ensures var s := IntToString(n) + rest; s != [] && !IsSpace(s[0])
  {
    var s := IntToString(n) + rest;
    if n < 0 {
      assert s[0] == '-';
    } else {
      assert s[0] == NatToDecimal(n)[0];
    }
  }

  lemma {:induction false} NegativeDecimal(n: int, rest: string)
    requires rest == [] || !IsDecimalDigit(rest[0])
    requires n < 0
    ensures ParseSigned(IntToString(n) + rest) == Some(n)
  {
    var m: nat := -n;
    var u := NatToDecimal(m) + rest;
    UnsignedDecimal(m, rest);
    assert IntToString(n) + rest == "-" + u;
    MinusSign(u, m);
  }

  lemma MinusSign(u: string, v: int)
    requires ParseUnsigned(u) == Some(v)
    ensures ParseSigned("-" + u) == Some(-v)
  {
    assert ("-" + u)[1..] == u;
  }

  lemma DigitFirst(s: string)
    requires s != [] && IsDecimalDigit(s[0])
    ensures ParseSigned(s) == ParseUnsigned(s)
  {
  }

  lemma {:induction false} UnsignedDecimal(m: nat, rest: string)
    requires rest == [] || !IsDecimalDigit(rest[0])
    requires m == 0 ==> rest == [] || (rest[0] != 'x' && rest[0] != 'X')
    ensures ParseUnsigned(NatToDecimal(m) + rest) == Some(m)
  {
    var ds := NatToDecimal(m);
    var s := ds + rest;
    assert s[0] == ds[0];
    if |s| >= 2 && s[0] == '0' {
      assert |ds| == 1 && s[1] == rest[0];
    }
    LeadingDigitsStop(ds, rest, 10);
    DecimalValue(m);
  }

  lemma {:induction false} SkipSpace(space: string, s: string)
    requires IsBlank(space)
    requires s == [] || !IsSpace(s[0])
    ensures TrimStart(space + s) == s
  {
    if space != [] {
      assert (space + s)[1..] == space[1..] + s;
      SkipSpace(space[1..], s);
    }
  }

  /** `parseInt(n.toString()) == n`: a stored prediction reads back as itself. */
  lemma {:induction false} RoundTrip(n: int)
    ensures ParseInt(IntToString(n)) == Some(n)
  {
    var s := IntToString(n);
    SignedDecimal(n, "");
    assert s + "" == s;
    assert TrimStart(s) == s;
  }

  /**
   * Text with no decimal digit is `NaN`: without a '0' there is no "0x"
   * prefix, so even hexadecimal letters ("abc", "-f") are never read.
   */
  lemma {:induction false} NoDigitsIsNaN(text: string)
    requires forall k :: 0 <= k < |text| ==> !IsDecimalDigit(text[k])
    ensures ParseInt(text) == None
  {
    var s := TrimStart(text);
    assert forall k :: 0 <= k < |s| ==> !IsDecimalDigit(s[k]) by {
      forall k | 0 <= k < |s| ensures !IsDecimalDigit(s[k]) {
        assert s[k] == text[|text| - |s| + k];
      }
    }
    SignedNoDigit(s);
  }

  lemma SignedNoDigit(s: string)
    requires forall k :: 0 <= k < |s| ==> !IsDecimalDigit(s[k])
    ensures ParseSigned(s) == None
  {
    if s != [] && (s[0] == '-' || s[0] == '+') {
      assert |s| > 1 ==> s[1..][0] == s[1];
      UnsignedNoDigit(s[1..]);
    } else {
      UnsignedNoDigit(s);
    }
  }

  /** Without a digit in front there is neither a hexadecimal prefix nor a digit run. */
  lemma UnsignedNoDigit(u: string)
    requires u == [] || !IsDecimalDigit(u[0])
    ensures ParseUnsigned(u) == None
  {
  }
}
