/**
  Decimal text of Swift's `Int` on a 64-bit platform: the failable initializer
  `Int(String)` used by the integer and boolean getters, and `String(Int)` used when an
  integer value child is written.
 */
module IntText {
  import opened Wrappers

  const IntMin: int := -0x8000_0000_0000_0000
  const IntMax: int := 0x7FFF_FFFF_FFFF_FFFF

  /** Swift's `Int`, a signed 64-bit integer. */
  newtype Int64 = x: int | IntMin <= x <= IntMax

  predicate IsDigit(c: char) {
    '0' <= c <= '9'
  }

  predicate AllDigits(s: string) {
    forall i :: 0 <= i < |s| ==> IsDigit(s[i])
  }

  function DigitValue(c: char): (d: nat)
    requires IsDigit(c)
    ensures d < 10
  {
    c as int - '0' as int
  }

  function DigitChar(d: nat): (c: char)
    requires d < 10
    ensures IsDigit(c) && DigitValue(c) == d
  {
    (d + '0' as int) as char
  }

  /** The number a string of decimal digits denotes, most significant digit first. */
  function DigitsValue(s: string): nat
    requires AllDigits(s)
  {
    if s == [] then 0 else DigitsValue(s[..|s| - 1]) * 10 + DigitValue(s[|s| - 1])
  }

  /** The text after an optional leading `+` or `-`. */
  function Unsigned(s: string): string {
    if |s| > 0 && (s[0] == '+' || s[0] == '-') then s[1..] else s
  }

  /** The syntax `Int(String)` accepts: an optional sign followed by one or more digits. */
  predicate IsIntLiteral(s: string) {
    |Unsigned(s)| > 0 && AllDigits(Unsigned(s))
  }

  /** The mathematical value of an integer literal, before any range check. */
  function LiteralValue(s: string): int
    requires IsIntLiteral(s)
  {
    if s[0] == '-' then -(DigitsValue(Unsigned(s)) as int) else DigitsValue(Unsigned(s))
  }

  /**
    Reads the digits s[i..] into the magnitude `acc` (the value of s[..i]), giving up
    as soon as the magnitude exceeds `limit`, the way `Int(String)` stops on overflow.
   */
  function ScanDigits(s: string, i: nat, acc: nat, limit: nat): (r: Option<nat>)
    requires i <= |s| && AllDigits(s[..i]) && acc == DigitsValue(s[..i]) && acc <= limit
    ensures r.Some? <==> AllDigits(s) && DigitsValue(s) <= limit
    ensures r.Some? ==> r.value == DigitsValue(s)
    decreases |s| - i
  {
    if i == |s| then
      assert s[..i] == s;
      Some(acc)
    else if !IsDigit(s[i]) then
      None
    else
      var next := acc * 10 + DigitValue(s[i]);
      assert s[..i + 1][..i] == s[..i];
      assert AllDigits(s[..i + 1]);
      if next > limit then
        PrefixValueBound(s, i + 1);
        None
      else
        ScanDigits(s, i + 1, next, limit)
  }

  /** A prefix of a digit string never denotes more than the whole string. */
  lemma {:induction false} PrefixValueBound(s: string, k: nat)
    requires k <= |s| && AllDigits(s[..k])
    ensures AllDigits(s) ==> DigitsValue(s[..k]) <= DigitsValue(s)
  {
    if AllDigits(s) && k < |s| {
      var t := s[..|s| - 1];
      assert t[..k] == s[..k];
      PrefixValueBound(t, k);
    } else if k == |s| {
      assert s[..k] == s;
    }
  }

  /**
    Swift's `Int(String)` (radix 10): some value exactly when the text is an optional
    sign followed by at least one digit and its value lies in the range of `Int`.
   */
  function ParseInt(s: string): (r: Option<Int64>)
    ensures r.Some? <==> IsIntLiteral(s) && IntMin <= LiteralValue(s) <= IntMax
    ensures r.Some? ==> r.value as int == LiteralValue(s)
  {
    var digits := Unsigned(s);
    if |digits| == 0 then None
    else
      var negative := s[0] == '-';
      var limit := if negative then -IntMin else IntMax;
      assert digits[..0] == [];
      match ScanDigits(digits, 0, 0, limit)
      case None => None
      case Some(m) => Some((if negative then -(m as int) else m) as Int64)
  }

  /** A text whose last character is not a digit never parses as an `Int`. */
  lemma NonDigitEndIsNotInt(t: string)
    requires |t| > 0 && !IsDigit(t[|t| - 1])
    ensures ParseInt(t).None?
  {
    var u := Unsigned(t);
    if |u| > 0 {
      assert u[|u| - 1] == t[|t| - 1];
    }
  }

  /** The decimal digits of `n`, most significant first, without leading zeros. */
  function Digits(n: nat): (s: string)
    ensures |s| > 0 && AllDigits(s)
  {
    if n < 10 then [DigitChar(n)] else Digits(n / 10) + [DigitChar(n % 10)]
  }

  /** Swift's `String(Int)`: a `-` for negative numbers followed by the decimal digits. */
  function FormatInt(n: Int64): (s: string)
    ensures IsIntLiteral(s)
    ensures s[0] != '+' && (s[0] == '-' <==> n < 0)
    ensures |Unsigned(s)| > 1 ==> Unsigned(s)[0] != '0'
  {
    if n < 0 then
      var d := Digits(-(n as int));
      assert Unsigned("-" + d) == d;
      DigitsNoLeadingZero(-(n as int));
      "-" + d
    else
      DigitsNoLeadingZero(n as int);
      Digits(n as int)
  }

  lemma {:induction false} DigitsNoLeadingZero(n: nat)
    ensures |Digits(n)| > 1 ==> Digits(n)[0] != '0'
    ensures Digits(n)[0] == '0' ==> n == 0
  {
    if n >= 10 {
      DigitsNoLeadingZero(n / 10);
    }
  }

  /** Reading back the digits of a number gives the number. */
  lemma {:induction false} DigitsValueOfDigits(n: nat)
    ensures DigitsValue(Digits(n)) == n
  {
    if n >= 10 {
      var s := Digits(n);
      assert s[..|s| - 1] == Digits(n / 10);
      DigitsValueOfDigits(n / 10);
    }
  }

  /** `Int(String(n)) == n` for every `Int` n. */
  lemma FormatParseRoundTrip(n: Int64)
    ensures ParseInt(FormatInt(n)) == Some(n)
  {
    var s := FormatInt(n);
    if n < 0 {
      DigitsValueOfDigits(-(n as int));
      assert Unsigned(s) == Digits(-(n as int));
    } else {
      DigitsValueOfDigits(n as int);
    }
  }
}
