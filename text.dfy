/**
 * Decimal text for the numbers the checkout request carries: Python's
 * `unicode(n)` for integers and `'%.2f' % price` for prices held in cents.
 * Each formatter has a parser beside it and a lemma that the parser undoes it.
 */
module Text {
  import opened Wrappers

  predicate IsDigit(c: char)
  {
    '0' <= c <= '9'
  }

  predicate AllDigits(s: string)
  {
    forall i :: 0 <= i < |s| ==> IsDigit(s[i])
  }

  function DigitChar(d: nat): (c: char)
    requires d < 10
    ensures IsDigit(c)
  {
    (d + '0' as int) as char
  }

  function DigitValue(c: char): (d: nat)
    requires IsDigit(c)
    ensures d < 10
  {
    c as int - '0' as int
  }

  /** Decimal digits of `n`, most significant first, without leading zeros. */
  function NatToString(n: nat): (s: string)
    ensures |s| > 0 && AllDigits(s)
    ensures s[0] == '0' ==> n == 0
    decreases n
  {
    if n < 10 then [DigitChar(n)] else NatToString(n / 10) + [DigitChar(n % 10)]
  }

  /** The number a string of digits denotes. */
  function DigitsValue(s: string): nat
    requires AllDigits(s)
  {
    if |s| == 0 then 0 else DigitsValue(s[..|s| - 1]) * 10 + DigitValue(s[|s| - 1])
  }

  function ParseNat(s: string): (r: Option<nat>)
  {
    if |s| > 0 && AllDigits(s) then Some(DigitsValue(s)) else None
  }

  /** Python's `unicode(i)` for an integer. */
  function IntToString(i: int): (s: string)
  {
    if i < 0 then "-" + NatToString(-i) else NatToString(i)
  }

  function ParseInt(s: string): (r: Option<int>)
  {
    if |s| > 1 && s[0] == '-' then
      match ParseNat(s[1..])
      case Some(v) => Some(-(v as int))
      case None => None
    else
      match ParseNat(s)
      case Some(v) => Some(v)
      case None => None
  }

  function TwoDigits(n: nat): (s: string)
    requires n < 100
    ensures |s| == 2 && AllDigits(s)
  {
    [DigitChar(n / 10), DigitChar(n % 10)]
  }

  /** `'%.2f' % d` for an amount of `cents` hundredths. */
  function FormatCents(cents: int): (s: string)
  {
    var a := if cents < 0 then -cents else cents;
    (if cents < 0 then "-" else "") + NatToString(a / 100) + "." + TwoDigits(a % 100)
  }

  /** Reads `W.DD` (W one or more digits) as cents. */
  function ParseUnsignedCents(s: string): (r: Option<nat>)
  {
    if |s| >= 4 && s[|s| - 3] == '.' && IsDigit(s[|s| - 2]) && IsDigit(s[|s| - 1]) then
      match ParseNat(s[..|s| - 3])
      case Some(w) => Some(w * 100 + DigitValue(s[|s| - 2]) * 10 + DigitValue(s[|s| - 1]))
      case None => None
    else
      None
  }

  function ParseCents(s: string): (r: Option<int>)
  {
    if |s| > 0 && s[0] == '-' then
      match ParseUnsignedCents(s[1..])
      case Some(v) => Some(-(v as int))
      case None => None
    else
      match ParseUnsignedCents(s)
      case Some(v) => Some(v)
      case None => None
  }

  lemma {:induction false} DigitsValueOfNatToString(n: nat)
    ensures DigitsValue(NatToString(n)) == n
    decreases n
  {
    var s := NatToString(n);
    if n >= 10 {
      DigitsValueOfNatToString(n / 10);
      assert s[..|s| - 1] == NatToString(n / 10);
    }
  }

  /** Reading back the digits of `n` gives `n`. */
  lemma NatRoundTrip(n: nat)
    ensures ParseNat(NatToString(n)) == Some(n)
  {
    DigitsValueOfNatToString(n);
  }

  /** Different numbers never print alike: the item keys of the checkout request do not collide. */
  lemma NatToStringInjective(a: nat, b: nat)
    ensures NatToString(a) == NatToString(b) ==> a == b
  {
    NatRoundTrip(a);
    NatRoundTrip(b);
  }

  lemma IntRoundTrip(i: int)
    ensures ParseInt(IntToString(i)) == Some(i)
  {
    var s := IntToString(i);
    if i < 0 {
      NatRoundTrip(-i);
      assert s[1..] == NatToString(-i);
    } else {
      NatRoundTrip(i);
      assert s[0] != '-';
    }
  }

  lemma DigitRoundTrip(d: nat)
    requires d < 10
    ensures DigitValue(DigitChar(d)) == d
  {
  }

  /** A whole part, a point and two digits read as cents. */
  lemma ParseWholeAndTwoDigits(w: nat, x: nat, y: nat)
    requires x < 10 && y < 10
    ensures ParseUnsignedCents(NatToString(w) + "." + [DigitChar(x), DigitChar(y)]) == Some(w * 100 + x * 10 + y)
  {
    var v := NatToString(w);
    var s := v + "." + [DigitChar(x), DigitChar(y)];
    assert s[..|s| - 3] == v;
    assert s[|s| - 3] == '.' && s[|s| - 2] == DigitChar(x) && s[|s| - 1] == DigitChar(y);
    DigitRoundTrip(x);
    DigitRoundTrip(y);
    NatRoundTrip(w);
  }

  lemma UnsignedCentsRoundTrip(a: nat)
    ensures ParseUnsignedCents(NatToString(a / 100) + "." + TwoDigits(a % 100)) == Some(a)
  {
    var q, c := a / 100, a % 100;
    var x, y := c / 10, c % 10;
    assert c == x * 10 + y;
    assert a == q * 100 + c;
    assert TwoDigits(c) == [DigitChar(x), DigitChar(y)];
    ParseWholeAndTwoDigits(q, x, y);
  }

  /** `'%.2f'` of an amount in cents reads back as the same amount. */
  lemma CentsRoundTrip(cents: int)
    ensures ParseCents(FormatCents(cents)) == Some(cents)
  {
    var a := if cents < 0 then -cents else cents;
    var u := NatToString(a / 100) + "." + TwoDigits(a % 100);
    UnsignedCentsRoundTrip(a);
    if cents < 0 {
      assert FormatCents(cents) == "-" + u;
      assert ("-" + u)[1..] == u;
    } else {
      assert FormatCents(cents) == u;
      assert IsDigit(u[0]);
    }
  }
}
