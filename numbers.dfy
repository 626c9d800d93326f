/** Numbers as the product form shows and reads them: `Number.prototype.toString`
    for integers and for prices, and `parseInt(_, 10)` / `parseFloat` for the text
    the user typed. Prices are whole cents; a parse that JavaScript would turn into
    `NaN` gives `None`. */
module Numbers {
  import opened Wrappers
  import Strings

  predicate IsDigit(c: char)
  {
    '0' <= c <= '9'
  }

  predicate AllDigits(s: string)
  {
    forall i :: 0 <= i < |s| ==> IsDigit(s[i])
  }

  function DigitChar(d: nat): (c: char)
    requires d < 10
    ensures IsDigit(c)
  {
    ('0' as int + d) as char
  }

  function DigitValue(c: char): (d: nat)
    requires IsDigit(c)
    ensures d < 10 && DigitChar(d) == c
  {
    c as int - '0' as int
  }

  /** Decimal digits of `n`, most significant first, without leading zeros. */
  function NatToString(n: nat): (s: string)
    ensures |s| >= 1 && AllDigits(s)
    ensures |s| > 1 ==> s[0] != '0'
  {
    if n < 10 then [DigitChar(n)] else NatToString(n / 10) + [DigitChar(n % 10)]
  }

  /** The number a string of decimal digits denotes. */
  function DigitsValue(s: string): nat
    requires AllDigits(s)
  {
    if s == [] then 0 else DigitsValue(s[..|s| - 1]) * 10 + DigitValue(s[|s| - 1])
  }

  lemma {:induction false} NatToStringRoundTrip(n: nat)
    ensures DigitsValue(NatToString(n)) == n
  {
    if n >= 10 {
      var s := NatToString(n);
      assert s[..|s| - 1] == NatToString(n / 10);
      NatToStringRoundTrip(n / 10);
    }
  }

  /** A non-empty run of digits, read as a number. */
  function ParseNat(s: string): (r: Option<nat>)
    ensures r.Some? <==> |s| > 0 && AllDigits(s)
  {
    if |s| > 0 && AllDigits(s) then Some(DigitsValue(s)) else None
  }

  /** `n.toString()` for an integer `n`: text that `parseInt` reads back as `n`. */
  function IntToString(n: int): (s: string)
    ensures ParseInt(s) == Some(n)
  {
    if n < 0 then
      NatToStringRoundTrip(-n);
      ParseNegativeInt(NatToString(-n), -n);
      "-" + NatToString(-n)
    else
      NatToStringRoundTrip(n);
      ParseNonNegativeInt(NatToString(n), n);
      NatToString(n)
  }

  /** `parseInt(s, 10)` on an optional minus sign followed by digits; anything else is `NaN`. */
  function ParseInt(s: string): (r: Option<int>)
    ensures r.Some? <==> (|s| > 0 && AllDigits(s)) || (|s| > 1 && s[0] == '-' && AllDigits(s[1..]))
    ensures r.Some? && s[0] != '-' ==> r.value >= 0
  {
    if |s| > 0 && s[0] == '-' then
      match ParseNat(s[1..])
      case Some(n) => Some(-(n as int))
      case None => None
    else
      match ParseNat(s)
      case Some(n) => Some(n)
      case None => None
  }

  lemma ParseNegativeInt(t: string, n: nat)
    requires ParseNat(t) == Some(n)
    ensures ParseInt("-" + t) == Some(-(n as int))
  {
    assert ("-" + t)[1..] == t;
  }

  lemma ParseNonNegativeInt(t: string, n: nat)
    requires |t| > 0 && IsDigit(t[0])
    requires ParseNat(t) == Some(n)
    ensures ParseInt(t) == Some(n as int)
  {
  }

  /** The text of a non-negative amount of cents, as `toString` prints the price
      in reais: no fractional part when it is whole, and no trailing zero. */
  function CentsToString(c: nat): (s: string)
    ensures |s| > 0 && IsDigit(s[0])
  {
    var units, frac := c / 100, c % 100;
    if frac == 0 then NatToString(units)
    else if frac % 10 == 0 then NatToString(units) + "." + [DigitChar(frac / 10)]
    else NatToString(units) + "." + [DigitChar(frac / 10), DigitChar(frac % 10)]
  }

  /** `preco.toString()` for a price of `c` cents: text that `parseFloat` reads
      back as the same price. */
  function PriceToString(c: int): (s: string)
    ensures ParsePrice(s) == Some(c)
  {
    var m: nat := if c < 0 then -c else c;
    var digits := CentsToString(m);
    CentsRoundTrip(m);
    if c < 0 then
      ParseNegativePrice(digits, m);
      "-" + digits
    else
      ParseNonNegativePrice(digits, m);
      digits
  }

  /** Digits, optionally followed by '.' and one or two digits, read as cents. */
  function ParseCents(s: string): (r: Option<nat>)
  {
    var whole := Strings.PrefixBefore(s, '.');
    if |whole| == |s| then
      match ParseNat(s)
      case Some(u) => Some(u * 100)
      case None => None
    else
      var frac := s[|whole| + 1..];
      match ParseNat(whole)
      case None => None
      case Some(u) =>
        if 1 <= |frac| <= 2 && AllDigits(frac) then
          Some(u * 100 + (if |frac| == 1 then DigitValue(frac[0]) * 10 else DigitsValue(frac)))
        else None
  }

  /** `parseFloat(s)` on an optional minus sign followed by a price in whole cents. */
  function ParsePrice(s: string): (r: Option<int>)
    ensures ParseNat(s).Some? ==> r == Some(ParseNat(s).value * 100)
    ensures r.Some? ==> |s| > 0
    ensures r.Some? && s[0] != '-' ==> r.value >= 0
  {
    if |s| > 0 && s[0] == '-' then
      match ParseCents(s[1..])
      case Some(c) => Some(-(c as int))
      case None => None
    else
      match ParseCents(s)
      case Some(c) => Some(c)
      case None => None
  }

  lemma DigitsHaveNoDot(u: string)
    requires AllDigits(u)
    ensures '.' !in u
  {
    forall i | 0 <= i < |u| ensures u[i] != '.' { assert IsDigit(u[i]); }
  }

  lemma ParseWholeCents(u: string)
    requires |u| > 0 && AllDigits(u)
    ensures ParseCents(u) == Some(DigitsValue(u) * 100)
  {
    DigitsHaveNoDot(u);
  }

  lemma ParseFractionalCents(u: string, tail: string)
    requires |u| > 0 && AllDigits(u)
    requires 1 <= |tail| <= 2 && AllDigits(tail)
    ensures ParseCents(u + "." + tail)
         == Some(DigitsValue(u) * 100 + (if |tail| == 1 then DigitValue(tail[0]) * 10 else DigitsValue(tail)))
  {
    DigitsHaveNoDot(u);
    Strings.PrefixBeforeJoin(u, '.', tail);
    assert (u + "." + tail)[|u| + 1..] == tail;
  }

  lemma CentsRoundTrip(c: nat)
    ensures ParseCents(CentsToString(c)) == Some(c)
  {
    var units, frac := c / 100, c % 100;
    var u := NatToString(units);
    NatToStringRoundTrip(units);
    if frac == 0 {
      ParseWholeCents(u);
    } else if frac % 10 == 0 {
      ParseFractionalCents(u, [DigitChar(frac / 10)]);
    } else {
      var tail := [DigitChar(frac / 10), DigitChar(frac % 10)];
      assert tail[..1] == [DigitChar(frac / 10)];
      assert DigitValue(tail[0]) == frac / 10 && DigitValue(tail[1]) == frac % 10;
      assert tail[..1][..0] == [];
      assert DigitsValue(tail[..1]) == frac / 10;
      assert DigitsValue(tail) == (frac / 10) * 10 + frac % 10;
      ParseFractionalCents(u, tail);
    }
  }

  lemma ParseNegativePrice(t: string, c: nat)
    requires ParseCents(t) == Some(c)
    ensures ParsePrice("-" + t) == Some(-(c as int))
  {
    assert ("-" + t)[1..] == t;
  }

  lemma ParseNonNegativePrice(t: string, c: nat)
    requires |t| > 0 && IsDigit(t[0])
    requires ParseCents(t) == Some(c)
    ensures ParsePrice(t) == Some(c as int)
  {
  }
}
