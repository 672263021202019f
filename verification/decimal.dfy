/** Decimal text of numbers: strconv.FormatInt, FormatFloat(x, 'f', prec, 64), ParseFloat and Atoi, over the reals. */
module Decimal {
  import opened Options

  function Abs(x: real): (r: real)
    ensures r >= 0.0
  {
    if x < 0.0 then -x else x
  }

  /** Conversion of a float to an int: the fraction is dropped, towards zero. */
  function Truncate(x: real): (n: int)
    ensures x >= 0.0 ==> n as real <= x < n as real + 1.0
    ensures x <= 0.0 ==> n as real - 1.0 < x <= n as real
  {
    if x >= 0.0 then x.Floor else -((-x).Floor)
  }

  /** math.Round: nearest integer, halves away from zero. */
  function RoundHalfAway(x: real): int {
    if x >= 0.0 then (x + 0.5).Floor else -((0.5 - x).Floor)
  }

  /** Nearest integer, halves to the even neighbour: the rounding of FormatFloat with a fixed precision. */
  function RoundHalfEven(x: real): (n: int)
    ensures -0.5 <= n as real - x <= 0.5
  {
    var f := x.Floor;
    var rest := x - f as real;
    if rest < 0.5 || (rest == 0.5 && f % 2 == 0) then f else f + 1
  }

  lemma RoundHalfEvenMonotone(x: real, y: real)
    requires x <= y
    ensures RoundHalfEven(x) <= RoundHalfEven(y)
  {
    if x.Floor == y.Floor {
    } else {
      assert x.Floor + 1 <= y.Floor;
    }
  }

  lemma RoundOfInteger(n: int)
    ensures RoundHalfEven(n as real) == n
  {
    assert (n as real).Floor == n;
  }

  function Pow10(k: nat): (p: nat)
    ensures p >= 1
  {
    if k == 0 then 1 else 10 * Pow10(k - 1)
  }

  /** Quotient and remainder of a positive division, with the facts that define them. */
  function Whole(n: nat, p: nat): (q: nat)
    requires p >= 1
    ensures q * p <= n < q * p + p
  {
    n / p
  }

  function Rest(n: nat, p: nat): (r: nat)
    requires p >= 1
    ensures r < p && n == Whole(n, p) * p + r
  {
    n - Whole(n, p) * p
  }

  /** The fraction n / p as a real number. */
  function Over(n: int, p: nat): (x: real)
    requires p >= 1
    ensures x * p as real == n as real
  {
    n as real / p as real
  }

  lemma OverUnique(x: real, n: int, p: nat)
    requires p >= 1 && x * p as real == n as real
    ensures x == Over(n, p)
  {
    assert (x - Over(n, p)) * p as real == 0.0;
  }

  // ---- Digits -----------------------------------------------------------------------------

  predicate IsDigit(c: char) { '0' <= c <= '9' }

  function DigitChar(d: nat): (c: char)
    requires d < 10
    ensures IsDigit(c)
  {
    '0' + d as char
  }

  function DigitValue(c: char): (d: nat)
    requires IsDigit(c)
    ensures d < 10
  {
    (c - '0') as int
  }

  predicate AllDigits(s: string) { forall i :: 0 <= i < |s| ==> IsDigit(s[i]) }

  /** The number a string of digits denotes; the last digit has weight one. */
  function DigitsValue(s: string): nat
    requires AllDigits(s)
  {
    if s == "" then 0 else 10 * DigitsValue(s[..|s| - 1]) + DigitValue(s[|s| - 1])
  }

  /** Decimal digits of n without leading zeros (strconv.FormatInt, base 10). */
  function Digits(n: nat): (s: string)
    ensures s != "" && AllDigits(s)
  {
    if n < 10 then [DigitChar(n)] else Digits(n / 10) + [DigitChar(n % 10)]
  }

  /** An integer as printed by the %d verb. */
  function IntText(n: int): string {
    if n < 0 then "-" + Digits(-n) else Digits(n)
  }

  /** The last k decimal digits of n, padded with zeros on the left. */
  function Padded(n: nat, k: nat): (s: string)
    ensures |s| == k && AllDigits(s)
  {
    if k == 0 then "" else Padded(n / 10, k - 1) + [DigitChar(n % 10)]
  }

  lemma {:induction false} DigitsRoundTrip(n: nat)
    ensures DigitsValue(Digits(n)) == n
  {
    if n >= 10 {
      DigitsRoundTrip(n / 10);
      var s := Digits(n);
      assert s[..|s| - 1] == Digits(n / 10);
    } else {
      assert Digits(n)[..0] == "";
    }
  }

  lemma {:induction false} PaddedRoundTrip(n: nat, k: nat)
    requires n < Pow10(k)
    ensures DigitsValue(Padded(n, k)) == n
  {
    if k > 0 {
      PaddedRoundTrip(n / 10, k - 1);
      var s := Padded(n, k);
      assert s[..k - 1] == Padded(n / 10, k - 1);
    }
  }

  // ---- Fixed precision numbers ------------------------------------------------------------

  /** |x| in units of 1/p, rounded half to even. */
  function Units(x: real, p: nat): (n: nat)
    requires p >= 1
    ensures -0.5 <= n as real - Abs(x) * p as real <= 0.5
  {
    var scaled := Abs(x) * p as real;
    assert scaled >= 0.0;
    RoundHalfEven(scaled)
  }

  /** FormatFloat(x, 'f', prec, 64): the sign of x, then |x| rounded to prec decimals. */
  function FormatFixed(x: real, prec: nat): string {
    (if x < 0.0 then "-" else "") + FormatScaled(Units(x, Pow10(prec)), prec)
  }

  /** The decimal text of n / 10^prec. */
  function FormatScaled(n: nat, prec: nat): string {
    Digits(Whole(n, Pow10(prec))) + (if prec == 0 then "" else "." + Padded(Rest(n, Pow10(prec)), prec))
  }

  function IndexOf(s: string, c: char): (i: nat)
    ensures i <= |s|
    ensures forall j :: 0 <= j < i ==> s[j] != c
    ensures i < |s| ==> s[i] == c
  {
    if s == "" || s[0] == c then 0 else 1 + IndexOf(s[1..], c)
  }

  /** The digits after the point. */
  function FractionValue(digits: string): real
    requires AllDigits(digits)
  {
    Over(DigitsValue(digits), Pow10(|digits|))
  }

  /** ParseFloat on the plain decimal notation: digits, then optionally a point and more digits. */
  function ParseUnsigned(s: string): Option<real> {
    var dot := IndexOf(s, '.');
    var whole := s[..dot];
    if whole == "" || !AllDigits(whole) then None
    else if dot == |s| then Some(DigitsValue(whole) as real)
    else
      var fraction := s[dot + 1..];
      if fraction == "" || !AllDigits(fraction) then None
      else Some(DigitsValue(whole) as real + FractionValue(fraction))
  }

  function ParseFixed(s: string): Option<real> {
    if s != "" && s[0] == '-' then
      match ParseUnsigned(s[1..])
      case Some(v) => Some(-v)
      case None => None
    else ParseUnsigned(s)
  }

  /** strconv.Atoi: an optional sign followed by digits only. */
  function ParseInt(s: string): Option<int> {
    var digits := if s != "" && (s[0] == '-' || s[0] == '+') then s[1..] else s;
    if digits == "" || !AllDigits(digits) then None
    else if s[0] == '-' then Some(-(DigitsValue(digits) as int))
    else Some(DigitsValue(digits))
  }

  lemma ParseDigits(d: string)
    requires d != "" && AllDigits(d)
    ensures ParseInt(d) == Some(DigitsValue(d))
    ensures ParseInt("-" + d) == Some(-(DigitsValue(d) as int))
  {
    hide DigitsValue;
    assert IsDigit(d[0]);
    assert ("-" + d)[1..] == d;
  }

  /** Printing an integer and reading it back gives the integer. */
  lemma IntTextRoundTrip(n: int)
    ensures ParseInt(IntText(n)) == Some(n)
  {
    hide DigitsValue, Digits, ParseInt;
    var m := if n < 0 then -n else n;
    DigitsRoundTrip(m);
    ParseDigits(Digits(m));
  }

  lemma IndexOfBefore(a: string, c: char, b: string)
    requires forall i :: 0 <= i < |a| ==> a[i] != c
    ensures IndexOf(a + [c] + b, c) == |a|
    ensures IndexOf(a, c) == |a|
  {
    var s := a + [c] + b;
    assert s[|a|] == c;
  }

  lemma ScaledRoundTrip(n: nat, prec: nat)
    ensures ParseUnsigned(FormatScaled(n, prec)) == Some(Over(n, Pow10(prec)))
  {
    WholeRoundTrip(Whole(n, Pow10(prec)), Rest(n, Pow10(prec)), n, prec, Pow10(prec));
  }

  lemma WholeRoundTrip(q: nat, r: nat, n: nat, prec: nat, p: nat)
    requires p == Pow10(prec) && n == q * p + r && r < p
    ensures ParseUnsigned(Digits(q) + (if prec == 0 then "" else "." + Padded(r, prec))) == Some(Over(n, p))
  {
    var whole, fraction := Digits(q), Padded(r, prec);
    assert DigitsValue(whole) == q by { DigitsRoundTrip(q); }
    assert DigitsValue(fraction) == r by { PaddedRoundTrip(r, prec); }
    PartsRoundTrip(whole, fraction, q, r, n, prec, p);
  }

  lemma PartsRoundTrip(whole: string, fraction: string, q: nat, r: nat, n: nat, prec: nat, p: nat)
    requires whole != "" && AllDigits(whole) && AllDigits(fraction) && |fraction| == prec
    requires DigitsValue(whole) == q && DigitsValue(fraction) == r
    requires p == Pow10(prec) && n == q * p + r && r < p
    ensures ParseUnsigned(whole + (if prec == 0 then "" else "." + fraction)) == Some(Over(n, p))
  {
    hide ParseUnsigned, DigitsValue, Over;
    if prec == 0 {
      ParseWhole(whole);
      assert whole + "" == whole;
      WholeIsOver(q, n, p, r);
    } else {
      ParseWithFraction(whole, fraction);
      assert whole + ['.'] + fraction == whole + ("." + fraction);
      SplitQuotient(q, r, n, p);
    }
  }

  lemma WholeIsOver(q: nat, n: nat, p: nat, r: nat)
    requires p == 1 && n == q * p + r && r < p
    ensures q as real == Over(n, p)
  {
    OverUnique(q as real, n, 1);
  }

  lemma ParseWhole(whole: string)
    requires whole != "" && AllDigits(whole)
    ensures ParseUnsigned(whole) == Some(DigitsValue(whole) as real)
  {
    IndexOfBefore(whole, '.', "");
    assert whole[..|whole|] == whole;
  }

  lemma ParseWithFraction(whole: string, fraction: string)
    requires whole != "" && AllDigits(whole) && fraction != "" && AllDigits(fraction)
    ensures ParseUnsigned(whole + ['.'] + fraction)
         == Some(DigitsValue(whole) as real + FractionValue(fraction))
  {
    hide DigitsValue, FractionValue, IndexOf;
    var s := whole + ['.'] + fraction;
    IndexOfBefore(whole, '.', fraction);
    assert s[..|whole|] == whole && s[|whole| + 1..] == fraction;
  }

  lemma SplitQuotient(q: nat, r: nat, n: nat, p: nat)
    requires p >= 1 && n == q * p + r
    ensures q as real + Over(r, p) == Over(n, p)
  {
    assert n as real == q as real * p as real + r as real;
    OverUnique(q as real + Over(r, p), n, p);
  }

  /** x rounded half to even in units of 1/p, keeping its sign. */
  function RoundedTo(x: real, p: nat): real
    requires p >= 1
  {
    Over(if x < 0.0 then -(Units(x, p) as int) else Units(x, p), p)
  }

  /** What FormatFixed prints. */
  function Rounded(x: real, prec: nat): real { RoundedTo(x, Pow10(prec)) }

  /** Printing and parsing back gives the rounded number, for every real and every precision. */
  lemma FormatParse(x: real, prec: nat)
    ensures ParseFixed(FormatFixed(x, prec)) == Some(Rounded(x, prec))
  {
    hide FormatScaled, ParseUnsigned, ParseFixed, Units;
    var n := Units(x, Pow10(prec));
    ScaledRoundTrip(n, prec);
    StartsWithDigit(n, prec);
    NegateOver(n, Pow10(prec));
    ParseSign(FormatScaled(n, prec));
    assert FormatFixed(x, prec) == if x < 0.0 then "-" + FormatScaled(n, prec) else FormatScaled(n, prec);
  }

  lemma StartsWithDigit(n: nat, prec: nat)
    ensures FormatScaled(n, prec) != "" && IsDigit(FormatScaled(n, prec)[0])
  {
    assert IsDigit(Digits(Whole(n, Pow10(prec)))[0]);
  }

  lemma NegateOver(n: int, p: nat)
    requires p >= 1
    ensures -Over(n, p) == Over(-n, p)
  {
    var x := Over(n, p);
    assert (-x) * p as real == -(x * p as real);
    OverUnique(-x, -n, p);
  }

  lemma ParseSign(body: string)
    requires body != "" && IsDigit(body[0])
    ensures ParseFixed(body) == ParseUnsigned(body)
    ensures ParseFixed("-" + body)
         == match ParseUnsigned(body) { case Some(v) => Some(-v) case None => None }
  {
    assert ("-" + body)[1..] == body;
  }

  /** The printed number is within half a unit of the last place of the number itself. */
  lemma RoundedError(x: real, p: nat)
    requires p >= 1
    ensures -0.5 <= (RoundedTo(x, p) - x) * p as real <= 0.5
  {
    var n := Units(x, p);
    var r := RoundedTo(x, p);
    assert (r - x) * p as real == r * p as real - x * p as real;
    if x < 0.0 {
      assert Abs(x) * p as real == -(x * p as real);
      assert r * p as real == -(n as real);
    }
  }

  /** Rounding keeps an interval whose bounds are integers. */
  lemma RoundedInRange(x: real, p: nat, hi: nat)
    requires p >= 1 && 0.0 <= x <= hi as real
    ensures 0.0 <= RoundedTo(x, p) <= hi as real
  {
    UnitsInRange(x, p, hi);
    OverInRange(Units(x, p), p, hi);
  }

  lemma UnitsInRange(x: real, p: nat, hi: nat)
    requires p >= 1 && 0.0 <= x <= hi as real
    ensures Units(x, p) <= hi * p
  {
    ScaledBelow(x, p, hi);
    UnitsBelow(x, p, hi * p);
  }

  lemma ScaledBelow(x: real, p: nat, hi: nat)
    requires x <= hi as real
    ensures x * p as real <= (hi * p) as real
  {
    var scaled, bound := x * p as real, hi as real * p as real;
    assert scaled <= bound by { ScaleOrder(x, hi as real, p); }
    assert bound == (hi * p) as real by { CastProduct(hi, p); }
  }

  lemma UnitsBelow(x: real, p: nat, n: nat)
    requires p >= 1 && x >= 0.0 && x * p as real <= n as real
    ensures Units(x, p) <= n
  {
    var scaled := x * p as real;
    assert Abs(x) * p as real == scaled;
    RoundBelow(scaled, n);
  }

  lemma RoundBelow(y: real, n: int)
    requires y <= n as real
    ensures RoundHalfEven(y) <= n
  {
    RoundHalfEvenMonotone(y, n as real);
    RoundOfInteger(n);
  }

  lemma OverInRange(n: nat, p: nat, hi: nat)
    requires p >= 1 && n <= hi * p
    ensures 0.0 <= Over(n, p) <= hi as real
  {
    CastProduct(hi, p);
    UnscaleOrder(0.0, Over(n, p), p);
    UnscaleOrder(Over(n, p), hi as real, p);
  }

  lemma CastProduct(a: nat, b: nat)
    ensures a as real * b as real == (a * b) as real
  {
  }

  lemma ScaleOrder(x: real, y: real, p: nat)
    requires x <= y
    ensures x * p as real <= y * p as real
  {
    assert (y - x) * p as real >= 0.0;
  }

  lemma UnscaleOrder(x: real, y: real, p: nat)
    requires p >= 1 && x * p as real <= y * p as real
    ensures x <= y
  {
    var d := x - y;
    assert d * p as real <= 0.0;
    assert d > 0.0 ==> d * p as real > 0.0;
  }
}
