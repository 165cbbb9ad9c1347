/** Decimal text with 18 fractional digits: rounding a rational, printing it, and reading it back. */
module DecimalText {
  import opened Results
  import opened Decimals

  const PLACES := 18
  const UNIT: int := 1_000_000_000_000_000_000

  /** A rational number as big.Rat holds it. */
  datatype Rational = Rational(num: int, den: int)

  predicate Valid(x: Rational) {
    x.den > 0
  }

  // ----- Rounding

  /** Go's QuoRem: the quotient truncated toward zero, and the remainder with the numerator's sign. */
  function QuoRem(n: int, d: int): (int, int)
    requires d > 0
  {
    if n >= 0 then (n / d, n % d) else (-((-n) / d), -((-n) % d))
  }

  function Abs(n: int): int {
    if n < 0 then -n else n
  }

  /** The number of units of 10^-18 that formatDecimal prints. */
  function RoundUnits(x: Rational): int
    requires Valid(x)
  {
    var n := x.num * UNIT;
    var (quotient, remainder) := QuoRem(n, x.den);
    if remainder != 0 && 2 * Abs(remainder) >= x.den then
      if n < 0 then quotient - 1 else quotient + 1
    else quotient
  }

  lemma QuoRemIs(n: int, d: int)
    requires d > 0
    ensures var (q, r) := QuoRem(n, d); n == q * d + r && Abs(r) < d && (n >= 0 ==> r >= 0) && (n <= 0 ==> r <= 0)
  {
    var m := Abs(n);
    assert m == (m / d) * d + m % d;
    assert -((m / d) * d + m % d) == (-(m / d)) * d - m % d;
  }

  /** The real number of units in a rational. */
  ghost function Units(x: Rational): real
    requires Valid(x)
  {
    (x.num * UNIT) as real / x.den as real
  }

  lemma Fraction(n: int, d: int, q: int, r: int)
    requires d > 0 && n == q * d + r
    ensures n as real / d as real == q as real + r as real / d as real
  {
    assert n as real == q as real * d as real + r as real;
  }

  /** Comparing a fraction with c is comparing its numerator. */
  lemma FractionAtLeast(r: int, d: int, c: real)
    requires d > 0
    ensures r as real / d as real >= c <==> r as real >= c * d as real
  {
    var f, e := r as real / d as real, d as real;
    assert f * e == r as real;
    ScaleOrder(f, c, e);
  }

  lemma FractionParts(r: int, d: int)
    requires d > 0 && Abs(r) < d
    ensures var f := r as real / d as real;
            && -1.0 < f < 1.0 && (f >= 0.5 <==> 2 * r >= d) && (f <= -0.5 <==> -2 * r >= d)
            && (f > 0.0 <==> r > 0) && (f < 0.0 <==> r < 0)
  {
    var f, g := r as real / d as real, (-r) as real / d as real;
    assert g == -f;
    FractionAtLeast(r, d, 0.5);
    FractionAtLeast(-r, d, 0.5);
    FractionAtLeast(r, d, 1.0);
    FractionAtLeast(-r, d, 1.0);
    FractionAtLeast(r, d, 0.0);
    FractionAtLeast(-r, d, 0.0);
  }

  lemma RoundSplit(q: int, f: real)
    requires -1.0 < f < 1.0 && (f > 0.0 ==> q >= 0) && (f < 0.0 ==> q <= 0)
    ensures RoundHalfAway(q as real + f) == if f >= 0.5 then q + 1 else if f <= -0.5 then q - 1 else q
  {
    if f > 0.0 {
      FloorAt(q, f + 0.5);
    } else if f < 0.0 {
      FloorAt(-q, 0.5 - f);
    } else {
      RoundInteger(q);
    }
  }

  lemma FloorAt(q: int, f: real)
    requires 0.0 <= f < 2.0
    ensures (q as real + f).Floor == if f >= 1.0 then q + 1 else q
  {
  }

  /** The printed value is the nearest multiple of 10^-18, halves away from zero. */
  lemma RoundsHalfAway(x: Rational)
    requires Valid(x)
    ensures RoundUnits(x) == RoundHalfAway(Units(x))
  {
    var n, d := x.num * UNIT, x.den;
    var (q, r) := QuoRem(n, d);
    QuoRemIs(n, d);
    QuotientSign(n, d);
    Fraction(n, d, q, r);
    FractionParts(r, d);
    RoundSplit(q, r as real / d as real);
  }

  lemma QuotientSign(n: int, d: int)
    requires d > 0
    ensures n >= 0 ==> QuoRem(n, d).0 >= 0
    ensures n <= 0 ==> QuoRem(n, d).0 <= 0
    ensures QuoRem(n, d).1 > 0 ==> n > 0
    ensures QuoRem(n, d).1 < 0 ==> n < 0
    ensures QuoRem(n, d).1 == 0 && n < 0 ==> QuoRem(n, d).0 <= 0
  {
    if n < 0 { NatQuotient(-n, d); } else { NatQuotient(n, d); }
  }

  lemma NatQuotient(n: int, d: int)
    requires n >= 0 && d > 0
    ensures n / d >= 0 && 0 <= n % d < d
  {
  }

  // ----- Digits

  predicate IsDigit(c: char) {
    '0' <= c <= '9'
  }

  function DigitChar(d: nat): char
    requires d < 10
  {
    ('0' as int + d) as char
  }

  function DigitValue(c: char): nat
    requires IsDigit(c)
  {
    (c as int - '0' as int) as nat
  }

  predicate AllDigits(s: string) {
    forall i :: 0 <= i < |s| ==> IsDigit(s[i])
  }

  /** A natural number in decimal, without leading zeros. */
  function PrintNat(n: nat): (s: string)
    ensures AllDigits(s) && |s| >= 1
  {
    if n < 10 then [DigitChar(n)] else PrintNat(n / 10) + [DigitChar(n % 10)]
  }

  function ReadNat(s: string): nat
    requires AllDigits(s)
  {
    if s == "" then 0 else 10 * ReadNat(s[..|s| - 1]) + DigitValue(s[|s| - 1])
  }

  lemma {:induction false} ReadPrinted(n: nat)
    ensures ReadNat(PrintNat(n)) == n
  {
    if n < 10 {
      assert PrintNat(n)[..0] == "";
    } else {
      ReadPrinted(n / 10);
      var head := PrintNat(n / 10);
      assert (head + [DigitChar(n % 10)])[..|head|] == head;
    }
  }

  function Zeros(k: nat): (s: string)
    ensures AllDigits(s) && |s| == k
  {
    if k == 0 then "" else Zeros(k - 1) + "0"
  }

  lemma {:induction false} ReadZeros(k: nat)
    ensures ReadNat(Zeros(k)) == 0
  {
    if k > 0 {
      ReadZeros(k - 1);
      assert Zeros(k)[..k - 1] == Zeros(k - 1);
    }
  }

  /** Leading zeros do not change the number. */
  lemma {:induction false} ReadPadded(k: nat, s: string)
    requires AllDigits(s)
    ensures AllDigits(Zeros(k) + s) && ReadNat(Zeros(k) + s) == ReadNat(s)
  {
    if s == "" {
      ReadZeros(k);
      assert Zeros(k) + s == Zeros(k);
    } else {
      var n := |s| - 1;
      ReadPadded(k, s[..n]);
      assert (Zeros(k) + s)[..k + n] == Zeros(k) + s[..n];
    }
  }

  // ----- Text

  function Padded(n: nat): (digits: string)
    ensures AllDigits(digits) && |digits| > PLACES
  {
    var raw := PrintNat(n);
    if |raw| <= PLACES then Zeros(PLACES + 1 - |raw|) + raw else raw
  }

  /** Sets the point before the last 18 digits. */
  function Pointed(digits: string): string
    requires |digits| > PLACES
  {
    digits[..|digits| - PLACES] + "." + digits[|digits| - PLACES..]
  }

  /** Pads to at least 19 digits and sets the point. */
  function PrintUnits(units: int): string {
    (if units < 0 then "-" else "") + Pointed(Padded(Abs(units)))
  }

  function FormatDecimal(x: Rational): string
    requires Valid(x)
  {
    PrintUnits(RoundUnits(x))
  }

  function IndexOf(s: string, c: char): (i: nat)
    ensures i <= |s| && (forall k :: 0 <= k < i ==> s[k] != c) && (i < |s| ==> s[i] == c)
  {
    if s == "" || s[0] == c then 0 else 1 + IndexOf(s[1..], c)
  }

  function Power10(k: nat): int
    ensures Power10(k) >= 1
  {
    if k == 0 then 1 else 10 * Power10(k - 1)
  }

  /** Reads digits, and an optional point with more digits. */
  function ParseBody(negative: bool, body: string): (x: Option<Rational>)
    ensures x.Some? ==> Valid(x.value)
  {
    var point := IndexOf(body, '.');
    var whole, fraction := body[..point], if point < |body| then body[point + 1..] else "";
    if !AllDigits(whole) || !AllDigits(fraction) || |whole| + |fraction| == 0 then None
    else
      var n: int := ReadNat(whole + fraction);
      Some(Rational(if negative then -n else n, Power10(|fraction|)))
  }

  /** Reads an optional sign and an unsigned decimal. */
  function ParseDecimal(s: string): (x: Option<Rational>)
    ensures x.Some? ==> Valid(x.value)
  {
    if s != "" && s[0] == '-' then ParseBody(true, s[1..])
    else if s != "" && s[0] == '+' then ParseBody(false, s[1..])
    else ParseBody(false, s)
  }

  lemma UnitIsPower()
    ensures Power10(PLACES) == UNIT
  {
    assert Power10(9) == 1_000_000_000 by {
      assert Power10(3) == 1000;
      assert Power10(6) == 1000000;
    }
    assert Power10(12) == 1_000_000_000_000;
    assert Power10(15) == 1_000_000_000_000_000;
  }

  lemma {:induction false} PointFound(whole: string, fraction: string)
    requires AllDigits(whole)
    ensures IndexOf(whole + "." + fraction, '.') == |whole|
  {
    var s := whole + "." + fraction;
    if whole != "" {
      PointFound(whole[1..], fraction);
      assert s[0] == whole[0] && s[1..] == whole[1..] + "." + fraction;
    }
  }

  /** An unsigned decimal around its point, as the parser splits it. */
  lemma Halves(whole: string, fraction: string)
    requires AllDigits(whole)
    ensures var body, point := whole + "." + fraction, |whole|;
            IndexOf(body, '.') == point < |body| && body[..point] == whole && body[point + 1..] == fraction
  {
    PointFound(whole, fraction);
  }

  lemma ParseParts(negative: bool, whole: string, fraction: string, digits: string, scale: int)
    requires AllDigits(whole) && AllDigits(fraction) && |whole| >= 1 && AllDigits(digits)
    requires digits == whole + fraction && scale == Power10(|fraction|)
    ensures var n: int := ReadNat(digits);
            ParseBody(negative, whole + "." + fraction) == Some(Rational(if negative then -n else n, scale))
  {
    Halves(whole, fraction);
  }

  lemma ParseSigned(negative: bool, body: string, s: string)
    requires body != "" && IsDigit(body[0]) && s == (if negative then "-" else "") + body
    ensures ParseDecimal(s) == ParseBody(negative, body)
  {
    if negative { assert s[1..] == body; } else { assert s == body; }
  }

  lemma ReadPaddedNat(n: nat)
    ensures ReadNat(Padded(n)) == n
  {
    var raw := PrintNat(n);
    ReadPrinted(n);
    if |raw| <= PLACES { ReadPadded(PLACES + 1 - |raw|, raw); }
  }

  lemma SplitDigits(digits: string, k: nat)
    requires AllDigits(digits) && k <= |digits|
    ensures AllDigits(digits[..k]) && AllDigits(digits[k..]) && digits == digits[..k] + digits[k..]
  {
  }

  lemma ParsePointed(negative: bool, digits: string)
    requires AllDigits(digits) && |digits| > PLACES
    ensures var n: int := ReadNat(digits);
            ParseBody(negative, Pointed(digits)) == Some(Rational(if negative then -n else n, UNIT))
  {
    var k := |digits| - PLACES;
    UnitIsPower();
    SplitDigits(digits, k);
    ParseParts(negative, digits[..k], digits[k..], digits, UNIT);
  }

  /** Reading printed units gives the same number of units of 10^-18. */
  lemma ParsePrinted(units: int)
    ensures ParseDecimal(PrintUnits(units)) == Some(Rational(units, UNIT))
  {
    var digits := Padded(Abs(units));
    ReadPaddedNat(Abs(units));
    ParseSigned(units < 0, Pointed(digits), PrintUnits(units));
    ParsePointed(units < 0, digits);
  }

  lemma WholeUnits(units: int)
    ensures RoundUnits(Rational(units, UNIT)) == units
  {
    QuoRemIs(units * UNIT, UNIT);
    RoundsHalfAway(Rational(units, UNIT));
    Fraction(units * UNIT, UNIT, units, 0);
    RoundInteger(units);
  }

  /** Printing is a canonical form: text that was printed once prints the same again. */
  lemma FormatIdempotent(x: Rational)
    requires Valid(x)
    ensures ParseDecimal(FormatDecimal(x)).Some?
    ensures FormatDecimal(ParseDecimal(FormatDecimal(x)).value) == FormatDecimal(x)
  {
    ParsePrinted(RoundUnits(x));
    WholeUnits(RoundUnits(x));
  }

  lemma UnitsOfWhole(units: int)
    ensures Units(Rational(units, UNIT)) == units as real
  {
    Fraction(units * UNIT, UNIT, units, 0);
  }

  ghost predicate WithinHalf(a: real, b: real) {
    -0.5 <= a - b <= 0.5
  }

  lemma RoundsWithinHalf(x: Rational)
    requires Valid(x)
    ensures WithinHalf(RoundUnits(x) as real, Units(x))
  {
    RoundsHalfAway(x);
    RoundNearest(Units(x));
  }

  /** Printing and reading back moves a number by half a unit at most. */
  lemma FormatNear(x: Rational)
    requires Valid(x)
    ensures var back := ParseDecimal(FormatDecimal(x));
            back.Some? && Valid(back.value) && WithinHalf(Units(back.value), Units(x))
  {
    ParsePrinted(RoundUnits(x));
    RoundsWithinHalf(x);
    UnitsOfWhole(RoundUnits(x));
  }

  /** A number and its opposite print as opposite numbers of units. */
  lemma FormatOdd(x: Rational)
    requires Valid(x)
    ensures ParseDecimal(FormatDecimal(Rational(-x.num, x.den))) == Some(Rational(-RoundUnits(x), UNIT))
  {
    var y := Rational(-x.num, x.den);
    RoundsHalfAway(x);
    RoundsHalfAway(y);
    Opposite(x.num * UNIT, y.num * UNIT, x.den);
    RoundOdd(Units(x));
    ParsePrinted(RoundUnits(y));
  }

  lemma Opposite(n: int, m: int, d: int)
    requires d > 0 && m == -n
    ensures m as real / d as real == -(n as real / d as real)
  {
  }

  /** Different numbers of units print differently. */
  lemma PrintInjective(a: int, b: int)
    requires PrintUnits(a) == PrintUnits(b)
    ensures a == b
  {
    ParsePrinted(a);
    ParsePrinted(b);
  }

  // ----- What the constants mean

  lemma {:induction false} PrintedLength(n: nat, k: nat)
    requires k >= 1
    ensures |PrintNat(n)| <= k <==> n < Power10(k)
  {
    if k == 1 {
      assert Power10(0) == 1;
    } else if n >= 10 {
      PrintedLength(n / 10, k - 1);
    }
  }

  lemma {:induction false} PowerStep(k: nat, j: nat)
    ensures Power10(k + j) == Power10(k) * Power10(j)
  {
    if j > 0 { PowerStep(k, j - 1); }
  }

  /** The two limits are the numbers of 38 and of 28 digits, and a unit is the eighteenth part after the point. */
  lemma LimitsAreDigits(n: nat)
    ensures |PrintNat(n)| <= 38 <==> n < STORAGE_LIMIT
    ensures |PrintNat(n)| <= 28 <==> n < CONTEXT_LIMIT
    ensures SCALE == UNIT as real && UNIT == Power10(18) && PLACES == 18
  {
    UnitIsPower();
    assert Power10(10) == 10_000_000_000 by { PowerStep(5, 5); }
    PowerStep(18, 10);
    PowerStep(28, 10);
    PrintedLength(n, 38);
    PrintedLength(n, 28);
  }

  lemma {:induction false} ReadConcat(a: string, b: string)
    requires AllDigits(a) && AllDigits(b)
    ensures AllDigits(a + b) && ReadNat(a + b) == ReadNat(a) * Power10(|b|) + ReadNat(b)
  {
    if b == "" {
      assert a + b == a;
    } else {
      var n := |b| - 1;
      ReadConcat(a, b[..n]);
      assert (a + b)[..|a| + n] == a + b[..n];
      PowerOnce(ReadNat(a), n);
    }
  }

  lemma PowerOnce(x: nat, n: nat)
    ensures 10 * (x * Power10(n)) == x * Power10(n + 1)
  {
  }

  lemma {:induction false} ReadBelow(s: string)
    requires AllDigits(s)
    ensures ReadNat(s) < Power10(|s|)
  {
    if s != "" { ReadBelow(s[..|s| - 1]); }
  }

  lemma FarMultiple(e: int, d: int)
    requires d > 0
    ensures e >= 1 ==> e * d >= d
    ensures e <= -1 ==> e * d <= -d
  {
  }

  lemma WholeAndRest(n: nat, q: nat, r: nat, d: int)
    requires d > 0 && n == q * d + r && r < d
    ensures q == n / d && r == n % d
  {
    var e := n / d - q;
    assert n == (n / d) * d + n % d;
    assert e * d == r - n % d;
    FarMultiple(e, d);
  }

  /** Text of a number of units: a sign if it is negative, the whole part, a point, and eighteen digits of the rest. */
  ghost predicate Shows(s: string, n: int, whole: string, fraction: string) {
    && s == (if n < 0 then "-" else "") + whole + "." + fraction
    && AllDigits(whole) && AllDigits(fraction) && |whole| >= 1 && |fraction| == 18
    && ReadNat(whole) == (if n < 0 then -n else n) / 1_000_000_000_000_000_000
    && ReadNat(fraction) == (if n < 0 then -n else n) % 1_000_000_000_000_000_000
  }

  lemma PrintedShows(n: int) returns (whole: string, fraction: string)
    ensures Shows(PrintUnits(n), n, whole, fraction)
  {
    var digits, k := Padded(Abs(n)), |Padded(Abs(n))| - PLACES;
    whole, fraction := digits[..k], digits[k..];
    ReadPaddedNat(Abs(n));
    SplitDigits(digits, k);
    ReadConcat(whole, fraction);
    ReadBelow(fraction);
    UnitIsPower();
    WholeAndRest(Abs(n), ReadNat(whole), ReadNat(fraction), UNIT);
  }

  /** A digit stands for how far it is from 0. */
  lemma DigitsAre(c: char)
    requires IsDigit(c)
    ensures '0' <= c <= '9' && DigitValue(c) == c as int - '0' as int
  {
  }
}
