/** Exact fixed-point money and tax rates. The system computes with
    Python's `Decimal`, never binary floating point, so integers in the
    smallest unit are a faithful representation. */
module Money {
  import opened Wrappers
  import opened Text

  /** A monetary amount in centavos (0.01 BRL); NF-e amounts are never negative. */
  type Cents = nat

  /** A percentage rate in hundredths of a percentage point: 1.65% is 165. */
  type Rate = nat

  /** Amount x rate gives ten-thousandths of a centavo: divide by this to get centavos. */
  const RATE_SCALE: nat := 10000

  /** The single tolerance (0.01 BRL) shared by every computed-value comparison. */
  const TOLERANCE_CENTS: Cents := 1

  function Diff(a: int, b: int): (d: nat)
    ensures d == a - b || d == b - a
  {
    if a >= b then a - b else b - a
  }

  /** Two amounts disagree when they differ by more than the tolerance. */
  predicate Diverges(a: Cents, b: Cents) {
    Diff(a, b) > TOLERANCE_CENTS
  }

  /** `n` ten-thousandths of a centavo rounded to whole centavos, ties to
      even, as `round(Decimal, 2)` does. */
  function RoundHalfEven(n: nat): (q: nat)
    ensures 2 * Diff(n, RATE_SCALE * q) <= RATE_SCALE
    ensures 2 * Diff(n, RATE_SCALE * q) == RATE_SCALE ==> q % 2 == 0
    ensures n % RATE_SCALE == 0 ==> RATE_SCALE * q == n
  {
    var q0, r := n / RATE_SCALE, n % RATE_SCALE;
    if 2 * r < RATE_SCALE then q0
    else if 2 * r > RATE_SCALE then q0 + 1
    else if q0 % 2 == 0 then q0 else q0 + 1
  }

  /** The tax a rate yields on a base: round(base x rate / 100, 2). */
  function TaxValue(base: Cents, rate: Rate): (v: Cents)
    ensures 2 * Diff(base * rate, RATE_SCALE * v) <= RATE_SCALE
  {
    RoundHalfEven(base * rate)
  }

  /** Financial impact of a wrong rate: |declared - expected| / 100 x base. */
  function RateImpact(declared: Rate, expected: Rate, base: Cents): (impact: Cents)
    ensures declared == expected ==> impact == 0
    ensures 2 * Diff(Diff(declared, expected) * base, RATE_SCALE * impact) <= RATE_SCALE
  {
    RoundHalfEven(Diff(declared, expected) * base)
  }

  /** Display form with exactly two decimals, as `str(Decimal("3500.00"))`. */
  function FormatCents(c: Cents): (s: string)
    ensures |s| >= 4 && s[|s| - 3] == '.'
    ensures AllDigits(s[..|s| - 3]) && AllDigits(s[|s| - 2..])
  {
    NatToString(c / 100) + "." + [DigitChar(c % 100 / 10), DigitChar(c % 10)]
  }

  /** Reads a display form `<digits>.<two digits>` back. */
  function ParseCents(s: string): Option<Cents> {
    if |s| >= 4 && s[|s| - 3] == '.' && AllDigits(s[..|s| - 3]) && AllDigits(s[|s| - 2..])
    then Some(ParseNat(s[..|s| - 3]) * 100 + ParseNat(s[|s| - 2..]))
    else None
  }

  /** Every displayed amount reads back as the same amount. */
  lemma FormatCentsRoundTrip(c: Cents)
    ensures ParseCents(FormatCents(c)) == Some(c)
  {
    var s := FormatCents(c);
    var whole := NatToString(c / 100);
    assert s[..|s| - 3] == whole;
    assert s[|s| - 2..] == [DigitChar(c % 100 / 10), DigitChar(c % 10)];
    ParseNatToString(c / 100);
    var tail := s[|s| - 2..];
    assert tail[..1] == [DigitChar(c % 100 / 10)];
    assert tail[..1][..0] == [];
    assert ParseNat(tail[..1]) == c % 100 / 10;
    assert ParseNat(tail) == (c % 100 / 10) * 10 + c % 10;
  }
}
