// Decimal arithmetic of the exchange. A BigNumber is an exact decimal, so it is a real here:
// sums, products and decimal shifts are exact, and only division rounds.
module BigNumbers {

  type Amount = real

  /** The number of decimals every token has on chain. */
  const TOKEN_DECIMALS := 18

  /** 10^40: division keeps 40 decimal places. */
  const UNITS_PER_ONE: int := 10000000000000000000000000000000000000000

  /** 10^38: the largest amount that order validation accepts. */
  const MAX_AMOUNT: int := 100000000000000000000000000000000000000

  function Pow10(n: nat): (r: int)
    ensures r > 0
  {
    if n == 0 then 1 else 10 * Pow10(n - 1)
  }

  /** Moves the decimal point `places` digits to the right, or to the left when negative. */
  function ShiftedBy(n: Amount, places: int): Amount {
    if places >= 0 then n * Pow10(places) as real else n / Pow10(-places) as real
  }

  /** Nearest integer, ties away from zero. */
  function HalfUp(x: real): int {
    if x < 0.0 then -((-x + 0.5).Floor) else (x + 0.5).Floor
  }

  function Ceiling(x: real): int {
    -((-x).Floor)
  }

  /** The exact product. */
  function Times(a: Amount, b: Amount): Amount {
    a * b
  }

  /** The quotient rounded half-up to 40 decimal places. */
  function Div(a: Amount, b: Amount): Amount
    requires b != 0.0
  {
    HalfUp(a / b * UNITS_PER_ONE as real) as real / UNITS_PER_ONE as real
  }

  function Floor(n: Amount, decimalPlaces: int): Amount {
    var trailingZeros := TOKEN_DECIMALS - decimalPlaces;
    ShiftedBy(ShiftedBy(n, -trailingZeros).Floor as real, trailingZeros)
  }

  function Ceil(n: Amount, decimalPlaces: int): Amount {
    var trailingZeros := TOKEN_DECIMALS - decimalPlaces;
    ShiftedBy(Ceiling(ShiftedBy(n, -trailingZeros)) as real, trailingZeros)
  }

  predicate Representable(n: Amount, decimalPlaces: int) {
    Floor(n, decimalPlaces) == n
  }

  predicate IsInteger(n: Amount) {
    n.Floor as real == n
  }

  function Min(a: Amount, b: Amount): Amount {
    if a <= b then a else b
  }

  /** The exact quotient rounded up, on integers. */
  function CeilQuotient(x: int, y: int): int
    requires y > 0
  {
    -((-x) / y)
  }

  // --- Rounded division, seen through integers ------------------------------------------------

  /** Multiplying both sides of a comparison by a positive number keeps a gap of at least that number. */
  lemma {:induction false} ScaleInt(a: int, b: int, k: int)
    requires k > 0
    ensures a < b ==> a * k + k <= b * k
    ensures a <= b ==> a * k <= b * k
    ensures a == b ==> a * k == b * k
  {
    if a < b {
      MulMonotone(a + 1, b, k);
      assert (a + 1) * k == a * k + k;
    }
  }

  lemma MulMonotone(a: int, b: int, k: int)
    requires a <= b && k >= 0
    ensures a * k <= b * k
  {
  }

  lemma ScaleReal(a: real, b: real, k: real)
    requires k > 0.0
    ensures a <= b ==> a * k <= b * k
    ensures a < b ==> a * k < b * k
  {
  }

  lemma HalfUpMonotone(x: real, y: real)
    requires x <= y
    ensures HalfUp(x) <= HalfUp(y)
  {
  }

  /** Rounding a quotient keeps the order of quotients. */
  lemma DivMonotone(a: Amount, b: Amount, c: Amount, d: Amount)
    requires b > 0.0 && d > 0.0 && Times(a, d) <= Times(c, b)
    ensures Div(a, b) <= Div(c, d)
  {
    hide HalfUp;
    assert a / b <= c / d by { CrossQuotients(a, b, c, d); }
    ScaleReal(a / b, c / d, UNITS_PER_ONE as real);
    HalfUpMonotone(a / b * UNITS_PER_ONE as real, c / d * UNITS_PER_ONE as real);
  }

  lemma CrossQuotients(a: Amount, b: Amount, c: Amount, d: Amount)
    requires b > 0.0 && d > 0.0 && Times(a, d) <= Times(c, b)
    ensures a / b <= c / d
  {
    var x, y := a / b, c / d;
    assert a == x * b && c == y * d;
    assert Times(a, d) == x * (b * d) && Times(c, b) == y * (b * d);
    if x > y {
      ScaleReal(y, x, b * d);
    }
  }

  lemma Regroup(a: int, k: int)
    ensures (a * UNITS_PER_ONE) * k == (a * k) * UNITS_PER_ONE
  {
  }

  lemma RealProduct(a: int, b: int)
    ensures (a * b) as real == a as real * b as real
  {
  }

  lemma IntFloor(x: real, k: int)
    requires k as real <= x < k as real + 1.0
    ensures x.Floor == k
  {
  }

  /** Undoing the division under the scaling to 40 places. */
  lemma {:induction false} RoundedTimes(q: real, x: real, y: real)
    requires q * y == x
    ensures Times(q * UNITS_PER_ONE as real + 0.5, y) == x * UNITS_PER_ONE as real + 0.5 * y
  {
  }

  /** The numerator of `Div` over 10^40, bracketed without any division. */
  lemma {:induction false} DivBracket(x: int, y: int) returns (n: int)
    requires x >= 0 && y > 0
    ensures Div(x as real, y as real) == n as real / UNITS_PER_ONE as real
    ensures 2 * (n * y) <= 2 * x * UNITS_PER_ONE + y < 2 * (n * y) + 2 * y
  {
    var q := x as real / y as real;
    n := HalfUp(q * UNITS_PER_ONE as real);
    assert q >= 0.0 && q * y as real == x as real;
    RoundedTimes(q, x as real, y as real);
    BracketTimes(n, q * UNITS_PER_ONE as real + 0.5, x, y);
  }

  lemma {:induction false} BracketTimes(n: int, t: real, x: int, y: int)
    requires y > 0 && n as real <= t < n as real + 1.0
    requires Times(t, y as real) == x as real * UNITS_PER_ONE as real + 0.5 * y as real
    ensures 2 * (n * y) <= 2 * x * UNITS_PER_ONE + y < 2 * (n * y) + 2 * y
  {
    hide Times;
    TimesOrder(n as real, t, y as real);
    TimesOrder(t, n as real + 1.0, y as real);
    TimesOfInts(n, y);
    TimesDistributes(n as real, 1.0, y as real);
    TimesUnits(y as real);
  }

  /** Forty places never push a quotient over the next integer when the divisor is below 2 * 10^40. */
  lemma {:induction false} FloorOfDiv(x: int, y: int)
    requires x >= 0 && 0 < y < 2 * UNITS_PER_ONE
    ensures Div(x as real, y as real).Floor == x / y
  {
    var n := DivBracket(x, y);
    var q := x / y;
    var qy := q * y;
    assert qy <= x < qy + y;
    FloorFromBracket(x, y, n, q, qy);
    IntFloor(n as real / UNITS_PER_ONE as real, q);
  }

  lemma {:induction false} FloorFromBracket(x: int, y: int, n: int, q: int, qy: int)
    requires 0 < y < 2 * UNITS_PER_ONE
    requires qy == q * y && qy <= x < qy + y
    requires 2 * (n * y) <= 2 * x * UNITS_PER_ONE + y < 2 * (n * y) + 2 * y
    ensures q * UNITS_PER_ONE <= n < (q + 1) * UNITS_PER_ONE
  {
    var ny := n * y;
    ScaleInt(n, q * UNITS_PER_ONE, y);
    ScaleInt((q + 1) * UNITS_PER_ONE, n, y);
    Regroup(q, y);
    Regroup(q + 1, y);
    assert (q + 1) * y == qy + y;
  }

  /** Nor do they lose the fraction that makes a quotient round up. */
  lemma {:induction false} CeilOfDiv(x: int, y: int)
    requires x >= 0 && 0 < y <= 2 * UNITS_PER_ONE
    ensures Ceiling(Div(x as real, y as real)) == CeilQuotient(x, y)
  {
    var n := DivBracket(x, y);
    var c := CeilQuotient(x, y);
    CeilQuotientBracket(x, y);
    CeilFromBracket(x, y, n, c, c * y);
    IntFloor(-(n as real / UNITS_PER_ONE as real), -c);
  }

  lemma {:induction false} CeilFromBracket(x: int, y: int, n: int, c: int, cy: int)
    requires 0 < y <= 2 * UNITS_PER_ONE
    requires cy == c * y && cy - y < x <= cy
    requires 2 * (n * y) <= 2 * x * UNITS_PER_ONE + y < 2 * (n * y) + 2 * y
    ensures (c - 1) * UNITS_PER_ONE < n <= c * UNITS_PER_ONE
  {
    var ny := n * y;
    ScaleInt(n, (c - 1) * UNITS_PER_ONE, y);
    ScaleInt(c * UNITS_PER_ONE, n, y);
    Regroup(c, y);
    Regroup(c - 1, y);
    assert (c - 1) * y == cy - y;
  }

  lemma {:induction false} CeilQuotientBracket(x: int, y: int)
    requires y > 0
    ensures CeilQuotient(x, y) * y - y < x <= CeilQuotient(x, y) * y
  {
    var q := (-x) / y;
    assert -x == q * y + (-x) % y;
    assert CeilQuotient(x, y) * y == -(q * y);
  }

  /**
   * Forty decimals are exactly enough: flooring the rounded quotient is flooring the exact quotient
   * for every dividend if and only if the divisor stays below 2 * 10^40.
   */
  lemma {:induction false} FortyDecimalsFloor(y: int)
    requires y > 0
    ensures (forall x: int :: x >= 0 ==> Div(x as real, y as real).Floor == x / y) <==> y < 2 * UNITS_PER_ONE
  {
    if y < 2 * UNITS_PER_ONE {
      forall x: int | x >= 0
        ensures Div(x as real, y as real).Floor == x / y
      {
        FloorOfDiv(x, y);
      }
    } else {
      var x := y - 1;
      var n := DivBracket(x, y);
      ScaleInt(n, UNITS_PER_ONE, y);
      Regroup(1, y);
      assert n >= UNITS_PER_ONE;
      assert n as real / UNITS_PER_ONE as real >= 1.0;
      assert x / y == 0;
      assert Div(x as real, y as real).Floor != x / y;
    }
  }

  /** The ceiling survives for divisors up to and including 2 * 10^40, and for no larger one. */
  lemma {:induction false} FortyDecimalsCeil(y: int)
    requires y > 0
    ensures (forall x: int :: x >= 0 ==> Ceiling(Div(x as real, y as real)) == CeilQuotient(x, y))
            <==> y <= 2 * UNITS_PER_ONE
  {
    if y <= 2 * UNITS_PER_ONE {
      forall x: int | x >= 0
        ensures Ceiling(Div(x as real, y as real)) == CeilQuotient(x, y)
      {
        CeilOfDiv(x, y);
      }
    } else {
      var n := DivBracket(1, y);
      ScaleInt(0, n, y);
      ScaleInt(n, -1, y);
      assert -1 <= n <= 0;
      assert Ceiling(Div(1 as real, y as real)) <= 0;
      CeilQuotientBracket(1, y);
      assert CeilQuotient(1, y) > 0 by {
        ScaleInt(CeilQuotient(1, y), 1, y);
      }
      assert Ceiling(Div(1 as real, y as real)) != CeilQuotient(1, y);
    }
  }

  /** A rounded quotient that is an integer is the exact quotient. */
  lemma {:induction false} IntegerDivIsExact(x: int, y: int, k: int)
    requires x >= 0 && 0 < y < 2 * UNITS_PER_ONE
    requires Div(x as real, y as real) == k as real
    ensures k * y == x
  {
    var n := DivBracket(x, y);
    assert n == k * UNITS_PER_ONE;
    Regroup(k, y);
  }

  /** Conversely an exact integer quotient is returned unchanged. */
  lemma {:induction false} ExactDiv(x: int, y: int, k: int)
    requires x >= 0 && y > 0 && k * y == x
    ensures Div(x as real, y as real) == k as real
  {
    var n := DivBracket(x, y);
    Regroup(k, y);
    ScaleInt(n, k * UNITS_PER_ONE, y);
    ScaleInt(k * UNITS_PER_ONE, n, y);
    assert n == k * UNITS_PER_ONE;
  }

  // --- Products, so that proofs can keep `Times` folded ---------------------------------------

  lemma TimesDistributes(a: Amount, b: Amount, k: Amount)
    ensures Times(a + b, k) == Times(a, k) + Times(b, k)
    ensures Times(a - b, k) == Times(a, k) - Times(b, k)
    ensures Times(k, a + b) == Times(k, a) + Times(k, b)
    ensures Times(k, a - b) == Times(k, a) - Times(k, b)
  {
  }

  lemma TimesCommutes(a: Amount, b: Amount)
    ensures Times(a, b) == Times(b, a)
  {
  }

  lemma TimesUnits(k: Amount)
    ensures Times(0.0, k) == 0.0 == Times(k, 0.0)
    ensures Times(1.0, k) == k == Times(k, 1.0)
  {
  }

  lemma TimesGroups(a: Amount, b: Amount, u: Amount)
    ensures Times(Times(a, u), Times(b, u)) == Times(Times(a, b), Times(u, u))
  {
  }

  /** Multiplying by a positive number keeps and reflects the order. */
  lemma {:induction false} TimesOrder(a: Amount, b: Amount, k: Amount)
    requires k > 0.0
    ensures a < b <==> Times(a, k) < Times(b, k)
    ensures a <= b <==> Times(a, k) <= Times(b, k)
    ensures a == b <==> Times(a, k) == Times(b, k)
  {
    if a < b { ScaleReal(a, b, k); }
    if b < a { ScaleReal(b, a, k); }
  }

  lemma TimesMonotone(a: Amount, b: Amount, k: Amount)
    requires a <= b && k >= 0.0
    ensures Times(a, k) <= Times(b, k)
  {
  }

  lemma TimesSign(a: Amount, b: Amount)
    ensures a >= 0.0 && b >= 0.0 ==> Times(a, b) >= 0.0
    ensures a > 0.0 && b > 0.0 ==> Times(a, b) > 0.0
  {
  }

  lemma TimesOfInts(a: int, b: int)
    ensures Times(a as real, b as real) == (a * b) as real
  {
    RealProduct(a, b);
  }
}
