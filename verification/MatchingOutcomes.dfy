// When matching returns normally and when it throws. A buyer meeting a buyer, or a seller a seller,
// has to convert the maker's remainder at the maker's price, and only a conversion that leaves a
// fraction can throw.
module MatchingOutcomes {
  import opened BasicTypes
  import opened BigNumbers
  import opened Wrappers
  import opened Matching
  import opened MatchingProofs
  import opened MatchingRuns
  import opened MatchingFacts

  // --- Forty places, on integers --------------------------------------------------------------

  /** The nearest integer to x / y * 10^40, ties upwards. */
  function Forty(x: int, y: int): int
    requires y > 0
  {
    (2 * x * UNITS_PER_ONE + y) / (2 * y)
  }

  lemma {:induction false} FortyBracket(x: int, y: int)
    requires y > 0
    ensures 2 * (Forty(x, y) * y) <= 2 * x * UNITS_PER_ONE + y < 2 * (Forty(x, y) * y) + 2 * y
  {
    var z, w := 2 * x * UNITS_PER_ONE + y, 2 * y;
    assert z == z / w * w + z % w;
    assert Forty(x, y) * w == 2 * (Forty(x, y) * y);
  }

  lemma {:induction false} DivIsForty(x: int, y: int)
    requires x >= 0 && y > 0
    ensures Forty(x, y) >= 0
    ensures Div(x as real, y as real) == Forty(x, y) as real / UNITS_PER_ONE as real
  {
    hide Forty;
    var n := DivBracket(x, y);
    var f := Forty(x, y);
    FortyBracket(x, y);
    ScaleInt(n, f, y);
    ScaleInt(f, n, y);
    ScaleInt(f, 0, y);
  }

  lemma {:induction false} BracketOf(m: int, t: real, w: int, z: int)
    requires z > 0 && m as real <= t < m as real + 1.0
    requires Times(t, z as real) == w as real + 0.5 * z as real
    ensures 2 * (m * z) <= 2 * w + z < 2 * (m * z) + 2 * z
  {
    hide Times;
    TimesOrder(m as real, t, z as real);
    TimesOrder(t, m as real + 1.0, z as real);
    TimesOfInts(m, z);
    TimesDistributes(m as real, 1.0, z as real);
    TimesUnits(z as real);
  }

  lemma ScaledQuotient(q: real, n: real, y: real, z: real)
    requires q * z == n / UNITS_PER_ONE as real * y
    ensures Times(q * UNITS_PER_ONE as real + 0.5, z) == n * y + 0.5 * z
  {
    assert Times(q * UNITS_PER_ONE as real + 0.5, z) == q * z * UNITS_PER_ONE as real + 0.5 * z;
    assert n / UNITS_PER_ONE as real * y * UNITS_PER_ONE as real == n * y;
  }

  /** Multiplying a rounded quotient and dividing once more. */
  lemma {:induction false} DivOnceMore(n: int, y: int, z: int) returns (m: int)
    requires n >= 0 && y > 0 && z > 0
    ensures Div(Times(n as real / UNITS_PER_ONE as real, y as real), z as real) == m as real / UNITS_PER_ONE as real
    ensures 2 * (m * z) <= 2 * (n * y) + z < 2 * (m * z) + 2 * z
  {
    var x := Times(n as real / UNITS_PER_ONE as real, y as real);
    var q := x / z as real;
    m := HalfUp(q * UNITS_PER_ONE as real);
    assert x >= 0.0 && q >= 0.0 && q * z as real == x;
    ScaledQuotient(q, n as real, y as real, z as real);
    RealProduct(n, y);
    BracketOf(m, q * UNITS_PER_ONE as real + 0.5, n * y, z);
  }

  // --- Converting a remainder there and back --------------------------------------------------

  /** How far the converted remainder, times the price it was divided by, misses the remainder's worth. */
  function Excess(remaining: int, num: int, den: int): int
    requires den > 0
  {
    Forty(remaining * num, den) * den - remaining * num * UNITS_PER_ONE
  }

  /** What a buyer pays for all that a buying maker has left: one unit more when the conversion rounded far enough up. */
  function PaidForAll(remaining: int, sell: int, buy: int): int
    requires buy > 0
  {
    if 2 * Excess(remaining, sell, buy) >= sell then remaining + 1 else remaining
  }

  /** What a seller receives for all that a selling maker has left: one unit less when it rounded far enough down. */
  function ReceivedForAll(remaining: int, sell: int, buy: int): int
    requires sell > 0
  {
    if 2 * Excess(remaining, buy, sell) >= -buy then remaining else remaining - 1
  }

  lemma {:induction false} ExcessSmall(remaining: int, num: int, den: int)
    requires den > 0
    ensures -den < 2 * Excess(remaining, num, den) <= den
  {
    FortyBracket(remaining * num, den);
  }

  /** Comparing a quotient with a whole number of ones and a few units more. */
  lemma {:induction false} AgainstUnits(m: int, r: int, k: int, num: int)
    requires num > 0
    ensures m <= r * UNITS_PER_ONE + k ==> m * num <= r * num * UNITS_PER_ONE + k * num
    ensures m >= r * UNITS_PER_ONE + k ==> m * num >= r * num * UNITS_PER_ONE + k * num
  {
    Regroup(r, num);
    assert (r * UNITS_PER_ONE + k) * num == r * num * UNITS_PER_ONE + k * num;
    ScaleInt(m, r * UNITS_PER_ONE + k, num);
    ScaleInt(r * UNITS_PER_ONE + k, m, num);
  }

  /** Where the second quotient lies, by how far the first one missed. */
  lemma {:induction false} ThereAndBack(m: int, r: int, num: int, den: int, d: int)
    requires num > 0 && 0 < den <= MAX_AMOUNT && -den < 2 * d <= den
    requires 2 * (m * num) <= 2 * (r * num * UNITS_PER_ONE + d) + num < 2 * (m * num) + 2 * num
    ensures (r - 1) * UNITS_PER_ONE < m < (r + 1) * UNITS_PER_ONE
    ensures 2 * d >= num <==> r * UNITS_PER_ONE < m
    ensures 2 * d >= -num <==> r * UNITS_PER_ONE <= m
  {
    AgainstUnits(m, r, 0, num);
    AgainstUnits(m, r, 1, num);
    AgainstUnits(m, r, -1, num);
    AgainstUnits(m, r, UNITS_PER_ONE, num);
    AgainstUnits(m, r, -UNITS_PER_ONE, num);
  }

  // --- The shape of one match -----------------------------------------------------------------

  /** Apart from the integrality of its amounts, a match depends on the proposal alone. */
  lemma MatchShape(left: Quote, right: Quote)
    requires Admissible(left) && Admissible(right)
    ensures var p := ProposeSwap(left, right);
      MatchLeftRight(left, right)
      == if !WithinTakerPrice(left, p) then Success(NO_SWAP)
         else if !IsInteger(p.fromRight) then Failure(FractionalFromRight)
         else if !IsInteger(p.fromLeft) then Failure(FractionalFromLeft)
         else Success(p)
  {
    hide Representable, ProposeSwap;
    var p := ProposeSwap(left, right);
    assert IsInteger(0.0);
    forall n: Amount | n in {left.buy, left.sell, left.remaining, right.buy, right.sell, right.remaining,
                             p.fromLeft, p.fromRight, 0.0}
      ensures Representable(n, TOKEN_DECIMALS) <==> IsInteger(n)
    {
      RepresentableIsInteger(n);
    }
  }

  /** The integrality of the six amounts is the first thing looked at. */
  lemma NonIntegerIff(left: Quote, right: Quote)
    ensures MatchLeftRight(left, right) == Failure(NonIntegerAmount)
            <==> !(forall n :: n in [left.buy, left.sell, left.remaining, right.buy, right.sell, right.remaining] ==> IsInteger(n))
  {
    hide Representable, ProposeSwap, IsInteger, Times;
    var amounts := [left.buy, left.sell, left.remaining, right.buy, right.sell, right.remaining];
    forall n | n in amounts
      ensures Representable(n, TOKEN_DECIMALS) <==> IsInteger(n)
    {
      RepresentableIsInteger(n);
    }
    assert amounts[0] in amounts && amounts[1] in amounts && amounts[2] in amounts;
    assert amounts[3] in amounts && amounts[4] in amounts && amounts[5] in amounts;
  }

  /** The side that is computed from the other is always an integer, and so is the other unless intents are equal. */
  lemma OppositeProposalIsInteger(left: Quote, right: Quote)
    requires Admissible(left) && Admissible(right) && left.intent != right.intent
    ensures IsInteger(ProposeSwap(left, right).fromLeft) && IsInteger(ProposeSwap(left, right).fromRight)
  {
    hide Div, Times, Floor, Ceil;
    var p := ProposeSwap(left, right);
    RepresentableIsInteger(MulByPrice(p.fromRight, right));
    RepresentableIsInteger(DivByPrice(p.fromLeft, right));
  }

  // --- Equal intents --------------------------------------------------------------------------

  /** The maker's remainder, divided by its price, is less than the taker wants and leaves a fraction. */
  predicate FractionTaken(wanted: int, remaining: int, num: int, den: int)
    requires den > 0
  {
    remaining * num < wanted * den && (remaining * num) % den != 0
  }

  /** A buyer meets a buyer whose remainder converts to a smaller, fractional amount within the taker's price. */
  predicate StuckBuying(left: Quote, right: Quote)
    requires Admissible(right)
  {
    var remaining, sell, buy := right.remaining.Floor, right.sell.Floor, right.buy.Floor;
    && left.intent.BuyAll? && right.intent.BuyAll?
    && FractionTaken(left.remaining.Floor, remaining, sell, buy)
    && left.sell.Floor * Forty(remaining * sell, buy) >= left.buy.Floor * PaidForAll(remaining, sell, buy) * UNITS_PER_ONE
  }

  /** A seller meets a seller whose remainder converts to a smaller, fractional amount within the taker's price. */
  predicate StuckSelling(left: Quote, right: Quote)
    requires Admissible(right)
  {
    var remaining, sell, buy := right.remaining.Floor, right.sell.Floor, right.buy.Floor;
    && left.intent.SellAll? && right.intent.SellAll?
    && FractionTaken(left.remaining.Floor, remaining, buy, sell)
    && left.sell.Floor * ReceivedForAll(remaining, sell, buy) * UNITS_PER_ONE >= left.buy.Floor * Forty(remaining * buy, sell)
  }

  lemma {:induction false} ExactRemainder(x: int, y: int, k: int)
    requires y > 0 && k * y == x
    ensures x % y == 0
  {
    var q, r := x / y, x % y;
    assert x == q * y + r;
    ScaleInt(q, k, y);
    ScaleInt(k, q, y);
  }

  /** A rounded quotient is an integer exactly when the division leaves nothing. */
  lemma {:induction false} IntegerIffDivides(x: int, y: int)
    requires x >= 0 && 0 < y <= MAX_AMOUNT
    ensures IsInteger(Div(x as real, y as real)) <==> x % y == 0
  {
    hide Div;
    if IsInteger(Div(x as real, y as real)) {
      IntegerDivIsExact(x, y, Div(x as real, y as real).Floor);
      ExactRemainder(x, y, Div(x as real, y as real).Floor);
    }
    if x % y == 0 {
      assert x / y * y == x;
      ExactDiv(x, y, x / y);
      assert ((x / y) as real).Floor == x / y;
    }
  }

  lemma IntegerProductSign(a: int, b: int)
    requires a >= 0 && b > 0
    ensures a * b >= 0
  {
  }

  /** The converted remainder: whether it is what the proposal takes, and whether it is an integer. */
  lemma {:induction false} Converted(wanted: int, remaining: int, num: int, den: int)
    requires remaining >= 0 && num > 0 && 0 < den <= MAX_AMOUNT
    ensures var available := Div(Times(remaining as real, num as real), den as real);
      && available == Forty(remaining * num, den) as real / UNITS_PER_ONE as real
      && (FractionTaken(wanted, remaining, num, den) <==> available < wanted as real && !IsInteger(available))
  {
    hide Div, Times, Forty, IsInteger;
    IntegerProductSign(remaining, num);
    TimesOfInts(remaining, num);
    DivIsForty(remaining * num, den);
    IntegerIffDivides(remaining * num, den);
    AllIntegers(wanted, remaining, num, den);
    Convertible(remaining as real, num as real, den as real, wanted as real);
    TimesOfInts(wanted, den);
  }

  lemma AllIntegers(a: int, b: int, c: int, d: int)
    ensures IsInteger(a as real) && IsInteger(b as real) && IsInteger(c as real) && IsInteger(d as real)
  {
  }

  lemma {:induction false} PaidForFraction(remaining: int, sell: int, buy: int)
    requires remaining >= 0 && sell > 0 && 0 < buy <= MAX_AMOUNT
    ensures Ceil(Div(Times(Forty(remaining * sell, buy) as real / UNITS_PER_ONE as real, buy as real), sell as real), TOKEN_DECIMALS)
            == PaidForAll(remaining, sell, buy) as real
  {
    hide Div, Times, Forty, Ceil, Floor;
    var n, d := Forty(remaining * sell, buy), Excess(remaining, sell, buy);
    DivIsForty(remaining * sell, buy) by { assert remaining * sell >= 0; }
    ExcessSmall(remaining, sell, buy);
    var m := DivOnceMore(n, buy, sell);
    ThereAndBack(m, remaining, sell, buy, d);
    var a := PaidForAll(remaining, sell, buy);
    RepresentableIsInteger(m as real / UNITS_PER_ONE as real);
    assert (a - 1) * UNITS_PER_ONE < m <= a * UNITS_PER_ONE;
    IntFloor(-(m as real / UNITS_PER_ONE as real), -a);
  }

  lemma {:induction false} ReceivedForFraction(remaining: int, sell: int, buy: int)
    requires remaining >= 0 && buy > 0 && 0 < sell <= MAX_AMOUNT
    ensures Floor(Div(Times(Forty(remaining * buy, sell) as real / UNITS_PER_ONE as real, sell as real), buy as real), TOKEN_DECIMALS)
            == ReceivedForAll(remaining, sell, buy) as real
  {
    hide Div, Times, Forty, Ceil, Floor;
    var n, d := Forty(remaining * buy, sell), Excess(remaining, buy, sell);
    DivIsForty(remaining * buy, sell) by { assert remaining * buy >= 0; }
    ExcessSmall(remaining, buy, sell);
    var m := DivOnceMore(n, sell, buy);
    ThereAndBack(m, remaining, buy, sell, d);
    var b := ReceivedForAll(remaining, sell, buy);
    RepresentableIsInteger(m as real / UNITS_PER_ONE as real);
    assert b * UNITS_PER_ONE <= m < (b + 1) * UNITS_PER_ONE;
    IntFloor(m as real / UNITS_PER_ONE as real, b);
  }

  lemma PriceInUnits(a: int, n: int, b: int, c: int)
    ensures Times(a as real, n as real / UNITS_PER_ONE as real) < Times(b as real, c as real) <==> a * n < b * c * UNITS_PER_ONE
    ensures Times(b as real, c as real) < Times(a as real, n as real / UNITS_PER_ONE as real) <==> b * c * UNITS_PER_ONE < a * n
  {
    RealProduct(a, n);
    RealProduct(b, c);
    assert Times(a as real, n as real / UNITS_PER_ONE as real) == (a * n) as real / UNITS_PER_ONE as real;
  }

  lemma {:induction false} BuyersOutcome(left: Quote, right: Quote)
    requires Admissible(left) && Admissible(right) && left.intent.BuyAll? && right.intent.BuyAll?
    ensures MatchLeftRight(left, right).Success? || MatchLeftRight(left, right) == Failure(FractionalFromRight)
    ensures MatchLeftRight(left, right).Success? <==> !StuckBuying(left, right)
  {
    hide Div, Times, Floor, Ceil, MatchLeftRight, Forty, FractionTaken, PaidForAll;
    MatchShape(left, right);
    var p := ProposeSwap(left, right);
    var r, s, b := right.remaining.Floor, right.sell.Floor, right.buy.Floor;
    Converted(left.remaining.Floor, r, s, b);
    RepresentableIsInteger(MulByPrice(p.fromRight, right));
    if FractionTaken(left.remaining.Floor, r, s, b) {
      PaidForFraction(r, s, b);
      PriceInUnits(left.sell.Floor, Forty(r * s, b), PaidForAll(r, s, b), left.buy.Floor);
      assert left.buy.Floor * PaidForAll(r, s, b) == PaidForAll(r, s, b) * left.buy.Floor;
    }
  }

  lemma {:induction false} SellersOutcome(left: Quote, right: Quote)
    requires Admissible(left) && Admissible(right) && left.intent.SellAll? && right.intent.SellAll?
    ensures MatchLeftRight(left, right).Success? || MatchLeftRight(left, right) == Failure(FractionalFromLeft)
    ensures MatchLeftRight(left, right).Success? <==> !StuckSelling(left, right)
  {
    hide Div, Times, Floor, Ceil, MatchLeftRight, Forty, FractionTaken, ReceivedForAll;
    MatchShape(left, right);
    var p := ProposeSwap(left, right);
    var r, s, b := right.remaining.Floor, right.sell.Floor, right.buy.Floor;
    Converted(left.remaining.Floor, r, b, s);
    RepresentableIsInteger(DivByPrice(p.fromLeft, right));
    if FractionTaken(left.remaining.Floor, r, b, s) {
      ReceivedForFraction(r, s, b);
      PriceInUnits(left.buy.Floor, Forty(r * b, s), left.sell.Floor, ReceivedForAll(r, s, b));
      TimesCommutes(p.fromLeft, left.buy);
    }
  }

  // --- Every outcome --------------------------------------------------------------------------

  /**
   * Two integer quotes inside the supply limit match normally unless they have equal intents and get
   * stuck on a fraction: what is left of the maker, at its own price, is the smaller amount, is no
   * integer, and would not break the taker's price. Quotes of opposite intents always match normally.
   */
  lemma {:induction false} MatchFailsIff(left: Quote, right: Quote)
    requires Admissible(left) && Admissible(right)
    ensures MatchLeftRight(left, right) == Failure(FractionalFromRight) <==> StuckBuying(left, right)
    ensures MatchLeftRight(left, right) == Failure(FractionalFromLeft) <==> StuckSelling(left, right)
    ensures MatchLeftRight(left, right).Success? <==> !StuckBuying(left, right) && !StuckSelling(left, right)
    ensures left.intent != right.intent ==> MatchLeftRight(left, right).Success?
  {
    hide MatchLeftRight, FractionTaken, Forty, PaidForAll, ReceivedForAll;
    match (left.intent, right.intent) {
      case (BuyAll, BuyAll) => BuyersOutcome(left, right);
      case (SellAll, SellAll) => SellersOutcome(left, right);
      case _ =>
        MatchShape(left, right);
        OppositeProposalIsInteger(left, right);
    }
  }

  /** A match that returns normally is the fair swap if there is one, and the empty swap exactly when there is none. */
  lemma {:induction false} EmptyIffNoFairSwap(left: Quote, right: Quote)
    requires Admissible(left) && Admissible(right)
    requires left.intent != right.intent || (!StuckBuying(left, right) && !StuckSelling(left, right))
    ensures MatchLeftRight(left, right).Success?
    ensures MatchLeftRight(left, right) == Success(NO_SWAP) <==> !exists s :: FairSwap(1.0, left, right, s)
    ensures forall s :: FairSwap(1.0, left, right, s) ==> MatchLeftRight(left, right) == Success(s)
  {
    hide MatchLeftRight, StuckBuying, StuckSelling, AtMakerPrice, WithinRemainders, WithinTakerPrice, ExhaustsMaker, WholeUnits;
    MatchFailsIff(left, right);
    forall s | FairSwap(1.0, left, right, s)
      ensures MatchLeftRight(left, right) == Success(s)
    {
      MatchIffFair(left, right, s);
    }
    var s := MatchLeftRight(left, right).value;
    if s != NO_SWAP {
      MatchIffFair(left, right, s);
    }
  }

  // --- Whole runs -----------------------------------------------------------------------------

  predicate Stuck(left: Quote, right: Quote)
    requires Admissible(right)
  {
    StuckBuying(left, right) || StuckSelling(left, right)
  }

  /** What a maker settles on: the fair swap, or nothing where there is none. */
  ghost predicate SettlesOn(left: Quote, right: Quote, swap: Swap) {
    FairSwap(1.0, left, right, swap) || (swap == NO_SWAP && !exists s :: FairSwap(1.0, left, right, s))
  }

  /** After settling with the makers before it, the taker still wants something and gets stuck with the next one. */
  ghost predicate StuckAfter(left: Quote, rights: seq<Quote>, settled: seq<Swap>)
    requires forall right :: right in rights ==> Admissible(right)
    decreases |settled|
  {
    && rights != [] && left.remaining > 0.0
    && if settled == [] then Stuck(left, rights[0])
       else SettlesOn(left, rights[0], settled[0]) && StuckAfter(After(left, settled[0]), rights[1..], settled[1..])
  }

  lemma {:induction false} AfterIsAdmissible(left: Quote, right: Quote, swap: Swap)
    requires Admissible(left) && SettlesOn(left, right, swap)
    ensures Admissible(After(left, swap))
  {
    hide AtMakerPrice, WithinTakerPrice, ExhaustsMaker, Times, WholeUnits;
    if swap != NO_SWAP {
      UnitIsOne(swap.fromLeft);
      UnitIsOne(swap.fromRight);
      var k := left.remaining.Floor - Filled(left.intent, swap).Floor;
      assert After(left, swap).remaining == k as real;
    }
  }

  /** Returning normally is settling. */
  lemma {:induction false} MatchSettles(left: Quote, right: Quote)
    requires Admissible(left) && Admissible(right)
    ensures MatchLeftRight(left, right).Success? <==> !Stuck(left, right)
    ensures MatchLeftRight(left, right).Success? ==> SettlesOn(left, right, MatchLeftRight(left, right).value)
    ensures forall swap :: SettlesOn(left, right, swap) ==> Stuck(left, right) || MatchLeftRight(left, right) == Success(swap)
  {
    hide MatchLeftRight, StuckBuying, StuckSelling, FairSwap, Admissible;
    MatchFailsIff(left, right);
    if !Stuck(left, right) {
      EmptyIffNoFairSwap(left, right);
      var s := MatchLeftRight(left, right).value;
      if s != NO_SWAP {
        MatchIffFair(left, right, s);
      }
    }
  }

  /** A run over makers throws if and only if the taker gets stuck with one of them after settling with those before. */
  lemma {:induction false} RunFailsIff(left: Quote, rights: seq<Quote>)
    requires Admissible(left) && forall right :: right in rights ==> Admissible(right)
    ensures RawSwaps(left, rights).Failure? <==> exists settled :: StuckAfter(left, rights, settled)
    decreases |rights|
  {
    hide MatchLeftRight, Stuck, SettlesOn, Admissible;
    if rights != [] && left.remaining > 0.0 {
      var right := rights[0];
      MatchSettles(left, right);
      if Stuck(left, right) {
        assert StuckAfter(left, rights, []);
      } else {
        var swap := MatchLeftRight(left, right).value;
        AfterIsAdmissible(left, right, swap);
        RunFailsIff(After(left, swap), rights[1..]);
        StuckLater(left, rights, swap);
      }
    }
  }

  lemma {:induction false} StuckLater(left: Quote, rights: seq<Quote>, swap: Swap)
    requires rights != [] && left.remaining > 0.0 && forall right :: right in rights ==> Admissible(right)
    requires !Stuck(left, rights[0]) && SettlesOn(left, rights[0], swap)
    requires forall other :: SettlesOn(left, rights[0], other) ==> other == swap
    ensures (exists settled :: StuckAfter(left, rights, settled))
            <==> exists settled :: StuckAfter(After(left, swap), rights[1..], settled)
  {
    hide Stuck, SettlesOn, Admissible;
    if settled :| StuckAfter(left, rights, settled) {
      assert StuckAfter(After(left, swap), rights[1..], settled[1..]);
    }
    if settled :| StuckAfter(After(left, swap), rights[1..], settled) {
      var all := [swap] + settled;
      assert all[1..] == settled;
      assert StuckAfter(left, rights, all);
    }
  }

  /** Makers of the opposite intent never make a run throw. */
  lemma {:induction false} OppositeMakersNeverFail(left: Quote, rights: seq<Quote>)
    requires Admissible(left)
    requires forall right :: right in rights ==> Admissible(right) && right.intent != left.intent
    ensures RawSwaps(left, rights).Success?
  {
    hide Admissible, SettlesOn;
    RunFailsIff(left, rights);
    if settled :| StuckAfter(left, rights, settled) {
      NeverStuck(left, rights, settled);
      assert false;
    }
  }

  lemma {:induction false} NeverStuck(left: Quote, rights: seq<Quote>, settled: seq<Swap>)
    requires forall right :: right in rights ==> Admissible(right) && right.intent != left.intent
    ensures !StuckAfter(left, rights, settled)
    decreases |settled|
  {
    hide Admissible, SettlesOn;
    if rights != [] && settled != [] {
      NeverStuck(After(left, settled[0]), rights[1..], settled[1..]);
    }
  }

  // --- Trades ---------------------------------------------------------------------------------

  /** Amounts on the exchange's precision and inside the supply limit. */
  predicate OnPrecision(p: Quote, decimalPlaces: int) {
    && WithinSupply(p)
    && WholeUnits(p.buy, Unit(decimalPlaces)) && WholeUnits(p.sell, Unit(decimalPlaces))
    && WholeUnits(p.remaining, Unit(decimalPlaces))
  }

  lemma {:induction false} OnPrecisionIsAdmissible(p: Quote, decimalPlaces: int)
    requires decimalPlaces <= TOKEN_DECIMALS && OnPrecision(p, decimalPlaces)
    ensures Admissible(ToMatchUnit(p, decimalPlaces)) && Admissible(Fresh(ToMatchUnit(p, decimalPlaces)))
  {
    hide ShiftedBy;
    UnitShrinks(p, decimalPlaces);
    ShiftIsScale(p.buy, decimalPlaces);
    ShiftIsScale(p.sell, decimalPlaces);
    ShiftIsScale(p.remaining, decimalPlaces);
  }

  /**
   * Creating trades for a taker throws if and only if it gets stuck on the way through its sorted makers,
   * amounts being counted in the exchange's units. With makers of the opposite intent it never throws.
   */
  lemma {:induction false} CreateTradesFailsIff(left: Quote, rights: seq<Quote>, decimalPlaces: int)
    requires decimalPlaces <= TOKEN_DECIMALS
    requires OnPrecision(left, decimalPlaces) && forall right :: right in rights ==> OnPrecision(right, decimalPlaces)
    ensures var small := AllToMatchUnit(SortQuotes(Filter(left, rights)), decimalPlaces);
      && (forall right :: right in small ==> Admissible(right))
      && (CreateTrades(left, rights, decimalPlaces).Failure?
          <==> exists settled :: StuckAfter(Fresh(ToMatchUnit(left, decimalPlaces)), small, settled))
    ensures (forall right :: right in rights ==> right.intent != left.intent) ==> CreateTrades(left, rights, decimalPlaces).Success?
  {
    hide OnPrecision, Admissible, RawSwaps, SortQuotes, Filter, StuckAfter, Selected, NotAfter, ShiftedBy;
    var sorted := SortQuotes(Filter(left, rights));
    var small, taker := AllToMatchUnit(sorted, decimalPlaces), Fresh(ToMatchUnit(left, decimalPlaces));
    MakersBestFirst(left, rights);
    OnPrecisionIsAdmissible(left, decimalPlaces);
    forall right | right in small
      ensures Admissible(right) && exists q :: q in rights && right.intent == q.intent
    {
      var i :| 0 <= i < |small| && right == small[i];
      assert sorted[i] in sorted;
      OnPrecisionIsAdmissible(sorted[i], decimalPlaces);
    }
    RunFailsIff(taker, small);
    if forall right :: right in rights ==> right.intent != left.intent {
      OppositeMakersNeverFail(taker, small);
    }
  }

  // --- Examples -------------------------------------------------------------------------------

  /**
   * A taker that buys 2 for at most 3 is offered half of what it wants at 3 for 2. That costs 2, more than it
   * would pay for one, so nothing is traded and matching goes on to the next maker.
   */
  lemma {:induction false} DearOfferIsPassedOver()
    ensures MatchLeftRight(MatchParams("taker", "alice", 0, BuyAll, ETH, 2.0, USD, 3.0, 2.0, 9),
                           MatchParams("maker", "bob", 0, SellAll, USD, 3.0, ETH, 2.0, 1.0, 1)) == Success(NO_SWAP)
  {
    hide Div, Floor, Ceil, MatchLeftRight;
    var left: Quote := MatchParams("taker", "alice", 0, BuyAll, ETH, 2.0, USD, 3.0, 2.0, 9);
    var right: Quote := MatchParams("maker", "bob", 0, SellAll, USD, 3.0, ETH, 2.0, 1.0, 1);
    MatchShape(left, right);
    var a := RoundedUp(1.0, 3.0, 2.0);
    assert a == 2;
    assert ProposeSwap(left, right) == Swap(2.0, 1.0);
  }

  /** A buyer meets a buyer that gives 1 for 3 and has 1 left to buy: a third of a unit, and matching throws. */
  lemma {:induction false} ThirdIsStuck()
    ensures MatchLeftRight(MatchParams("taker", "alice", 0, BuyAll, ETH, 1.0, USD, 10.0, 1.0, 9),
                           MatchParams("maker", "bob", 0, BuyAll, USD, 3.0, ETH, 1.0, 1.0, 1)) == Failure(FractionalFromRight)
  {
    hide MatchLeftRight;
    var left: Quote := MatchParams("taker", "alice", 0, BuyAll, ETH, 1.0, USD, 10.0, 1.0, 9);
    var right: Quote := MatchParams("maker", "bob", 0, BuyAll, USD, 3.0, ETH, 1.0, 1.0, 1);
    MatchFailsIff(left, right);
    assert StuckBuying(left, right);
  }
}
