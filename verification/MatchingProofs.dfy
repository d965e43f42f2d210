// What a swap is allowed to be, stated without rounding functions, and the proof that matching
// returns exactly such swaps.
module MatchingProofs {
  import opened BasicTypes
  import opened BigNumbers
  import opened Wrappers
  import opened Matching

  /** `n` is a whole number of units of size `u`. */
  predicate WholeUnits(n: Amount, u: Amount)
    requires u > 0.0
  {
    IsInteger(n / u)
  }

  /** The maker's limit price, met to within one unit in the direction that favours the maker. */
  predicate AtMakerPrice(u: Amount, left: Quote, right: Quote, s: Swap) {
    if left.intent.BuyAll? then
      Times(s.fromLeft - u, right.sell) < Times(s.fromRight, right.buy) <= Times(s.fromLeft, right.sell)
    else
      Times(s.fromRight, right.buy) <= Times(s.fromLeft, right.sell) < Times(s.fromRight + u, right.buy)
  }

  predicate WithinTakerPrice(left: Quote, s: Swap) {
    Times(s.fromLeft, left.buy) <= Times(left.sell, s.fromRight)
  }

  /** The part of a swap that counts against a maker's remainder. */
  function MakerFilled(intent: Intent, swap: Swap): Amount {
    if intent.BuyAll? then swap.fromLeft else swap.fromRight
  }

  /** With equal intents the maker's remainder counts at its own exact price. */
  predicate WithinRemainders(left: Quote, right: Quote, s: Swap) {
    && Filled(left.intent, s) <= left.remaining
    && match (left.intent, right.intent)
       case (BuyAll, BuyAll) => Times(s.fromRight, right.buy) <= Times(right.remaining, right.sell)
       case (SellAll, SellAll) => Times(s.fromLeft, right.sell) <= Times(right.remaining, right.buy)
       case _ => MakerFilled(right.intent, s) <= right.remaining
  }

  predicate ExhaustsTaker(left: Quote, s: Swap) {
    Filled(left.intent, s) == left.remaining
  }

  /** The maker's remainder is used up; with equal intents it converts without a fraction. */
  predicate ExhaustsMaker(left: Quote, right: Quote, s: Swap) {
    match (left.intent, right.intent)
    case (BuyAll, BuyAll) => Times(s.fromRight, right.buy) == Times(right.remaining, right.sell)
    case (SellAll, SellAll) => Times(s.fromLeft, right.sell) == Times(right.remaining, right.buy)
    case _ => MakerFilled(right.intent, s) == right.remaining
  }

  /** The one swap that two quotes should settle on, in units of size `u`. */
  predicate FairSwap(u: Amount, left: Quote, right: Quote, s: Swap)
    requires u > 0.0
  {
    && Positive(s)
    && WholeUnits(s.fromLeft, u) && WholeUnits(s.fromRight, u)
    && AtMakerPrice(u, left, right, s)
    && WithinTakerPrice(left, s)
    && WithinRemainders(left, right, s)
    && (ExhaustsTaker(left, s) || ExhaustsMaker(left, right, s))
  }

  /** Integer amounts inside the supply that order validation allows. */
  predicate Admissible(p: MatchParams) {
    && IsInteger(p.buy) && IsInteger(p.sell) && IsInteger(p.remaining)
    && p.buy <= MAX_AMOUNT as real && p.sell <= MAX_AMOUNT as real
    && p.remaining >= 0.0
  }

  // --- Rounding at the maker's price ----------------------------------------------------------

  lemma ShiftByZero(n: Amount)
    ensures ShiftedBy(n, 0) == n
  {
    assert Pow10(0) == 1;
  }

  lemma RepresentableIsInteger(n: Amount)
    ensures Representable(n, TOKEN_DECIMALS) <==> IsInteger(n)
    ensures Floor(n, TOKEN_DECIMALS) == n.Floor as real
    ensures Ceil(n, TOKEN_DECIMALS) == Ceiling(n) as real
  {
    ShiftByZero(n);
    ShiftByZero(n.Floor as real);
    ShiftByZero(Ceiling(n) as real);
  }

  /** A product of integers, as an integer. */
  lemma {:induction false} IntegerProduct(n: Amount, num: Amount) returns (x: int)
    requires IsInteger(n) && IsInteger(num) && n >= 0.0 && num > 0.0
    ensures x >= 0 && x as real == Times(n, num)
  {
    x := n.Floor * num.Floor;
    TimesOfInts(n.Floor, num.Floor);
    TimesSign(n, num);
  }

  lemma {:induction false} RoundedUpInts(x: int, y: int) returns (a: int)
    requires x >= 0 && 0 < y <= MAX_AMOUNT
    ensures Ceil(Div(x as real, y as real), TOKEN_DECIMALS) == a as real
    ensures Times(a as real - 1.0, y as real) < x as real <= Times(a as real, y as real)
  {
    hide Div, Floor, Ceil, Times;
    a := CeilQuotient(x, y);
    CeilOfDiv(x, y);
    RepresentableIsInteger(Div(x as real, y as real));
    CeilQuotientBracket(x, y);
    TimesOfInts(a, y);
    TimesDistributes(a as real, 1.0, y as real);
    TimesUnits(y as real);
  }

  /** Rounding `n * num / den` up gives the least integer whose product with `den` reaches `n * num`. */
  lemma {:induction false} RoundedUp(n: Amount, num: Amount, den: Amount) returns (a: int)
    requires IsInteger(n) && IsInteger(num) && IsInteger(den)
    requires n >= 0.0 && num > 0.0 && 0.0 < den <= MAX_AMOUNT as real
    ensures Ceil(Div(Times(n, num), den), TOKEN_DECIMALS) == a as real
    ensures Times(a as real - 1.0, den) < Times(n, num) <= Times(a as real, den)
  {
    hide Div, Floor, Ceil, Times;
    var x := IntegerProduct(n, num);
    a := RoundedUpInts(x, den.Floor);
  }

  lemma {:induction false} RoundedDownInts(x: int, y: int) returns (b: int)
    requires x >= 0 && 0 < y <= MAX_AMOUNT
    ensures b >= 0 && Div(x as real, y as real).Floor == b
    ensures Floor(Div(x as real, y as real), TOKEN_DECIMALS) == b as real
    ensures Times(b as real, y as real) <= x as real < Times(b as real + 1.0, y as real)
  {
    hide Div, Floor, Ceil, Times;
    b := x / y;
    FloorOfDiv(x, y);
    RepresentableIsInteger(Div(x as real, y as real));
    assert b * y <= x < b * y + y;
    TimesOfInts(b, y);
    TimesDistributes(b as real, 1.0, y as real);
    TimesUnits(y as real);
  }

  /** Rounding down gives the greatest integer whose product with `den` stays below. */
  lemma {:induction false} RoundedDown(n: Amount, num: Amount, den: Amount) returns (b: int)
    requires IsInteger(n) && IsInteger(num) && IsInteger(den)
    requires n >= 0.0 && num > 0.0 && 0.0 < den <= MAX_AMOUNT as real
    ensures b >= 0 && Div(Times(n, num), den).Floor == b
    ensures Floor(Div(Times(n, num), den), TOKEN_DECIMALS) == b as real
    ensures Times(b as real, den) <= Times(n, num) < Times(b as real + 1.0, den)
  {
    hide Div, Floor, Ceil, Times;
    var x := IntegerProduct(n, num);
    b := RoundedDownInts(x, den.Floor);
  }

  /** Integers less than one apart are equal. */
  lemma CloseIntegers(a: real, b: real)
    requires IsInteger(a) && IsInteger(b) && a - 1.0 < b < a + 1.0
    ensures a == b
  {
    assert a.Floor == b.Floor;
  }

  /** An integer rounded quotient is exact. */
  lemma {:induction false} ExactWhenInteger(n: Amount, num: Amount, den: Amount)
    requires IsInteger(n) && IsInteger(num) && IsInteger(den)
    requires n >= 0.0 && num > 0.0 && 0.0 < den <= MAX_AMOUNT as real
    requires IsInteger(Div(Times(n, num), den))
    ensures Times(Div(Times(n, num), den), den) == Times(n, num)
  {
    hide Div, Times;
    var x := IntegerProduct(n, num);
    var k := Div(Times(n, num), den).Floor;
    IntegerDivIsExact(x, den.Floor, k);
    TimesOfInts(k, den.Floor);
  }

  lemma {:induction false} IntegerWhenExact(n: Amount, num: Amount, den: Amount, k: Amount)
    requires IsInteger(n) && IsInteger(num) && IsInteger(den) && IsInteger(k)
    requires n >= 0.0 && num > 0.0 && 0.0 < den <= MAX_AMOUNT as real
    requires Times(k, den) == Times(n, num)
    ensures Div(Times(n, num), den) == k
  {
    hide Div, Times;
    var x := IntegerProduct(n, num);
    TimesOfInts(k.Floor, den.Floor);
    ExactDiv(x, den.Floor, k.Floor);
  }

  // --- One swap -------------------------------------------------------------------------------

  lemma UnitIsOne(n: Amount)
    ensures WholeUnits(n, 1.0) <==> IsInteger(n)
  {
    assert n / 1.0 == n;
  }

  /** What the maker can give, at its exact price, for its remainder. */
  lemma {:induction false} Convertible(n: Amount, num: Amount, den: Amount, taken: Amount)
    requires IsInteger(n) && IsInteger(num) && IsInteger(den) && IsInteger(taken)
    requires n >= 0.0 && num > 0.0 && 0.0 < den <= MAX_AMOUNT as real
    ensures Div(Times(n, num), den) >= 0.0
    ensures taken <= Div(Times(n, num), den) <==> Times(taken, den) <= Times(n, num)
  {
    hide Div, Times;
    var f := RoundedDown(n, num, den);
    TimesOrder(taken, f as real, den);
    TimesOrder(taken, f as real + 1.0, den);
    if taken < f as real + 1.0 {
      assert taken.Floor <= f;
    }
  }

  /** A taker that buys pays the maker's price rounded up, and stays inside the maker's remainder. */
  lemma {:induction false} ProposedBuy(left: Quote, right: Quote)
    requires Admissible(left) && Admissible(right) && left.intent.BuyAll?
    requires IsInteger(ProposeSwap(left, right).fromRight)
    ensures var s := ProposeSwap(left, right);
      && s.fromRight >= 0.0 && IsInteger(s.fromLeft)
      && AtMakerPrice(1.0, left, right, s)
      && WithinRemainders(left, right, s)
      && (ExhaustsTaker(left, s) || ExhaustsMaker(left, right, s))
  {
    hide Div, Floor, Ceil, Times;
    var s := ProposeSwap(left, right);
    if right.intent.BuyAll? {
      var available := DivByPrice(right.remaining, right);
      Convertible(right.remaining, right.sell, right.buy, s.fromRight);
      if s.fromRight == available {
        ExactWhenInteger(right.remaining, right.sell, right.buy);
      }
    }
    var a := RoundedUp(s.fromRight, right.buy, right.sell);
  }

  /** A taker that sells receives the maker's price rounded down. */
  lemma {:induction false} ProposedSell(left: Quote, right: Quote)
    requires Admissible(left) && Admissible(right) && left.intent.SellAll?
    requires IsInteger(ProposeSwap(left, right).fromLeft)
    ensures var s := ProposeSwap(left, right);
      && s.fromLeft >= 0.0 && s.fromRight >= 0.0 && IsInteger(s.fromRight)
      && AtMakerPrice(1.0, left, right, s)
      && WithinRemainders(left, right, s)
      && (ExhaustsTaker(left, s) || ExhaustsMaker(left, right, s))
  {
    hide Div, Floor, Ceil, Times;
    var s := ProposeSwap(left, right);
    if right.intent.SellAll? {
      var available := MulByPrice(right.remaining, right);
      Convertible(right.remaining, right.buy, right.sell, s.fromLeft);
      if s.fromLeft == available {
        ExactWhenInteger(right.remaining, right.buy, right.sell);
      }
    }
    var b := RoundedDown(s.fromLeft, right.sell, right.buy);
  }

  /** The sides of a proposal that was returned are integers. */
  lemma ReturnedIsProposed(left: Quote, right: Quote, s: Swap)
    requires MatchLeftRight(left, right) == Success(s) && s != NO_SWAP
    ensures s == ProposeSwap(left, right) && WithinTakerPrice(left, s)
    ensures IsInteger(s.fromLeft) && IsInteger(s.fromRight)
  {
    hide Div, Floor, Ceil, Times, Representable;
    RepresentableIsInteger(s.fromLeft);
    RepresentableIsInteger(s.fromRight);
  }

  /** At integer amounts one side of a returned swap is zero only when both are. */
  lemma {:induction false} BothOrNeither(left: Quote, right: Quote, s: Swap)
    requires s != NO_SWAP && s.fromRight >= 0.0
    requires IsInteger(s.fromLeft) && IsInteger(s.fromRight)
    requires AtMakerPrice(1.0, left, right, s) && WithinTakerPrice(left, s)
    requires left.intent.SellAll? ==> s.fromLeft >= 0.0
    ensures Positive(s)
  {
    hide Times;
    TimesUnits(right.buy);
    TimesUnits(right.sell);
    TimesUnits(left.buy);
    TimesUnits(left.sell);
    TimesSign(s.fromRight, right.buy);
    TimesOrder(0.0, s.fromLeft, right.sell);
    TimesOrder(0.0, s.fromLeft, left.buy);
    if s.fromRight == 0.0 {
      TimesOrder(s.fromLeft - 1.0, 0.0, right.sell);
      assert false;
    }
  }

  /** A match that returns normally returns either nothing at all or a fair swap. */
  lemma {:induction false} MatchIsFair(left: Quote, right: Quote, s: Swap)
    requires Admissible(left) && Admissible(right)
    requires MatchLeftRight(left, right) == Success(s) && s != NO_SWAP
    ensures FairSwap(1.0, left, right, s)
  {
    hide Div, Floor, Ceil, Times, ProposeSwap, MatchLeftRight;
    ReturnedIsProposed(left, right, s);
    if left.intent.BuyAll? {
      ProposedBuy(left, right);
    } else {
      ProposedSell(left, right);
    }
    UnitIsOne(s.fromLeft);
    UnitIsOne(s.fromRight);
    BothOrNeither(left, right, s);
  }

  lemma {:induction false} FairBuyIsProposed(left: Quote, right: Quote, s: Swap)
    requires Admissible(left) && Admissible(right) && left.intent.BuyAll?
    requires FairSwap(1.0, left, right, s) && IsInteger(s.fromLeft) && IsInteger(s.fromRight)
    ensures s == ProposeSwap(left, right)
  {
    hide Div, Floor, Ceil, Times, WholeUnits;
    if right.intent.BuyAll? {
      Convertible(right.remaining, right.sell, right.buy, s.fromRight);
      if ExhaustsMaker(left, right, s) {
        IntegerWhenExact(right.remaining, right.sell, right.buy, s.fromRight);
      }
    }
    assert ProposeSwap(left, right).fromRight == s.fromRight;
    var a := RoundedUp(s.fromRight, right.buy, right.sell);
    TimesOrder(a as real - 1.0, s.fromLeft, right.sell);
    TimesOrder(s.fromLeft - 1.0, a as real, right.sell);
    CloseIntegers(a as real, s.fromLeft);
  }

  lemma {:induction false} FairSellIsProposed(left: Quote, right: Quote, s: Swap)
    requires Admissible(left) && Admissible(right) && left.intent.SellAll?
    requires FairSwap(1.0, left, right, s) && IsInteger(s.fromLeft) && IsInteger(s.fromRight)
    ensures s == ProposeSwap(left, right)
  {
    hide Div, Floor, Ceil, Times, WholeUnits;
    if right.intent.SellAll? {
      Convertible(right.remaining, right.buy, right.sell, s.fromLeft);
      if ExhaustsMaker(left, right, s) {
        IntegerWhenExact(right.remaining, right.buy, right.sell, s.fromLeft);
      }
    }
    assert ProposeSwap(left, right).fromLeft == s.fromLeft;
    var b := RoundedDown(s.fromLeft, right.sell, right.buy);
    TimesOrder(b as real, s.fromRight + 1.0, right.buy);
    TimesOrder(s.fromRight, b as real + 1.0, right.buy);
    CloseIntegers(b as real, s.fromRight);
  }

  /**
   * Matching over 40-place decimals is exact matching: it returns a non-empty swap if and only if
   * that swap is the fair one, for all integer quotes inside the supply limit.
   */
  lemma {:induction false} MatchIffFair(left: Quote, right: Quote, s: Swap)
    requires Admissible(left) && Admissible(right) && s != NO_SWAP
    ensures MatchLeftRight(left, right) == Success(s) <==> FairSwap(1.0, left, right, s)
  {
    hide Div, Floor, Ceil, Times, ProposeSwap, Representable, WholeUnits, AtMakerPrice, WithinRemainders, ExhaustsMaker;
    if MatchLeftRight(left, right) == Success(s) {
      MatchIsFair(left, right, s);
    }
    if FairSwap(1.0, left, right, s) {
      UnitIsOne(s.fromLeft);
      UnitIsOne(s.fromRight);
      if left.intent.BuyAll? {
        FairBuyIsProposed(left, right, s);
      } else {
        FairSellIsProposed(left, right, s);
      }
      forall n: Amount | n in {left.buy, left.sell, left.remaining, right.buy, right.sell, right.remaining,
                               s.fromLeft, s.fromRight}
        ensures Representable(n, TOKEN_DECIMALS)
      {
        RepresentableIsInteger(n);
      }
      TimesCommutes(left.sell, s.fromRight);
    }
  }
}
