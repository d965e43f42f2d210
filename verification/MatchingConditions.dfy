// When makers are tried in the order of their exact prices, and when every swap of a run is booked on
// its own maker, as conditions on the quotes (src/server/exchange/Matching.ts).
module MatchingConditions {
  import opened BasicTypes
  import opened BigNumbers
  import opened Sorting
  import opened Wrappers
  import opened Matching
  import opened MatchingProofs
  import opened MatchingRuns
  import opened MatchingFacts

  // --- Prices ---------------------------------------------------------------------------------

  /** Two brackets around rounded quotients whose exact quotients are at least one unit apart. */
  lemma {:induction false} BracketsApart(n: int, m: int, st: int, at: int, bs: int, nst: int, mst: int)
    requires 0 < st <= UNITS_PER_ONE && at >= bs + 1
    requires 2 * at * UNITS_PER_ONE + st < 2 * nst + 2 * st && 2 * mst <= 2 * bs * UNITS_PER_ONE + st
    requires nst == n * st && mst == m * st
    ensures m < n
  {
    ScaleInt(bs, at, UNITS_PER_ONE);
    ScaleInt(n, m, st);
  }

  /** Prices of small enough quotes that differ at all still differ after rounding to 40 places. */
  lemma {:induction false} PricesStayApart(a: int, s: int, b: int, t: int)
    requires a >= 0 && b >= 0 && s > 0 && t > 0
    requires s * t <= UNITS_PER_ONE && b * s < a * t
    ensures Div(b as real, t as real) < Div(a as real, s as real)
  {
    var n := DivBracket(a, s);
    var m := DivBracket(b, t);
    ScaleBracket(a, s, n, t);
    ScaleBracket(b, t, m, s);
    assert s * t == t * s && s * t > 0;
    BracketsApart(n, m, s * t, a * t, b * s, n * (s * t), m * (s * t));
    FractionsOrdered(m, n);
  }

  lemma {:induction false} ScaleBracket(x: int, y: int, n: int, k: int)
    requires k > 0 && y > 0
    requires 2 * (n * y) <= 2 * x * UNITS_PER_ONE + y < 2 * (n * y) + 2 * y
    ensures 2 * (n * (y * k)) <= 2 * (x * k) * UNITS_PER_ONE + y * k < 2 * (n * (y * k)) + 2 * (y * k)
  {
    var ny, xu := n * y, x * UNITS_PER_ONE;
    ScaleInt(2 * ny, 2 * xu + y, k);
    ScaleInt(2 * xu + y, 2 * ny + 2 * y, k);
    Regroup(x, k);
    assert ny * k == n * (y * k);
    assert (2 * ny) * k == 2 * (ny * k);
    assert (2 * xu + y) * k == 2 * (xu * k) + y * k;
    assert (2 * ny + 2 * y) * k == 2 * (ny * k) + 2 * (y * k);
  }

  lemma FractionsOrdered(m: int, n: int)
    requires m < n
    ensures m as real / UNITS_PER_ONE as real < n as real / UNITS_PER_ONE as real
  {
  }

  /** The maker gives at least as much for what it takes. */
  predicate NotDearer(a: Quote, b: Quote) {
    Times(a.buy, b.sell) <= Times(b.buy, a.sell)
  }

  /** Whole amounts whose product of sells is at most 10^40. */
  predicate Comparable(a: Quote, b: Quote) {
    && IsInteger(a.buy) && IsInteger(a.sell) && IsInteger(b.buy) && IsInteger(b.sell)
    && Times(a.sell, b.sell) <= UNITS_PER_ONE as real
  }

  lemma {:induction false} SortedIsNotDearer(a: Quote, b: Quote)
    requires Comparable(a, b) && NotAfter(a, b)
    ensures NotDearer(a, b)
  {
    hide Div;
    var x, s, y, t := a.buy.Floor, a.sell.Floor, b.buy.Floor, b.sell.Floor;
    TimesOfInts(x, t);
    TimesOfInts(y, s);
    TimesOfInts(s, t);
    if y * s < x * t {
      PricesStayApart(x, s, y, t);
    }
  }

  /** A priority belongs to one quote: it is the row number of its approval. */
  predicate PrioritiesTellApart(rights: seq<Quote>) {
    forall a, b :: a in rights && b in rights && a.priority == b.priority ==> a == b
  }

  /** Of any two selected makers whose prices round alike, the older one is not dearer. */
  predicate TiesInOrder(left: Quote, rights: seq<Quote>) {
    forall a, b ::
      a in rights && b in rights && Selected(left, a) && Selected(left, b) && Price(a) == Price(b) && a.priority < b.priority ==>
        NotDearer(a, b)
  }

  predicate CheapestFirst(quotes: seq<Quote>) {
    forall i, j :: 0 <= i < j < |quotes| ==> NotDearer(quotes[i], quotes[j])
  }

  lemma DearerRoundsNoLower(a: Quote, b: Quote)
    requires !NotDearer(a, b)
    ensures Price(b) <= Price(a)
  {
    hide Div, Times;
    DivMonotone(b.buy, b.sell, a.buy, a.sell);
  }

  /**
   * Makers are sorted by prices rounded to 40 places. They are tried in the order of their exact prices
   * if and only if, of any two whose prices round alike, the older one is not dearer.
   */
  lemma {:induction false} CheapestFirstIff(left: Quote, rights: seq<Quote>)
    requires DistinctIds(rights) && PrioritiesTellApart(rights)
    ensures CheapestFirst(SortQuotes(Filter(left, rights))) <==> TiesInOrder(left, rights)
  {
    hide Price, SortQuotes, Filter, NotDearer, Selected;
    MakersBestFirst(left, rights);
    SortedDistinct(left, rights);
    var sorted := SortQuotes(Filter(left, rights));
    if TiesInOrder(left, rights) {
      forall i, j | 0 <= i < j < |sorted|
        ensures NotDearer(sorted[i], sorted[j])
      {
        var a, b := sorted[i], sorted[j];
        assert a in sorted && b in sorted && a != b && NotAfter(a, b);
        if !NotDearer(a, b) {
          DearerRoundsNoLower(a, b);
        }
      }
    }
    if CheapestFirst(sorted) {
      forall a, b |
        a in rights && b in rights && Selected(left, a) && Selected(left, b) && Price(a) == Price(b) && a.priority < b.priority
        ensures NotDearer(a, b)
      {
        assert a in sorted && b in sorted;
        var i :| 0 <= i < |sorted| && sorted[i] == a;
        var j :| 0 <= j < |sorted| && sorted[j] == b;
        assert j < i ==> NotAfter(sorted[j], sorted[i]);
      }
    }
  }

  /** Any two makers whose sells multiply to at most 10^40 are tried in the order of their exact prices. */
  lemma {:induction false} SmallMakersInOrder(left: Quote, rights: seq<Quote>, i: nat, j: nat)
    requires var sorted := SortQuotes(Filter(left, rights));
      i < j < |sorted| && Comparable(sorted[i], sorted[j])
    ensures var sorted := SortQuotes(Filter(left, rights));
      NotDearer(sorted[i], sorted[j])
  {
    hide NotAfter, SortQuotes, Filter, Comparable, NotDearer;
    MakersBestFirst(left, rights);
    var sorted := SortQuotes(Filter(left, rights));
    SortedIsNotDearer(sorted[i], sorted[j]);
  }

  const WETH: Address := "0xe"
  const USD: Address := "0xd"
  const LARGE: Amount := 1000000000000000000000000000000.0

  /** Two makers within the bounds of order validation whose prices differ in the 60th decimal. */
  const DEARER: Quote := MatchParams("m1", "bob", 0, SellAll, USD, 1.0, WETH, LARGE, LARGE, 1)
  const CHEAPER: Quote := MatchParams("m2", "carol", 0, SellAll, USD, 1.0, WETH, LARGE + 1.0, LARGE + 1.0, 2)

  lemma {:induction false} SameRoundedPrice()
    ensures Price(DEARER) == Price(CHEAPER)
  {
    hide Div;
    var n := DivBracket(1, 1000000000000000000000000000000);
    var m := DivBracket(1, 1000000000000000000000000000001);
    assert n == 10000000000 == m;
  }

  /** Beyond that bound the older maker goes first even if it is dearer. */
  lemma {:induction false} DearerMakerGoesFirst()
    ensures NotAfter(DEARER, CHEAPER) && !NotAfter(CHEAPER, DEARER) && !NotDearer(DEARER, CHEAPER)
    ensures SortQuotes([CHEAPER, DEARER]) == [DEARER, CHEAPER]
  {
    hide Price;
    SameRoundedPrice();
    assert [CHEAPER, DEARER][1..] == [DEARER];
    assert Sort(NotAfter, [DEARER]) == [DEARER];
    assert Insert(NotAfter, CHEAPER, [DEARER]) == [DEARER] + Insert(NotAfter, CHEAPER, []);
  }

  // --- Alignment ------------------------------------------------------------------------------

  /** The rounded proposal between the two would break the taker's limit price. */
  predicate Breaks(left: Quote, right: Quote) {
    !WithinTakerPrice(left, ProposeSwap(left, right))
  }

  /** Once one maker's proposal breaks the taker's price, so does every later one's. */
  predicate NoLateMatch(left: Quote, rights: seq<Quote>)
    decreases |rights|
  {
    if rights == [] || left.remaining <= 0.0 then true
    else if Breaks(left, rights[0]) then forall i :: 0 <= i < |rights| ==> Breaks(left, rights[i])
    else NoLateMatch(After(left, ProposeSwap(left, rights[0])), rights[1..])
  }

  predicate Fillable(rights: seq<Quote>) {
    forall i :: 0 <= i < |rights| ==> WithinSupply(rights[i]) && rights[i].remaining > 0.0
  }

  /** One step of a run: empty when the price breaks, otherwise the positive proposal. */
  lemma {:induction false} StepIsProposal(left: Quote, right: Quote, s: Swap)
    requires WithinSupply(left) && WithinSupply(right) && left.remaining > 0.0 && right.remaining > 0.0
    requires MatchLeftRight(left, right) == Success(s)
    ensures if Breaks(left, right) then s == NO_SWAP else s == ProposeSwap(left, right) && Positive(s)
    ensures WithinSupply(After(left, s))
  {
    hide Times, Floor, Ceil, Representable, Div, MatchLeftRight, ProposeSwap, WithinTakerPrice;
    SuccessIsAdmissible(left, right);
    EmptyIffTakerPriceBroken(left, right, s);
    if s != NO_SWAP {
      ReturnedIsProposed(left, right, s);
      MatchIsFair(left, right, s);
      FairIsPositive(left, right, s);
    }
    FairKeepsSupply(left, right, s);
  }

  lemma FairIsPositive(left: Quote, right: Quote, s: Swap)
    requires FairSwap(1.0, left, right, s)
    ensures Positive(s)
  {
    hide Times, WholeUnits, AtMakerPrice, ExhaustsMaker;
  }

  lemma {:induction false} AllEmptyIffAllBreak(left: Quote, rights: seq<Quote>, raw: seq<Swap>)
    requires WithinSupply(left) && Fillable(rights) && left.remaining > 0.0
    requires RawSwaps(left, rights) == Success(raw)
    ensures (forall i :: 0 <= i < |raw| ==> !Positive(raw[i])) <==> (forall i :: 0 <= i < |rights| ==> Breaks(left, rights[i]))
    decreases |rights|
  {
    hide MatchLeftRight, Breaks;
    if rights != [] {
      var swap := MatchLeftRight(left, rights[0]).value;
      assert raw == [swap] + raw[1..] && raw[0] == swap;
      StepIsProposal(left, rights[0], swap);
      if Breaks(left, rights[0]) {
        assert After(left, swap) == left;
        AllEmptyIffAllBreak(left, rights[1..], raw[1..]);
        assert forall i :: 0 < i < |raw| ==> raw[i] == raw[1..][i - 1];
        assert forall i :: 0 < i < |rights| ==> rights[i] == rights[1..][i - 1];
      }
    }
  }

  /** The run drops no empty swap in front of a positive one exactly when no later maker matches after a broken price. */
  lemma {:induction false} AlignedIff(left: Quote, rights: seq<Quote>, raw: seq<Swap>)
    requires WithinSupply(left) && Fillable(rights) && RawSwaps(left, rights) == Success(raw)
    ensures Aligned(raw) <==> NoLateMatch(left, rights)
    decreases |rights|
  {
    hide MatchLeftRight, Breaks, ProposeSwap;
    if rights != [] && left.remaining > 0.0 {
      var swap := MatchLeftRight(left, rights[0]).value;
      var rest := raw[1..];
      assert raw == [swap] + rest && raw[0] == swap;
      StepIsProposal(left, rights[0], swap);
      assert forall i :: 0 < i < |raw| ==> raw[i] == rest[i - 1];
      assert forall i :: 0 <= i < |rest| ==> rest[i] == raw[i + 1];
      if Breaks(left, rights[0]) {
        AllEmptyIffAllBreak(left, rights, raw);
        assert !Positive(raw[0]);
      } else {
        AlignedIff(After(left, swap), rights[1..], rest);
      }
    }
  }

  lemma {:induction false} AlignedInWei(raw: seq<Swap>, decimalPlaces: int)
    ensures Aligned(AllToWei(raw, decimalPlaces)) <==> Aligned(raw)
  {
    hide Positive, ToWei;
    forall i | 0 <= i < |raw|
      ensures Positive(AllToWei(raw, decimalPlaces)[i]) <==> Positive(raw[i])
    {
      WeiPositive(raw[i], decimalPlaces);
    }
  }

  /** The makers in match units. */
  lemma {:induction false} UnitsFillable(rights: seq<Quote>, decimalPlaces: int)
    requires decimalPlaces <= TOKEN_DECIMALS && Fillable(rights)
    ensures Fillable(AllToMatchUnit(rights, decimalPlaces))
  {
    hide ToMatchUnit;
    forall i | 0 <= i < |rights|
      ensures WithinSupply(ToMatchUnit(rights[i], decimalPlaces)) && ToMatchUnit(rights[i], decimalPlaces).remaining > 0.0
    {
      UnitShrinks(rights[i], decimalPlaces);
      UnitPositive(rights[i], decimalPlaces);
    }
  }

  lemma UnitPositive(p: Quote, decimalPlaces: int)
    requires p.remaining > 0.0
    ensures ToMatchUnit(p, decimalPlaces).remaining > 0.0
  {
    ShiftPositive(p.remaining, -(TOKEN_DECIMALS - decimalPlaces));
  }

  /**
   * Every trade names the maker its swap was computed for if and only if, going through the quotes in
   * match units, no later maker matches once one maker's proposal has broken the taker's price.
   */
  lemma {:induction false} TradesPairedIff(left: Quote, rights: seq<Quote>, decimalPlaces: int, raw: seq<Swap>)
    requires DistinctIds(rights) && decimalPlaces <= TOKEN_DECIMALS && WithinSupply(left)
    requires forall right :: right in rights ==> WithinSupply(right)
    requires RunInWei(left, SortQuotes(Filter(left, rights)), decimalPlaces) == Success(raw)
    ensures var sorted := SortQuotes(Filter(left, rights));
      && |raw| <= |sorted|
      && (CreateTrades(left, rights, decimalPlaces) == Success(OwnTrades(left, raw, sorted))
          <==> NoLateMatch(Fresh(ToMatchUnit(left, decimalPlaces)), AllToMatchUnit(sorted, decimalPlaces)))
  {
    hide RawSwaps, SortQuotes, CreateTrades, NoLateMatch, ToMatchUnit, OwnTrades;
    var sorted := SortQuotes(Filter(left, rights));
    var small := Fresh(ToMatchUnit(left, decimalPlaces));
    var units := AllToMatchUnit(sorted, decimalPlaces);
    var smallRaw := RawSwaps(small, units).value;
    TradesPairedIffAligned(left, rights, decimalPlaces, raw);
    AlignedInWei(smallRaw, decimalPlaces);
    SortedFillable(left, rights);
    UnitsFillable(sorted, decimalPlaces);
    FreshWithinSupply(left, decimalPlaces);
    AlignedIff(small, units, smallRaw);
  }

  lemma FreshWithinSupply(left: Quote, decimalPlaces: int)
    requires WithinSupply(left) && decimalPlaces <= TOKEN_DECIMALS
    ensures WithinSupply(Fresh(ToMatchUnit(left, decimalPlaces)))
  {
    hide ToMatchUnit;
    UnitShrinks(left, decimalPlaces);
  }

  lemma {:induction false} SortedFillable(left: Quote, rights: seq<Quote>)
    requires forall right :: right in rights ==> WithinSupply(right)
    ensures Fillable(SortQuotes(Filter(left, rights)))
  {
    hide SortQuotes, Filter;
    MakersBestFirst(left, rights);
    var sorted := SortQuotes(Filter(left, rights));
    assert forall i :: 0 <= i < |sorted| ==> sorted[i] in sorted;
  }
}
