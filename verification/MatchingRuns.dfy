// A whole matching run: the fold over sorted makers, the change of units, and the pairing of swaps
// with makers.
module MatchingRuns {
  import opened BigNumbers
  import opened Sorting
  import opened Wrappers
  import opened Matching
  import opened MatchingProofs

  /** The taker with what a swap leaves of its remainder. */
  function After(left: Quote, swap: Swap): Quote {
    left.(remaining := left.remaining - Filled(left.intent, swap))
  }

  /**
   * A run visits makers in order while the taker has something left, and settles each with the
   * fair swap or with none.
   */
  predicate FairRun(u: Amount, left: Quote, rights: seq<Quote>, raw: seq<Swap>)
    requires u > 0.0
    decreases |raw|
  {
    if raw == [] then
      rights == [] || left.remaining <= 0.0
    else
      && rights != []
      && left.remaining > 0.0
      && (raw[0] == NO_SWAP || FairSwap(u, left, rights[0], raw[0]))
      && FairRun(u, After(left, raw[0]), rights[1..], raw[1..])
  }

  predicate WithinSupply(p: MatchParams) {
    p.buy <= MAX_AMOUNT as real && p.sell <= MAX_AMOUNT as real && p.remaining >= 0.0
  }

  lemma SuccessIsAdmissible(left: Quote, right: Quote)
    requires WithinSupply(left) && WithinSupply(right)
    requires MatchLeftRight(left, right).Success?
    ensures Admissible(left) && Admissible(right)
  {
    hide Representable, Div, Times, Floor, Ceil, ProposeSwap;
    forall n: Amount | n in {left.buy, left.sell, left.remaining, right.buy, right.sell, right.remaining}
      ensures Representable(n, TOKEN_DECIMALS) <==> IsInteger(n)
    {
      RepresentableIsInteger(n);
    }
  }

  /** Every run that returns normally is fair, whatever the number of makers. */
  lemma {:induction false} RawSwapsAreFair(left: Quote, rights: seq<Quote>, raw: seq<Swap>)
    requires WithinSupply(left) && forall right :: right in rights ==> WithinSupply(right)
    requires RawSwaps(left, rights) == Success(raw)
    ensures FairRun(1.0, left, rights, raw)
    decreases |rights|
  {
    hide MatchLeftRight, FairSwap;
    if rights != [] && left.remaining > 0.0 {
      SuccessIsAdmissible(left, rights[0]);
      var swap := MatchLeftRight(left, rights[0]).value;
      assert raw == [swap] + raw[1..];
      if swap != NO_SWAP {
        MatchIsFair(left, rights[0], swap);
      }
      FairKeepsSupply(left, rights[0], swap);
      RawSwapsAreFair(After(left, swap), rights[1..], raw[1..]);
    }
  }

  lemma FairKeepsSupply(left: Quote, right: Quote, swap: Swap)
    requires WithinSupply(left) && (swap == NO_SWAP || FairSwap(1.0, left, right, swap))
    ensures WithinSupply(After(left, swap))
  {
    hide AtMakerPrice, Times, WholeUnits;
  }

  // --- Units ----------------------------------------------------------------------------------

  /** The smallest amount at the exchange's precision, in wei. */
  function Unit(decimalPlaces: int): (u: Amount)
    ensures u > 0.0
  {
    ShiftPositive(1.0, TOKEN_DECIMALS - decimalPlaces);
    ShiftedBy(1.0, TOKEN_DECIMALS - decimalPlaces)
  }

  lemma {:induction false} ShiftIsScale(n: Amount, decimalPlaces: int)
    ensures ShiftedBy(n, TOKEN_DECIMALS - decimalPlaces) == Times(n, Unit(decimalPlaces))
    ensures ShiftedBy(n, -(TOKEN_DECIMALS - decimalPlaces)) == n / Unit(decimalPlaces)
    ensures Times(n / Unit(decimalPlaces), Unit(decimalPlaces)) == n
    ensures Times(n, Unit(decimalPlaces)) / Unit(decimalPlaces) == n
  {
    var places := TOKEN_DECIMALS - decimalPlaces;
    var u := Unit(decimalPlaces);
    if places > 0 {
      var k := Pow10(places) as real;
      assert u == k by { TimesOne(k); }
      UndoTimes(n, u);
    } else if places == 0 {
      ShiftByZero(n);
      ShiftByZero(1.0);
      assert n / 1.0 == n && Times(n, 1.0) == n;
    } else {
      var k := Pow10(-places) as real;
      assert u == 1.0 / k;
      Reciprocal(n, k, u);
      UndoTimes(n, u);
    }
  }

  lemma TimesOne(k: Amount)
    ensures 1.0 * k == k
  {
  }

  lemma UndoTimes(n: Amount, u: Amount)
    requires u > 0.0
    ensures Times(n / u, u) == n && Times(n, u) / u == n
  {
  }

  lemma Reciprocal(n: Amount, k: Amount, u: Amount)
    requires k > 0.0 && u == 1.0 / k
    ensures u > 0.0 && n / k == Times(n, u) && n * k == n / u
  {
    assert u * k == 1.0;
    assert n / k * k == n;
    assert n * u * k == n;
    assert n / u * u == n;
    assert n * k * u == n;
  }

  predicate ScaledBy(u: Amount, small: MatchParams, big: MatchParams) {
    && big == small.(buy := big.buy, sell := big.sell, remaining := big.remaining)
    && big.buy == Times(small.buy, u)
    && big.sell == Times(small.sell, u)
    && big.remaining == Times(small.remaining, u)
  }

  lemma MatchUnitScales(p: Quote, decimalPlaces: int)
    ensures ScaledBy(Unit(decimalPlaces), ToMatchUnit(p, decimalPlaces), p)
  {
    hide ShiftedBy, Times;
    ShiftIsScale(p.buy, decimalPlaces);
    ShiftIsScale(p.sell, decimalPlaces);
    ShiftIsScale(p.remaining, decimalPlaces);
  }

  function ScaleSwap(u: Amount, s: Swap): Swap {
    Swap(Times(s.fromLeft, u), Times(s.fromRight, u))
  }

  /** A product of two scaled amounts is compared like the product of the amounts. */
  lemma {:induction false} ScaledProducts(a: Amount, b: Amount, c: Amount, d: Amount, u: Amount)
    requires u > 0.0
    ensures Times(a, b) <= Times(c, d) <==> Times(Times(a, u), Times(b, u)) <= Times(Times(c, u), Times(d, u))
    ensures Times(a, b) == Times(c, d) <==> Times(Times(a, u), Times(b, u)) == Times(Times(c, u), Times(d, u))
  {
    hide Times;
    TimesGroups(a, b, u);
    TimesGroups(c, d, u);
    TimesSign(u, u);
    TimesOrder(Times(a, b), Times(c, d), Times(u, u));
  }

  lemma {:induction false} WholeUnitsScale(n: Amount, u: Amount)
    requires u > 0.0 && WholeUnits(n, 1.0)
    ensures WholeUnits(Times(n, u), u)
  {
    UnitIsOne(n);
    assert n * u / u == n;
  }

  lemma {:induction false} AtMakerPriceScales(u: Amount, left: Quote, right: Quote, s: Swap, bigLeft: Quote, bigRight: Quote)
    requires u > 0.0 && ScaledBy(u, left, bigLeft) && ScaledBy(u, right, bigRight)
    requires AtMakerPrice(1.0, left, right, s)
    ensures AtMakerPrice(u, bigLeft, bigRight, ScaleSwap(u, s))
  {
    hide Times;
    TimesDistributes(s.fromLeft, 1.0, u);
    TimesDistributes(s.fromRight, 1.0, u);
    TimesUnits(u);
    ScaledProducts(s.fromRight, right.buy, s.fromLeft, right.sell, u);
    ScaledProducts(s.fromRight, right.buy, s.fromLeft - 1.0, right.sell, u);
    ScaledProducts(s.fromRight + 1.0, right.buy, s.fromLeft, right.sell, u);
  }

  lemma {:induction false} RemaindersScale(u: Amount, left: Quote, right: Quote, s: Swap, bigLeft: Quote, bigRight: Quote)
    requires u > 0.0 && ScaledBy(u, left, bigLeft) && ScaledBy(u, right, bigRight)
    ensures WithinRemainders(left, right, s) ==> WithinRemainders(bigLeft, bigRight, ScaleSwap(u, s))
    ensures ExhaustsTaker(left, s) ==> ExhaustsTaker(bigLeft, ScaleSwap(u, s))
    ensures ExhaustsMaker(left, right, s) ==> ExhaustsMaker(bigLeft, bigRight, ScaleSwap(u, s))
  {
    hide Times;
    TimesOrder(Filled(left.intent, s), left.remaining, u);
    TimesOrder(MakerFilled(right.intent, s), right.remaining, u);
    ScaledProducts(s.fromRight, right.buy, right.remaining, right.sell, u);
    ScaledProducts(s.fromLeft, right.sell, right.remaining, right.buy, u);
  }

  /** Fairness does not depend on the unit that amounts are counted in. */
  lemma {:induction false} FairSwapScales(u: Amount, left: Quote, right: Quote, s: Swap, bigLeft: Quote, bigRight: Quote)
    requires u > 0.0 && ScaledBy(u, left, bigLeft) && ScaledBy(u, right, bigRight)
    requires FairSwap(1.0, left, right, s)
    ensures FairSwap(u, bigLeft, bigRight, ScaleSwap(u, s))
  {
    hide Times, WholeUnits, AtMakerPrice, WithinRemainders, ExhaustsMaker, ExhaustsTaker;
    WholeUnitsScale(s.fromLeft, u);
    WholeUnitsScale(s.fromRight, u);
    TimesSign(s.fromLeft, u);
    TimesSign(s.fromRight, u);
    AtMakerPriceScales(u, left, right, s, bigLeft, bigRight);
    ScaledProducts(s.fromLeft, left.buy, left.sell, s.fromRight, u);
    RemaindersScale(u, left, right, s, bigLeft, bigRight);
  }

  lemma {:induction false} FairRunScales(u: Amount, left: Quote, rights: seq<Quote>, raw: seq<Swap>,
                                         bigLeft: Quote, bigRights: seq<Quote>, bigRaw: seq<Swap>)
    requires u > 0.0 && ScaledBy(u, left, bigLeft) && |bigRights| == |rights| && |bigRaw| == |raw|
    requires forall i :: 0 <= i < |rights| ==> ScaledBy(u, rights[i], bigRights[i])
    requires forall i :: 0 <= i < |raw| ==> bigRaw[i] == ScaleSwap(u, raw[i])
    requires FairRun(1.0, left, rights, raw)
    ensures FairRun(u, bigLeft, bigRights, bigRaw)
    decreases |raw|
  {
    hide Times, FairSwap;
    TimesUnits(u);
    TimesOrder(0.0, left.remaining, u);
    if raw != [] {
      if raw[0] != NO_SWAP {
        FairSwapScales(u, left, rights[0], raw[0], bigLeft, bigRights[0]);
      }
      TimesDistributes(left.remaining, Filled(left.intent, raw[0]), u);
      FairRunScales(u, After(left, raw[0]), rights[1..], raw[1..], After(bigLeft, bigRaw[0]), bigRights[1..], bigRaw[1..]);
    }
  }

  /** The taker at the start of a run: its whole intent is still to fill. */
  function Fresh(left: Quote): Quote {
    left.(remaining := TotalToFill(left))
  }

  /** The swaps of a run in wei, zero swaps included. */
  function RunInWei(left: Quote, sortedRights: seq<Quote>, decimalPlaces: int): Result<seq<Swap>, MatchError> {
    var raw :- RawSwaps(Fresh(ToMatchUnit(left, decimalPlaces)), AllToMatchUnit(sortedRights, decimalPlaces));
    Success(AllToWei(raw, decimalPlaces))
  }

  /** With at most 18 decimal places, converting to match units does not enlarge an amount. */
  lemma {:induction false} UnitShrinks(p: Quote, decimalPlaces: int)
    requires decimalPlaces <= TOKEN_DECIMALS && WithinSupply(p)
    ensures WithinSupply(ToMatchUnit(p, decimalPlaces))
  {
    var small := ToMatchUnit(p, decimalPlaces);
    ShiftIsScale(p.buy, decimalPlaces);
    ShiftIsScale(p.sell, decimalPlaces);
    ShiftIsScale(p.remaining, decimalPlaces);
    UnitAtLeastOne(decimalPlaces);
    DivideShrinks(p.buy, Unit(decimalPlaces));
    DivideShrinks(p.sell, Unit(decimalPlaces));
    DivideShrinks(p.remaining, Unit(decimalPlaces));
  }

  lemma DivideShrinks(n: Amount, u: Amount)
    requires n >= 0.0 && u >= 1.0
    ensures 0.0 <= n / u <= n
  {
    assert n / u * u == n;
    assert n / u >= 0.0;
  }

  lemma UnitAtLeastOne(decimalPlaces: int)
    requires decimalPlaces <= TOKEN_DECIMALS
    ensures Unit(decimalPlaces) >= 1.0
  {
    var places := TOKEN_DECIMALS - decimalPlaces;
    assert Pow10(places) >= 1;
    assert Unit(decimalPlaces) == 1.0 * Pow10(places) as real;
  }

  /** The swaps behind `CreateSwaps`, in wei, form a fair run at the exchange's precision. */
  lemma {:induction false} RunInWeiIsFair(left: Quote, rights: seq<Quote>, decimalPlaces: int, raw: seq<Swap>)
    requires decimalPlaces <= TOKEN_DECIMALS
    requires WithinSupply(left) && forall right :: right in rights ==> WithinSupply(right)
    requires RunInWei(left, rights, decimalPlaces) == Success(raw)
    ensures FairRun(Unit(decimalPlaces), Fresh(left), rights, raw)
  {
    hide RawSwaps, FairRun, Times, ShiftedBy;
    var smallLeft := Fresh(ToMatchUnit(left, decimalPlaces));
    var smallRights := AllToMatchUnit(rights, decimalPlaces);
    var smallRaw := RawSwaps(smallLeft, smallRights).value;
    UnitShrinks(left, decimalPlaces);
    forall right | right in smallRights
      ensures WithinSupply(right)
    {
      var i :| 0 <= i < |smallRights| && right == smallRights[i];
      assert rights[i] in rights;
      UnitShrinks(rights[i], decimalPlaces);
    }
    RawSwapsAreFair(smallLeft, smallRights, smallRaw);
    forall i | 0 <= i < |rights|
      ensures ScaledBy(Unit(decimalPlaces), smallRights[i], rights[i])
    {
      MatchUnitScales(rights[i], decimalPlaces);
    }
    forall i | 0 <= i < |raw|
      ensures raw[i] == ScaleSwap(Unit(decimalPlaces), smallRaw[i])
    {
      ShiftIsScale(smallRaw[i].fromLeft, decimalPlaces);
      ShiftIsScale(smallRaw[i].fromRight, decimalPlaces);
    }
    MatchUnitScales(left, decimalPlaces);
    FairRunScales(Unit(decimalPlaces), smallLeft, smallRights, smallRaw, Fresh(left), rights, raw);
  }

  // --- Pairing --------------------------------------------------------------------------------

  /** No zero swap comes before a positive one. */
  predicate Aligned(raw: seq<Swap>) {
    forall i, j :: 0 <= i < j < |raw| && Positive(raw[j]) ==> Positive(raw[i])
  }

  /** Each positive swap with the maker it was computed for. */
  function OwnTrades(left: Quote, raw: seq<Swap>, rights: seq<Quote>): seq<Trade>
    requires |raw| <= |rights|
  {
    if raw == [] then []
    else
      (if Positive(raw[0]) then [MkTrade(left, rights[0], raw[0])] else [])
      + OwnTrades(left, raw[1..], rights[1..])
  }

  predicate DistinctIds(quotes: seq<Quote>) {
    forall i, j :: 0 <= i < j < |quotes| ==> quotes[i].approvalId != quotes[j].approvalId
  }

  lemma {:induction false} NoPositives(left: Quote, raw: seq<Swap>, rights: seq<Quote>)
    requires |raw| <= |rights| && forall swap :: swap in raw ==> !Positive(swap)
    ensures Positives(raw) == [] && OwnTrades(left, raw, rights) == []
  {
    if raw != [] {
      assert !Positive(raw[0]);
      NoPositives(left, raw[1..], rights[1..]);
    }
  }

  lemma {:induction false} AlignedPairs(left: Quote, raw: seq<Swap>, rights: seq<Quote>)
    requires |raw| <= |rights| && Aligned(raw)
    ensures ZipTrades(left, Positives(raw), rights) == OwnTrades(left, raw, rights)
    ensures Positives(raw) <= raw
  {
    if raw != [] {
      if Positive(raw[0]) {
        assert Aligned(raw[1..]);
        AlignedPairs(left, raw[1..], rights[1..]);
        assert Positives(raw)[1..] == Positives(raw[1..]);
        assert raw == [raw[0]] + raw[1..];
      } else {
        NoPositives(left, raw, rights);
      }
    }
  }

  lemma {:induction false} OwnTradeIds(left: Quote, raw: seq<Swap>, rights: seq<Quote>, t: Trade)
    requires |raw| <= |rights| && t in OwnTrades(left, raw, rights)
    ensures exists i :: 0 <= i < |raw| && t.rightId == rights[i].approvalId
  {
    if Positive(raw[0]) && t == MkTrade(left, rights[0], raw[0]) {
      assert t.rightId == rights[0].approvalId;
    } else {
      OwnTradeIds(left, raw[1..], rights[1..], t);
      var i :| 0 <= i < |raw[1..]| && t.rightId == rights[1..][i].approvalId;
      assert t.rightId == rights[i + 1].approvalId;
    }
  }

  lemma {:induction false} MisalignedPairs(left: Quote, raw: seq<Swap>, rights: seq<Quote>)
    requires |raw| <= |rights| && DistinctIds(rights) && !Aligned(raw)
    ensures ZipTrades(left, Positives(raw), rights) != OwnTrades(left, raw, rights)
  {
    var i, j :| 0 <= i < j < |raw| && Positive(raw[j]) && !Positive(raw[i]);
    if Positive(raw[0]) {
      assert raw[1..][i - 1] == raw[i] && raw[1..][j - 1] == raw[j];
      hide Positive, MkTrade;
      MisalignedPairs(left, raw[1..], rights[1..]);
      assert Positives(raw)[1..] == Positives(raw[1..]);
      var zip, own := ZipTrades(left, Positives(raw), rights), OwnTrades(left, raw, rights);
      assert zip[1..] == ZipTrades(left, Positives(raw[1..]), rights[1..]);
      assert own[1..] == OwnTrades(left, raw[1..], rights[1..]);
    } else {
      ZeroFirstMisaligns(left, raw, rights, j);
    }
  }

  /** The first maker's swap was dropped, so its name goes to a swap that is not its own. */
  lemma {:induction false} ZeroFirstMisaligns(left: Quote, raw: seq<Swap>, rights: seq<Quote>, j: nat)
    requires |raw| <= |rights| && DistinctIds(rights)
    requires 0 < j < |raw| && Positive(raw[j]) && !Positive(raw[0])
    ensures ZipTrades(left, Positives(raw), rights) != OwnTrades(left, raw, rights)
  {
    hide Positive;
    assert raw[1..][j - 1] == raw[j];
    assert raw[j] in Positives(raw[1..]);
    var zip, own := ZipTrades(left, Positives(raw), rights), OwnTrades(left, raw, rights);
    assert zip != [] && zip[0].rightId == rights[0].approvalId;
    forall t | t in own
      ensures t.rightId != rights[0].approvalId
    {
      OwnTradeIds(left, raw[1..], rights[1..], t);
      var k :| 0 <= k < |raw[1..]| && t.rightId == rights[1..][k].approvalId;
      assert rights[k + 1].approvalId == t.rightId;
    }
  }

  lemma {:induction false} PositivesInWei(raw: seq<Swap>, decimalPlaces: int)
    ensures Positives(AllToWei(raw, decimalPlaces)) == AllToWei(Positives(raw), decimalPlaces)
  {
    hide ShiftedBy;
    if raw != [] {
      PositivesInWei(raw[1..], decimalPlaces);
      WeiPositive(raw[0], decimalPlaces);
      var wei := AllToWei(raw, decimalPlaces);
      assert wei[1..] == AllToWei(raw[1..], decimalPlaces);
    }
  }

  lemma WeiPositive(swap: Swap, decimalPlaces: int)
    ensures Positive(ToWei(swap, decimalPlaces)) <==> Positive(swap)
  {
    hide Times, ShiftedBy;
    ShiftIsScale(swap.fromLeft, decimalPlaces);
    ShiftIsScale(swap.fromRight, decimalPlaces);
    TimesUnits(Unit(decimalPlaces));
    TimesOrder(0.0, swap.fromLeft, Unit(decimalPlaces));
    TimesOrder(0.0, swap.fromRight, Unit(decimalPlaces));
  }

  lemma SwapsArePositives(left: Quote, rights: seq<Quote>, decimalPlaces: int)
    ensures var run := RunInWei(left, rights, decimalPlaces);
      CreateSwaps(left, rights, decimalPlaces)
      == if run.Success? then Success(Positives(run.value)) else Failure(run.error)
  {
    hide ShiftedBy, RawSwaps;
    var small := Fresh(ToMatchUnit(left, decimalPlaces));
    var raw := RawSwaps(small, AllToMatchUnit(rights, decimalPlaces));
    if raw.Success? {
      PositivesInWei(raw.value, decimalPlaces);
    }
  }

  lemma {:induction false} RunLength(left: Quote, rights: seq<Quote>)
    ensures RawSwaps(left, rights).Success? ==> |RawSwaps(left, rights).value| <= |rights|
    decreases |rights|
  {
    hide MatchLeftRight;
    if rights != [] && left.remaining > 0.0 && MatchLeftRight(left, rights[0]).Success? {
      RunLength(After(left, MatchLeftRight(left, rights[0]).value), rights[1..]);
    }
  }

  /**
   * Every trade names the maker its swap was computed for if and only if no zero swap precedes a
   * positive one in the run.
   */
  lemma {:induction false} TradesPairedIffAligned(left: Quote, rights: seq<Quote>, decimalPlaces: int, raw: seq<Swap>)
    requires DistinctIds(rights)
    requires RunInWei(left, SortQuotes(Filter(left, rights)), decimalPlaces) == Success(raw)
    ensures |raw| <= |SortQuotes(Filter(left, rights))|
    ensures CreateTrades(left, rights, decimalPlaces) == Success(OwnTrades(left, raw, SortQuotes(Filter(left, rights))))
            <==> Aligned(raw)
  {
    hide RawSwaps, SortQuotes, Filter, CreateSwaps;
    var sorted := SortQuotes(Filter(left, rights));
    RunLength(Fresh(ToMatchUnit(left, decimalPlaces)), AllToMatchUnit(sorted, decimalPlaces));
    SwapsArePositives(left, sorted, decimalPlaces);
    SortedDistinct(left, rights);
    if Aligned(raw) {
      AlignedPairs(left, raw, sorted);
    } else {
      MisalignedPairs(left, raw, sorted);
    }
  }

  lemma {:induction false} FilterDistinct(left: Quote, rights: seq<Quote>)
    requires DistinctIds(rights)
    ensures DistinctIds(Filter(left, rights))
  {
    hide Selected;
    if rights != [] {
      assert DistinctIds(rights[1..]);
      FilterDistinct(left, rights[1..]);
      var rest := Filter(left, rights[1..]);
      forall j | 0 <= j < |rest|
        ensures rest[j].approvalId != rights[0].approvalId
      {
        assert rest[j] in rights[1..];
        var k :| 0 <= k < |rights[1..]| && rights[1..][k] == rest[j];
        assert rights[k + 1] == rest[j];
      }
    }
  }

  lemma {:induction false} DistinctIsMultiset(quotes: seq<Quote>)
    requires DistinctIds(quotes)
    ensures forall q :: multiset(quotes)[q] <= 1
    ensures forall p, q :: p in quotes && q in quotes && p.approvalId == q.approvalId ==> p == q
  {
    if quotes != [] {
      assert DistinctIds(quotes[1..]);
      DistinctIsMultiset(quotes[1..]);
      assert quotes == [quotes[0]] + quotes[1..];
      assert quotes[0] !in quotes[1..] by {
        forall k | 0 <= k < |quotes[1..]|
          ensures quotes[1..][k] != quotes[0]
        {
          assert quotes[k + 1].approvalId != quotes[0].approvalId;
        }
      }
    }
  }

  lemma {:induction false} SortedDistinct(left: Quote, rights: seq<Quote>)
    requires DistinctIds(rights)
    ensures DistinctIds(SortQuotes(Filter(left, rights)))
  {
    hide SortQuotes, Filter;
    var filtered := Filter(left, rights);
    var sorted := SortQuotes(filtered);
    FilterDistinct(left, rights);
    DistinctIsMultiset(filtered);
    SameMembers(filtered, sorted);
    forall i, j | 0 <= i < j < |sorted|
      ensures sorted[i].approvalId != sorted[j].approvalId
    {
      assert sorted[i] in sorted && sorted[j] in sorted;
      if sorted[i].approvalId == sorted[j].approvalId {
        assert sorted[i] == sorted[j];
        TwiceInMultiset(sorted, i, j);
        assert false;
      }
    }
  }

  lemma TwiceInMultiset(quotes: seq<Quote>, i: int, j: int)
    requires 0 <= i < j < |quotes| && quotes[i] == quotes[j]
    ensures multiset(quotes)[quotes[i]] >= 2
  {
    assert quotes == quotes[..j] + quotes[j..];
    assert quotes[..j][i] == quotes[i] && quotes[j..][0] == quotes[i];
    assert quotes[i] in quotes[..j] && quotes[i] in quotes[j..];
  }
}
