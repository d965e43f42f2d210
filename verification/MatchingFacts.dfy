// Consequences of fairness for the maker, and a concrete run in which pairing by position goes wrong.
module MatchingFacts {
  import opened BasicTypes
  import opened BigNumbers
  import opened Sorting
  import opened Wrappers
  import opened Matching
  import opened MatchingProofs
  import opened MatchingRuns

  lemma {:induction false} WholeUnitsGap(a: Amount, b: Amount, u: Amount)
    requires u > 0.0 && WholeUnits(a, u) && WholeUnits(b, u) && a < b + u
    ensures a <= b
  {
    var p, q := a / u, b / u;
    UndoTimes(a, u);
    UndoTimes(b, u);
    BelowNext(p, q, u);
    assert p.Floor <= q.Floor;
  }

  lemma {:induction false} BelowNext(p: Amount, q: Amount, u: Amount)
    requires u > 0.0 && Times(p, u) < Times(q, u) + u
    ensures p < q + 1.0
    ensures p <= q ==> Times(p, u) <= Times(q, u)
  {
    hide Times;
    TimesDistributes(q, 1.0, u);
    TimesUnits(u);
    TimesOrder(p, q + 1.0, u);
    TimesOrder(p, q, u);
  }

  /**
   * A fair swap never takes more from the maker than its own remainder, always pays at least its
   * limit price, and leaves nothing of the maker or nothing of the taker.
   */
  lemma {:induction false} MakerRoom(u: Amount, left: Quote, right: Quote, s: Swap)
    requires u > 0.0 && FairSwap(u, left, right, s) && WholeUnits(right.remaining, u)
    ensures MakerFilled(right.intent, s) <= right.remaining
    ensures Times(s.fromRight, right.buy) <= Times(s.fromLeft, right.sell)
    ensures ExhaustsTaker(left, s) || MakerFilled(right.intent, s) == right.remaining
  {
    hide Times, WholeUnits;
    if left.intent.BuyAll? && right.intent.BuyAll? {
      TimesOrder(s.fromLeft - u, right.remaining, right.sell);
      WholeUnitsGap(s.fromLeft, right.remaining, u);
      TimesOrder(right.remaining, s.fromLeft, right.sell);
    } else if left.intent.SellAll? && right.intent.SellAll? {
      TimesOrder(s.fromRight, right.remaining, right.buy);
      TimesOrder(right.remaining, s.fromRight + u, right.buy);
      if right.remaining < s.fromRight + u {
        WholeUnitsGap(right.remaining, s.fromRight, u);
      }
    }
  }

  lemma {:induction false} NotAfterIsTotal()
    ensures TotalPreorder(NotAfter)
  {
    hide Price;
  }

  /** Makers are tried cheapest first and, at one price, oldest first; none is lost or invented. */
  lemma {:induction false} MakersBestFirst(left: Quote, rights: seq<Quote>)
    ensures SortedBy(NotAfter, SortQuotes(Filter(left, rights)))
    ensures forall right :: right in SortQuotes(Filter(left, rights)) <==> right in rights && Selected(left, right)
  {
    hide Selected, NotAfter;
    NotAfterIsTotal();
    SortSorted(NotAfter, Filter(left, rights));
    SameMembers(SortQuotes(Filter(left, rights)), Filter(left, rights));
  }

  /** A match comes back empty exactly when the taker's limit price would be broken by the proposal. */
  lemma {:induction false} EmptyIffTakerPriceBroken(left: Quote, right: Quote, s: Swap)
    requires Admissible(left) && Admissible(right) && left.remaining > 0.0 && right.remaining > 0.0
    requires MatchLeftRight(left, right) == Success(s)
    ensures s == NO_SWAP <==> !WithinTakerPrice(left, ProposeSwap(left, right))
  {
    hide Times, Floor, Ceil, Representable, Div;
    var p := ProposeSwap(left, right);
    TimesUnits(left.sell);
    TimesUnits(left.buy);
    if WithinTakerPrice(left, p) {
      ProposalNotZero(left, right);
    }
  }

  lemma {:induction false} ProposalNotZero(left: Quote, right: Quote)
    requires Admissible(left) && Admissible(right) && left.remaining > 0.0 && right.remaining > 0.0
    requires MatchLeftRight(left, right).Success?
    ensures ProposeSwap(left, right) != NO_SWAP || !WithinTakerPrice(left, ProposeSwap(left, right))
  {
    hide Times, Floor, Ceil, Representable, Div, MatchLeftRight;
    var p := ProposeSwap(left, right);
    if p == NO_SWAP {
      assert IsInteger(0.0);
      if left.intent.BuyAll? && right.intent.BuyAll? {
        ExactWhenInteger(right.remaining, right.sell, right.buy);
        TimesSign(right.remaining, right.sell);
        TimesUnits(right.buy);
        assert false;
      } else if left.intent.SellAll? && right.intent.SellAll? {
        ExactWhenInteger(right.remaining, right.buy, right.sell);
        TimesSign(right.remaining, right.buy);
        TimesUnits(right.sell);
        assert false;
      }
    }
  }

  // --- A misaligned run -----------------------------------------------------------------------

  const ETH: Address := "ETH"
  const USD: Address := "USD"

  /** Sells all of 8 USD for at least 1 ETH. */
  const TAKER: Quote := MatchParams("taker", "alice", 0, SellAll, ETH, 1.0, USD, 8.0, 8.0, 10)

  /** Bought 8 of its 15 USD already, at 7.5 USD for 1 ETH. */
  const PARTLY_FILLED: Quote := MatchParams("m1", "bob", 0, BuyAll, USD, 15.0, ETH, 2.0, 7.0, 1)

  /** Untouched, at 8 USD for 1 ETH. */
  const UNTOUCHED: Quote := MatchParams("m2", "carol", 0, BuyAll, USD, 8.0, ETH, 1.0, 8.0, 7)

  const MAKERS: seq<Quote> := [PARTLY_FILLED, UNTOUCHED]

  lemma FirstMatchIsEmpty()
    ensures MatchLeftRight(TAKER, PARTLY_FILLED) == Success(NO_SWAP)
  {
    hide Floor, Ceil, Representable, Div;
    var b := RoundedDown(7.0, 2.0, 15.0);
    assert b == 0;
    assert ProposeSwap(TAKER, PARTLY_FILLED) == Swap(7.0, 0.0);
    forall n: Amount | n in {0.0, 1.0, 2.0, 7.0, 8.0, 15.0}
      ensures Representable(n, TOKEN_DECIMALS)
    {
      RepresentableIsInteger(n);
    }
  }

  lemma SecondMatchFills()
    ensures MatchLeftRight(TAKER, UNTOUCHED) == Success(Swap(8.0, 1.0))
  {
    hide MatchLeftRight;
    UnitIsOne(8.0);
    UnitIsOne(1.0);
    MatchIffFair(TAKER, UNTOUCHED, Swap(8.0, 1.0));
  }

  lemma MakersInOrder()
    ensures SortQuotes(Filter(TAKER, MAKERS)) == MAKERS
  {
    assert MAKERS[1..] == [UNTOUCHED] && MAKERS[1..][1..] == [];
    assert Filter(TAKER, MAKERS) == MAKERS by {
      assert Filter(TAKER, [UNTOUCHED]) == [UNTOUCHED];
    }
    FloorOfDiv(15, 2);
    ExactDiv(8, 1, 8);
    SortOfSorted(NotAfter, MAKERS);
  }

  lemma {:induction false} RunStep(left: Quote, rights: seq<Quote>, swap: Swap, rest: seq<Swap>)
    requires rights != [] && left.remaining > 0.0
    requires MatchLeftRight(left, rights[0]) == Success(swap)
    requires RawSwaps(After(left, swap), rights[1..]) == Success(rest)
    ensures RawSwaps(left, rights) == Success([swap] + rest)
  {
    hide MatchLeftRight;
  }

  lemma {:induction false} ExampleTail()
    ensures RawSwaps(TAKER, [UNTOUCHED]) == Success([Swap(8.0, 1.0)])
  {
    hide MatchLeftRight, RawSwaps;
    SecondMatchFills();
    var tail: seq<Quote> := [UNTOUCHED];
    EmptyRun(After(TAKER, Swap(8.0, 1.0)));
    assert tail[0] == UNTOUCHED && tail[1..] == [];
    RunStep(TAKER, tail, Swap(8.0, 1.0), []);
    assert [Swap(8.0, 1.0)] + [] == [Swap(8.0, 1.0)];
  }

  lemma ExampleShape()
    ensures |MAKERS| == 2 && MAKERS[0] == PARTLY_FILLED && MAKERS[1..] == [UNTOUCHED]
    ensures TAKER.remaining > 0.0 && After(TAKER, NO_SWAP) == TAKER
  {
  }

  lemma {:induction false} ExampleRun()
    ensures RawSwaps(TAKER, MAKERS) == Success([NO_SWAP] + [Swap(8.0, 1.0)])
  {
    hide *;
    ExampleShape();
    FirstMatchIsEmpty();
    ExampleTail();
    RunStep(TAKER, MAKERS, NO_SWAP, [Swap(8.0, 1.0)]);
  }

  lemma EmptyRun(left: Quote)
    ensures RawSwaps(left, []) == Success([])
  {
  }

  lemma {:induction false} ExampleUnits()
    ensures ToMatchUnit(TAKER, TOKEN_DECIMALS) == TAKER
    ensures AllToMatchUnit(MAKERS, TOKEN_DECIMALS) == MAKERS
    ensures AllToWei([Swap(8.0, 1.0)], TOKEN_DECIMALS) == [Swap(8.0, 1.0)]
  {
    hide ShiftedBy;
    forall n: Amount | n in {1.0, 2.0, 7.0, 8.0, 15.0}
      ensures ShiftedBy(n, 0) == n
    {
      ShiftByZero(n);
    }
  }

  /**
   * Pairing by position can name the wrong maker: the trade below takes 8 from a maker that has
   * only 7 left, because its own swap came back empty and was dropped before the pairing.
   */
  lemma {:induction false} MisalignedTradeOverfills()
    ensures CreateTrades(TAKER, MAKERS, TOKEN_DECIMALS)
            == Success([MkTrade(TAKER, PARTLY_FILLED, Swap(8.0, 1.0))])
    ensures PARTLY_FILLED.remaining < 8.0
  {
    hide RawSwaps, SortQuotes, Filter, ToMatchUnit, ToWei;
    MakersInOrder();
    ExampleRun();
    ExampleUnits();
    var raw := [NO_SWAP] + [Swap(8.0, 1.0)];
    assert raw[1..] == [Swap(8.0, 1.0)] && raw[1..][1..] == [];
    assert Positives(raw[1..]) == [Swap(8.0, 1.0)];
    assert Positives(raw) == [Swap(8.0, 1.0)];
    assert CreateSwaps(TAKER, MAKERS, TOKEN_DECIMALS) == Success([Swap(8.0, 1.0)]);
    assert ZipTrades(TAKER, [Swap(8.0, 1.0)], MAKERS) == [MkTrade(TAKER, PARTLY_FILLED, Swap(8.0, 1.0))];
  }
}
