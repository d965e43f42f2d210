// The depth view of a market: orders rounded to price levels (src/server/exchange/OrderBook.ts).
module OrderBooks {
  import opened BigNumbers
  import opened Wrappers
  import opened Sums
  import opened Sorting

  datatype Side = Bid | Ask

  datatype Order = Order(side: Side, price: Amount, amount: Amount, remaining: Amount)

  datatype BidAsk = BidAsk(price: Amount, amount: Amount)

  /** Higher bids and lower asks are better. */
  predicate Better(side: Side, p: Amount, q: Amount) {
    if side.Bid? then p > q else p < q
  }

  /** Best price first, then the larger amount. */
  function Precedes(side: Side): (Order, Order) -> bool {
    (a: Order, b: Order) => Better(side, a.price, b.price) || (a.price == b.price && a.amount >= b.amount)
  }

  function OnSide(side: Side): Order -> bool {
    (o: Order) => o.side == side
  }

  predicate NotEmpty(x: BidAsk) {
    x.amount != 0.0
  }

  /** Half-up to the given number of decimals. */
  function RoundPrice(decimalPlaces: nat, price: Amount): Amount {
    ShiftedBy(HalfUp(ShiftedBy(price, decimalPlaces)) as real, 0 - decimalPlaces)
  }

  function ToBidAsk(decimalPlaces: nat, o: Order): BidAsk {
    BidAsk(RoundPrice(decimalPlaces, o.price), o.remaining)
  }

  function ToBidAsks(decimalPlaces: nat, orders: seq<Order>): (r: seq<BidAsk>)
    ensures |r| == |orders|
    ensures forall i :: 0 <= i < |r| ==> r[i] == ToBidAsk(decimalPlaces, orders[i])
  {
    if orders == [] then []
    else ToBidAsks(decimalPlaces, orders[..|orders| - 1]) + [ToBidAsk(decimalPlaces, orders[|orders| - 1])]
  }

  function SortedSide(side: Side, orders: seq<Order>): seq<Order> {
    Sort(Precedes(side), Keep(OnSide(side), orders))
  }

  function Level3(side: Side, decimalPlaces: nat, orders: seq<Order>): seq<BidAsk> {
    Keep(NotEmpty, ToBidAsks(decimalPlaces, SortedSide(side, orders)))
  }

  /** Splits a list between neighbours of different price. */
  function GroupWith(xs: seq<BidAsk>): (groups: seq<seq<BidAsk>>)
    ensures groups == [] <==> xs == []
    ensures forall i :: 0 <= i < |groups| ==> groups[i] != []
  {
    if xs == [] then []
    else
      var rest := GroupWith(xs[1..]);
      if |xs| > 1 && xs[0].price == xs[1].price then [[xs[0]] + rest[0]] + rest[1..]
      else [[xs[0]]] + rest
  }

  /** The running aggregate throws on a different price. */
  function AggregateFrom(acc: BidAsk, xs: seq<BidAsk>): Option<BidAsk>
    decreases |xs|
  {
    if xs == [] then Some(acc)
    else if acc.price != xs[0].price then None
    else AggregateFrom(BidAsk(acc.price, acc.amount + xs[0].amount), xs[1..])
  }

  function AggregateBidAsks(xs: seq<BidAsk>): Option<BidAsk>
    requires xs != []
  {
    AggregateFrom(xs[0], xs[1..])
  }

  function AggregateAll(groups: seq<seq<BidAsk>>): Option<seq<BidAsk>>
    requires forall i :: 0 <= i < |groups| ==> groups[i] != []
  {
    if groups == [] then Some([])
    else
      var first := AggregateBidAsks(groups[0]);
      var rest := AggregateAll(groups[1..]);
      if first.None? || rest.None? then None else Some([first.value] + rest.value)
  }

  function Level2(side: Side, decimalPlaces: nat, orders: seq<Order>): Option<seq<BidAsk>> {
    AggregateAll(GroupWith(Level3(side, decimalPlaces, orders)))
  }

  function Level1(side: Side, decimalPlaces: nat, orders: seq<Order>): Option<seq<BidAsk>> {
    var levels := Level2(side, decimalPlaces, orders);
    if levels.None? then None else Some(if levels.value == [] then [] else [levels.value[0]])
  }

  // --- What a depth view is -------------------------------------------------------------------

  function AmountOf(): BidAsk -> Amount {
    (x: BidAsk) => x.amount
  }

  function AmountAt(price: Amount): BidAsk -> Amount {
    (x: BidAsk) => if x.price == price then x.amount else 0.0
  }

  function Remaining(side: Side): Order -> Amount {
    (o: Order) => if o.side == side then o.remaining else 0.0
  }

  function RemainingAt(side: Side, decimalPlaces: nat, price: Amount): Order -> Amount {
    (o: Order) => if o.side == side && RoundPrice(decimalPlaces, o.price) == price then o.remaining else 0.0
  }

  /** Some order of this side with something remaining rounds to this price. */
  ghost predicate Quoted(side: Side, decimalPlaces: nat, orders: seq<Order>, price: Amount) {
    exists o :: o in orders && o.side == side && o.remaining != 0.0 && RoundPrice(decimalPlaces, o.price) == price
  }

  predicate Listed(levels: seq<BidAsk>, price: Amount) {
    exists i :: 0 <= i < |levels| && levels[i].price == price
  }

  /**
   * One level for every rounded price that some live order has, strictly from best to worst, each
   * with everything that remains at that price anywhere in the list of orders.
   */
  ghost predicate IsDepth(side: Side, decimalPlaces: nat, orders: seq<Order>, levels: seq<BidAsk>) {
    && (forall i, j :: 0 <= i < j < |levels| ==> Better(side, levels[i].price, levels[j].price))
    && (forall price :: Listed(levels, price) <==> Quoted(side, decimalPlaces, orders, price))
    && (forall i :: 0 <= i < |levels| ==>
          levels[i].amount == SumBy(orders, RemainingAt(side, decimalPlaces, levels[i].price)))
  }

  // --- Rounding keeps the order ---------------------------------------------------------------

  lemma ShiftMonotone(x: real, y: real, places: int)
    requires x <= y
    ensures ShiftedBy(x, places) <= ShiftedBy(y, places)
  {
    if places >= 0 {
      var k := Pow10(places) as real;
      assert (y - x) * k >= 0.0;
    }
  }

  lemma RoundPriceMonotone(decimalPlaces: nat, p: Amount, q: Amount)
    requires p <= q
    ensures RoundPrice(decimalPlaces, p) <= RoundPrice(decimalPlaces, q)
  {
    hide ShiftedBy, HalfUp;
    ShiftMonotone(p, q, decimalPlaces);
    HalfUpMonotone(ShiftedBy(p, decimalPlaces), ShiftedBy(q, decimalPlaces));
    ShiftMonotone(HalfUp(ShiftedBy(p, decimalPlaces)) as real, HalfUp(ShiftedBy(q, decimalPlaces)) as real, 0 - decimalPlaces);
  }

  lemma ShiftBack(k: Amount, decimalPlaces: nat)
    ensures Times(ShiftedBy(k, 0 - decimalPlaces), Pow10(decimalPlaces) as real) == k
  {
    var scale := Pow10(decimalPlaces) as real;
    if decimalPlaces == 0 {
      assert Pow10(0) == 1;
      assert ShiftedBy(k, 0) == k;
    } else {
      assert k / scale * scale == k;
    }
  }

  /** A rounded price is the nearest of those with so many decimals, and of two as near the higher. */
  lemma {:induction false} RoundPriceIsNearest(decimalPlaces: nat, price: Amount)
    requires price >= 0.0
    ensures var scale := Pow10(decimalPlaces) as real;
      var rounded := Times(RoundPrice(decimalPlaces, price), scale);
      IsInteger(rounded) && rounded - 0.5 <= Times(price, scale) < rounded + 0.5
  {
    hide Times;
    var x := ShiftedBy(price, decimalPlaces);
    assert x == Times(price, Pow10(decimalPlaces) as real) by { SameProduct(price, Pow10(decimalPlaces) as real); }
    TimesSign(price, Pow10(decimalPlaces) as real);
    var k := HalfUp(x);
    ShiftBack(k as real, decimalPlaces);
    assert (k as real).Floor == k;
  }

  lemma SameProduct(a: Amount, b: Amount)
    ensures Times(a, b) == a * b
  {
  }

  ghost predicate BestFirst(side: Side, xs: seq<BidAsk>) {
    forall i, j :: 0 <= i < j < |xs| ==> !Better(side, xs[j].price, xs[i].price)
  }

  lemma PrecedesIsOrder(side: Side)
    ensures TotalPreorder(Precedes(side))
  {
  }

  /** One side of the book: all its orders, best price first and, at one price, the larger amount first. */
  lemma {:induction false} SideInOrder(side: Side, orders: seq<Order>)
    ensures multiset(SortedSide(side, orders)) == multiset(Keep(OnSide(side), orders))
    ensures forall i, j :: 0 <= i < j < |SortedSide(side, orders)| ==>
      var a, b := SortedSide(side, orders)[i], SortedSide(side, orders)[j];
      (if side.Bid? then a.price > b.price else a.price < b.price) || (a.price == b.price && a.amount >= b.amount)
  {
    hide Sort, Keep;
    PrecedesIsOrder(side);
    SortSorted(Precedes(side), Keep(OnSide(side), orders));
  }

  lemma {:induction false} KeepBestFirst(side: Side, xs: seq<BidAsk>)
    requires BestFirst(side, xs)
    ensures BestFirst(side, Keep(NotEmpty, xs))
  {
    if xs != [] {
      var n := |xs| - 1;
      KeepBestFirst(side, xs[..n]);
      KeptAreMembers(NotEmpty, xs[..n]);
      var earlier := Keep(NotEmpty, xs[..n]);
      forall i | 0 <= i < |earlier|
        ensures !Better(side, xs[n].price, earlier[i].price)
      {
        assert earlier[i] in xs[..n];
      }
    }
  }

  lemma {:induction false} Level3BestFirst(side: Side, decimalPlaces: nat, orders: seq<Order>)
    ensures BestFirst(side, Level3(side, decimalPlaces, orders))
  {
    hide RoundPrice, Keep, Sort;
    PrecedesIsOrder(side);
    SortSorted(Precedes(side), Keep(OnSide(side), orders));
    var sorted := SortedSide(side, orders);
    var xs := ToBidAsks(decimalPlaces, sorted);
    forall i, j | 0 <= i < j < |xs|
      ensures !Better(side, xs[j].price, xs[i].price)
    {
      assert Precedes(side)(sorted[i], sorted[j]);
      if side.Bid? {
        RoundPriceMonotone(decimalPlaces, sorted[j].price, sorted[i].price);
      } else {
        RoundPriceMonotone(decimalPlaces, sorted[i].price, sorted[j].price);
      }
    }
    KeepBestFirst(side, xs);
  }

  // --- Grouping neighbours is grouping globally -----------------------------------------------

  /** What grouping and aggregating amount to, in one pass. */
  function Levels(xs: seq<BidAsk>): (levels: seq<BidAsk>)
    ensures levels == [] <==> xs == []
    ensures xs != [] ==> levels[0].price == xs[0].price
  {
    if xs == [] then []
    else
      var rest := Levels(xs[1..]);
      if |xs| > 1 && xs[0].price == xs[1].price then
        [BidAsk(xs[0].price, xs[0].amount + rest[0].amount)] + rest[1..]
      else
        [xs[0]] + rest
  }

  function Raised(x: Option<BidAsk>, amount: Amount): Option<BidAsk> {
    if x.None? then None else Some(BidAsk(x.value.price, x.value.amount + amount))
  }

  lemma {:induction false} AggregateRaised(acc: BidAsk, amount: Amount, xs: seq<BidAsk>)
    ensures AggregateFrom(BidAsk(acc.price, acc.amount + amount), xs) == Raised(AggregateFrom(acc, xs), amount)
    decreases |xs|
  {
    if xs != [] && acc.price == xs[0].price {
      var next := BidAsk(acc.price, acc.amount + xs[0].amount);
      AggregateRaised(next, amount, xs[1..]);
      assert acc.amount + amount + xs[0].amount == next.amount + amount;
    }
  }

  lemma AggregateOneMore(x: BidAsk, xs: seq<BidAsk>)
    requires xs != [] && x.price == xs[0].price
    ensures AggregateBidAsks([x] + xs) == Raised(AggregateBidAsks(xs), x.amount)
  {
    assert ([x] + xs)[1..] == xs;
    AggregateRaised(xs[0], x.amount, xs[1..]);
    assert xs[0].amount + x.amount == x.amount + xs[0].amount;
  }

  lemma AggregateCons(first: seq<BidAsk>, rest: seq<seq<BidAsk>>)
    requires first != [] && forall i :: 0 <= i < |rest| ==> rest[i] != []
    ensures AggregateAll([first] + rest)
            == if AggregateBidAsks(first).None? || AggregateAll(rest).None? then None
               else Some([AggregateBidAsks(first).value] + AggregateAll(rest).value)
  {
    assert ([first] + rest)[1..] == rest;
  }

  /** A group starts where the list it was made of starts. */
  lemma GroupsStart(xs: seq<BidAsk>)
    requires xs != []
    ensures GroupWith(xs)[0][0] == xs[0]
  {
  }

  /** No group mixes prices, so aggregation never throws. */
  lemma {:induction false} AggregateNeverThrows(xs: seq<BidAsk>)
    ensures AggregateAll(GroupWith(xs)) == Some(Levels(xs))
    decreases |xs|
  {
    if xs != [] {
      AggregateNeverThrows(xs[1..]);
      var rest := GroupWith(xs[1..]);
      if |xs| > 1 && xs[0].price == xs[1].price {
        GroupsStart(xs[1..]);
        AggregateOneMore(xs[0], rest[0]);
        AggregateCons(rest[0], rest[1..]);
        assert [rest[0]] + rest[1..] == rest;
        AggregateCons([xs[0]] + rest[0], rest[1..]);
        hide AggregateAll, AggregateBidAsks, GroupWith;
        assert AggregateAll(rest).value[1..] == AggregateAll(rest[1..]).value;
      } else {
        AggregateCons([xs[0]], rest);
        assert [xs[0]][1..] == [];
      }
    }
  }

  lemma {:induction false} LevelsStrict(side: Side, xs: seq<BidAsk>)
    requires BestFirst(side, xs)
    ensures forall i, j :: 0 <= i < j < |Levels(xs)| ==> Better(side, Levels(xs)[i].price, Levels(xs)[j].price)
    decreases |xs|
  {
    if xs != [] {
      LevelsStrict(side, xs[1..]);
      var rest := Levels(xs[1..]);
      assert |xs| > 1 && xs[0].price != xs[1].price ==> Better(side, xs[0].price, rest[0].price);
      assert forall j :: 0 < j < |rest| ==> Better(side, rest[0].price, rest[j].price);
    }
  }

  lemma ListedFirst(xs: seq<BidAsk>, price: Amount)
    requires xs != []
    ensures Listed(xs, price) <==> xs[0].price == price || Listed(xs[1..], price)
  {
    if i :| 0 < i < |xs| && xs[i].price == price {
      assert xs[1..][i - 1].price == price;
    }
    if i :| 0 <= i < |xs[1..]| && xs[1..][i].price == price {
      assert xs[i + 1].price == price;
    }
  }

  lemma {:induction false} LevelsList(xs: seq<BidAsk>, price: Amount)
    ensures Listed(Levels(xs), price) <==> Listed(xs, price)
    decreases |xs|
  {
    if xs != [] {
      LevelsList(xs[1..], price);
      var levels, rest := Levels(xs), Levels(xs[1..]);
      ListedFirst(xs, price);
      ListedFirst(levels, price);
      hide Listed;
      if |xs| > 1 && xs[0].price == xs[1].price {
        ListedFirst(rest, price);
        assert levels[1..] == rest[1..];
      } else {
        assert levels[1..] == rest;
      }
    }
  }

  lemma SumFirst(xs: seq<BidAsk>, f: BidAsk -> Amount)
    requires xs != []
    ensures SumBy(xs, f) == f(xs[0]) + SumBy(xs[1..], f)
  {
    assert xs == [xs[0]] + xs[1..];
    SumConcat([xs[0]], xs[1..], f);
    SumAppend([], xs[0], f);
    assert [] + [xs[0]] == [xs[0]];
  }

  /** Each level holds everything at its price, wherever it stood in the list. */
  lemma {:induction false} LevelsHoldAll(side: Side, xs: seq<BidAsk>)
    requires BestFirst(side, xs)
    ensures forall i :: 0 <= i < |Levels(xs)| ==> Levels(xs)[i].amount == SumBy(xs, AmountAt(Levels(xs)[i].price))
    decreases |xs|
  {
    if xs != [] {
      hide SumBy;
      LevelsHoldAll(side, xs[1..]);
      LevelsStrict(side, xs);
      var levels, rest := Levels(xs), Levels(xs[1..]);
      forall i | 0 <= i < |levels|
        ensures levels[i].amount == SumBy(xs, AmountAt(levels[i].price))
      {
        SumFirst(xs, AmountAt(levels[i].price));
        if i > 0 {
          assert Better(side, levels[0].price, levels[i].price);
        } else if !(|xs| > 1 && xs[0].price == xs[1].price) {
          NoneAtFirstPrice(side, xs);
        }
      }
    }
  }

  lemma NoneAtFirstPrice(side: Side, xs: seq<BidAsk>)
    requires xs != [] && BestFirst(side, xs) && (|xs| > 1 ==> xs[0].price != xs[1].price)
    ensures SumBy(xs[1..], AmountAt(xs[0].price)) == 0.0
  {
    hide SumBy;
    forall j | 0 <= j < |xs[1..]|
      ensures AmountAt(xs[0].price)(xs[1..][j]) == 0.0
    {
      assert !Better(side, xs[1].price, xs[0].price);
      assert j > 0 ==> !Better(side, xs[j + 1].price, xs[1].price);
    }
    SumZero(xs[1..], AmountAt(xs[0].price));
  }

  lemma {:induction false} LevelsAddUp(xs: seq<BidAsk>)
    ensures SumBy(Levels(xs), AmountOf()) == SumBy(xs, AmountOf())
    decreases |xs|
  {
    if xs != [] {
      LevelsAddUp(xs[1..]);
      hide SumBy;
      var levels, rest := Levels(xs), Levels(xs[1..]);
      SumFirst(xs, AmountOf());
      SumFirst(levels, AmountOf());
      if |xs| > 1 && xs[0].price == xs[1].price {
        SumFirst(rest, AmountOf());
        assert levels[1..] == rest[1..];
      } else {
        assert levels[1..] == rest;
      }
    }
  }

  // --- From price levels back to orders -------------------------------------------------------

  lemma {:induction false} MappedSum(decimalPlaces: nat, orders: seq<Order>, f: BidAsk -> Amount, g: Order -> Amount)
    requires forall i :: 0 <= i < |orders| ==> f(ToBidAsk(decimalPlaces, orders[i])) == g(orders[i])
    ensures SumBy(ToBidAsks(decimalPlaces, orders), f) == SumBy(orders, g)
  {
    if orders != [] {
      var n := |orders| - 1;
      MappedSum(decimalPlaces, orders[..n], f, g);
      SumAppend(ToBidAsks(decimalPlaces, orders[..n]), ToBidAsk(decimalPlaces, orders[n]), f);
    }
  }

  lemma SideMembers(side: Side, orders: seq<Order>)
    ensures forall o :: o in SortedSide(side, orders) <==> o in orders && o.side == side
  {
    hide Keep, Sort;
    KeptAreMembers(OnSide(side), orders);
    SameMembers(SortedSide(side, orders), Keep(OnSide(side), orders));
  }

  /** A sum over the rounded list is a sum over the orders, whatever their order. */
  lemma {:induction false} Level3Sum(side: Side, decimalPlaces: nat, orders: seq<Order>, f: BidAsk -> Amount, g: Order -> Amount)
    requires forall x: BidAsk :: x.amount == 0.0 ==> f(x) == 0.0
    requires forall o: Order :: g(o) == if o.side == side then f(ToBidAsk(decimalPlaces, o)) else 0.0
    ensures SumBy(Level3(side, decimalPlaces, orders), f) == SumBy(orders, g)
  {
    hide SumBy, Keep, Sort, ToBidAsk;
    var sorted := SortedSide(side, orders);
    SideMembers(side, orders);
    SumOfKept(NotEmpty, ToBidAsks(decimalPlaces, sorted), f);
    assert forall i :: 0 <= i < |sorted| ==> sorted[i] in sorted;
    MappedSum(decimalPlaces, sorted, f, g);
    SumPermuted(sorted, Keep(OnSide(side), orders), g);
    SumOfKept(OnSide(side), orders, g);
  }

  lemma {:induction false} Level3Quotes(side: Side, decimalPlaces: nat, orders: seq<Order>, price: Amount)
    ensures Listed(Level3(side, decimalPlaces, orders), price) <==> Quoted(side, decimalPlaces, orders, price)
  {
    hide Keep, Sort, RoundPrice;
    var xs := Level3(side, decimalPlaces, orders);
    var sorted := SortedSide(side, orders);
    var mapped := ToBidAsks(decimalPlaces, sorted);
    SideMembers(side, orders);
    KeptAreMembers(NotEmpty, mapped);
    if k :| 0 <= k < |xs| && xs[k].price == price {
      assert xs[k] in mapped;
      var i :| 0 <= i < |mapped| && mapped[i] == xs[k];
      assert sorted[i] in sorted;
    }
    if o :| o in orders && o.side == side && o.remaining != 0.0 && RoundPrice(decimalPlaces, o.price) == price {
      assert o in sorted;
      var i :| 0 <= i < |sorted| && sorted[i] == o;
      assert mapped[i] in mapped && mapped[i] == ToBidAsk(decimalPlaces, o);
      var k :| 0 <= k < |xs| && xs[k] == mapped[i];
    }
  }

  // --- The depth view -------------------------------------------------------------------------

  /** Aggregation never throws, and the second level is the depth of the orders. */
  lemma {:induction false} Level2IsDepth(side: Side, decimalPlaces: nat, orders: seq<Order>)
    ensures Level2(side, decimalPlaces, orders).Some?
    ensures IsDepth(side, decimalPlaces, orders, Level2(side, decimalPlaces, orders).value)
  {
    hide SumBy, Level3, RoundPrice, Quoted, Levels, Listed;
    var xs := Level3(side, decimalPlaces, orders);
    Level3BestFirst(side, decimalPlaces, orders);
    AggregateNeverThrows(xs);
    LevelsStrict(side, xs);
    LevelsHoldAll(side, xs);
    var levels := Levels(xs);
    forall i | 0 <= i < |levels|
      ensures levels[i].amount == SumBy(orders, RemainingAt(side, decimalPlaces, levels[i].price))
    {
      Level3Sum(side, decimalPlaces, orders, AmountAt(levels[i].price), RemainingAt(side, decimalPlaces, levels[i].price));
    }
    forall price
      ensures Listed(levels, price) <==> Quoted(side, decimalPlaces, orders, price)
    {
      Level3Quotes(side, decimalPlaces, orders, price);
      LevelsList(xs, price);
    }
  }

  /** There is one depth view of a list of orders: the pipeline computes it. */
  lemma {:induction false} DepthIsUnique(side: Side, decimalPlaces: nat, orders: seq<Order>, levels: seq<BidAsk>)
    requires IsDepth(side, decimalPlaces, orders, levels)
    ensures Level2(side, decimalPlaces, orders) == Some(levels)
  {
    hide Level2, SumBy, Quoted;
    Level2IsDepth(side, decimalPlaces, orders);
    var computed := Level2(side, decimalPlaces, orders).value;
    SamePricesSameOrder(side, computed, levels);
    forall i | 0 <= i < |levels|
      ensures computed[i] == levels[i]
    {
      assert computed[i].price == levels[i].price;
      assert computed[i].amount == SumBy(orders, RemainingAt(side, decimalPlaces, computed[i].price));
    }
    assert computed == levels;
  }

  lemma {:induction false} SamePricesSameOrder(side: Side, xs: seq<BidAsk>, ys: seq<BidAsk>)
    requires forall i, j :: 0 <= i < j < |xs| ==> Better(side, xs[i].price, xs[j].price)
    requires forall i, j :: 0 <= i < j < |ys| ==> Better(side, ys[i].price, ys[j].price)
    requires forall price :: Listed(xs, price) <==> Listed(ys, price)
    ensures |xs| == |ys| && forall i :: 0 <= i < |xs| ==> xs[i].price == ys[i].price
    decreases |xs|
  {
    assert forall i :: 0 <= i < |xs| ==> Listed(xs, xs[i].price);
    assert forall i :: 0 <= i < |ys| ==> Listed(ys, ys[i].price);
    if xs != [] && ys != [] {
      assert Listed(ys, xs[0].price) && Listed(xs, ys[0].price);
      assert xs[0].price == ys[0].price;
      forall price
        ensures Listed(xs[1..], price) <==> Listed(ys[1..], price)
      {
        TailLists(side, xs, price);
        TailLists(side, ys, price);
      }
      SamePricesSameOrder(side, xs[1..], ys[1..]);
    }
  }

  lemma TailLists(side: Side, xs: seq<BidAsk>, price: Amount)
    requires xs != [] && forall i, j :: 0 <= i < j < |xs| ==> Better(side, xs[i].price, xs[j].price)
    ensures Listed(xs[1..], price) <==> Listed(xs, price) && price != xs[0].price
  {
    ListedFirst(xs, price);
    assert forall i :: 0 <= i < |xs[1..]| ==> Better(side, xs[0].price, xs[1..][i].price);
  }

  /** Nothing is lost or counted twice: the levels of a side hold all that remains on it. */
  lemma {:induction false} TotalIsKept(side: Side, decimalPlaces: nat, orders: seq<Order>)
    ensures Level2(side, decimalPlaces, orders).Some?
    ensures SumBy(Level2(side, decimalPlaces, orders).value, AmountOf()) == SumBy(orders, Remaining(side))
  {
    hide SumBy, Level3, Levels;
    var xs := Level3(side, decimalPlaces, orders);
    AggregateNeverThrows(xs);
    LevelsAddUp(xs);
    Level3Sum(side, decimalPlaces, orders, AmountOf(), Remaining(side));
  }

  /** The first level is the best price on offer, with everything at that price; empty if nothing is. */
  lemma {:induction false} Level1IsBest(side: Side, decimalPlaces: nat, orders: seq<Order>)
    ensures Level1(side, decimalPlaces, orders).Some?
    ensures var top := Level1(side, decimalPlaces, orders).value;
      && (top == [] <==> forall price :: !Quoted(side, decimalPlaces, orders, price))
      && (top != [] ==>
            && |top| == 1
            && Quoted(side, decimalPlaces, orders, top[0].price)
            && top[0].amount == SumBy(orders, RemainingAt(side, decimalPlaces, top[0].price))
            && forall price :: Quoted(side, decimalPlaces, orders, price) ==> !Better(side, price, top[0].price))
  {
    hide SumBy, Level2, Quoted;
    Level2IsDepth(side, decimalPlaces, orders);
    var levels := Level2(side, decimalPlaces, orders).value;
    if levels != [] {
      assert Listed(levels, levels[0].price);
    }
  }
}
