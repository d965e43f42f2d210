// Matching of one taker against price-sorted makers, with rounding (src/server/exchange/Matching.ts).
module Matching {
  import opened BasicTypes
  import opened BigNumbers
  import opened Sorting
  import opened Wrappers

  datatype MatchParams = MatchParams(
    approvalId: Id,
    owner: Address,
    round: Round,
    intent: Intent,
    buyAsset: Address,
    buy: Amount,
    sellAsset: Address,
    sell: Amount,
    remaining: Amount,
    priority: int)

  /** Order validation admits only positive amounts, so prices are always defined. */
  type Quote = p: MatchParams | p.buy > 0.0 && p.sell > 0.0
    witness MatchParams("", "", 0, BuyAll, "", 1.0, "", 1.0, 1.0, 0)

  datatype Swap = Swap(fromLeft: Amount, fromRight: Amount)

  const NO_SWAP := Swap(0.0, 0.0)

  datatype MatchError = NonIntegerAmount | FractionalFromRight | FractionalFromLeft

  datatype Trade = Trade(leftId: Id, leftSell: Amount, rightId: Id, rightSell: Amount, round: Round)

  datatype FillParams = FillParams(approvalId: Id, round: Round, buy: Amount, sell: Amount)

  function Price(offer: Quote): Amount {
    Div(offer.buy, offer.sell)
  }

  function MulByPrice(amount: Amount, offer: Quote): Amount {
    Div(Times(amount, offer.buy), offer.sell)
  }

  function DivByPrice(amount: Amount, offer: Quote): Amount {
    Div(Times(amount, offer.sell), offer.buy)
  }

  predicate IntegerAmounts(p: MatchParams) {
    && Representable(p.buy, TOKEN_DECIMALS)
    && Representable(p.sell, TOKEN_DECIMALS)
    && Representable(p.remaining, TOKEN_DECIMALS)
  }

  /** The amounts before the taker's limit price and integrality are looked at. */
  function ProposeSwap(left: Quote, right: Quote): Swap {
    if left.intent.BuyAll? then
      var rightSellAvailable := if right.intent.BuyAll? then DivByPrice(right.remaining, right) else right.remaining;
      var fromRight := Min(left.remaining, rightSellAvailable);
      Swap(Ceil(MulByPrice(fromRight, right), TOKEN_DECIMALS), fromRight)
    else
      var rightBuyAvailable := if right.intent.BuyAll? then right.remaining else MulByPrice(right.remaining, right);
      var fromLeft := Min(left.remaining, rightBuyAvailable);
      Swap(fromLeft, Floor(DivByPrice(fromLeft, right), TOKEN_DECIMALS))
  }

  function MatchLeftRight(left: Quote, right: Quote): Result<Swap, MatchError> {
    if !IntegerAmounts(left) || !IntegerAmounts(right) then
      Failure(NonIntegerAmount)
    else
      var proposed := ProposeSwap(left, right);
      var takerPriceBroken := Times(left.sell, proposed.fromRight) < Times(proposed.fromLeft, left.buy);
      var swap := if takerPriceBroken then NO_SWAP else proposed;
      if !Representable(swap.fromRight, TOKEN_DECIMALS) then Failure(FractionalFromRight)
      else if !Representable(swap.fromLeft, TOKEN_DECIMALS) then Failure(FractionalFromLeft)
      else Success(swap)
  }

  /** What one swap takes off the taker's remainder. */
  function Filled(intent: Intent, swap: Swap): Amount {
    if intent.BuyAll? then swap.fromRight else swap.fromLeft
  }

  /** One swap per maker visited, zero swaps included, until the taker has nothing left. */
  function RawSwaps(left: Quote, rights: seq<Quote>): Result<seq<Swap>, MatchError>
    decreases |rights|
  {
    if rights == [] || left.remaining <= 0.0 then
      Success([])
    else
      var swap :- MatchLeftRight(left, rights[0]);
      var rest :- RawSwaps(left.(remaining := left.remaining - Filled(left.intent, swap)), rights[1..]);
      Success([swap] + rest)
  }

  predicate Positive(swap: Swap) {
    swap.fromLeft > 0.0 && swap.fromRight > 0.0
  }

  function Positives(swaps: seq<Swap>): (r: seq<Swap>)
    ensures forall swap :: swap in r <==> swap in swaps && Positive(swap)
    ensures |r| <= |swaps|
  {
    if swaps == [] then []
    else (if Positive(swaps[0]) then [swaps[0]] else []) + Positives(swaps[1..])
  }

  /** The whole amount that the taker's intent asks to fill. */
  function TotalToFill(left: MatchParams): Amount {
    if left.intent.BuyAll? then left.buy else left.sell
  }

  function MatchLeft(left: Quote, rights: seq<Quote>): Result<seq<Swap>, MatchError> {
    var swaps :- RawSwaps(left.(remaining := TotalToFill(left)), rights);
    Success(Positives(swaps))
  }

  predicate PriceMatch(left: MatchParams, right: MatchParams) {
    Times(left.buy, right.buy) <= Times(left.sell, right.sell)
  }

  predicate IsMatchable(left: MatchParams, right: MatchParams) {
    PriceMatch(left, right) && left.buyAsset == right.sellAsset && left.sellAsset == right.buyAsset
  }

  predicate Selected(left: MatchParams, right: MatchParams) {
    IsMatchable(left, right) && left.remaining >= 1.0 && right.remaining >= 1.0
  }

  function Filter(left: Quote, rights: seq<Quote>): (r: seq<Quote>)
    ensures forall right :: right in r <==> right in rights && Selected(left, right)
  {
    if rights == [] then []
    else (if Selected(left, rights[0]) then [rights[0]] else []) + Filter(left, rights[1..])
  }

  /** Cheaper makers first, then older ones. */
  predicate NotAfter(a: Quote, b: Quote) {
    Price(a) < Price(b) || (Price(a) == Price(b) && a.priority <= b.priority)
  }

  function SortQuotes(quotes: seq<Quote>): (r: seq<Quote>)
    ensures multiset(r) == multiset(quotes) && |r| == |quotes|
  {
    Sort(NotAfter, quotes)
  }

  function ToMatchUnit(p: Quote, decimalPlaces: int): (r: Quote) {
    var places := TOKEN_DECIMALS - decimalPlaces;
    ShiftPositive(p.buy, -places);
    ShiftPositive(p.sell, -places);
    p.(buy := ShiftedBy(p.buy, -places), sell := ShiftedBy(p.sell, -places),
       remaining := ShiftedBy(p.remaining, -places))
  }

  lemma ShiftPositive(n: Amount, places: int)
    requires n > 0.0
    ensures ShiftedBy(n, places) > 0.0
  {
  }

  function ToWei(swap: Swap, decimalPlaces: int): Swap {
    var places := TOKEN_DECIMALS - decimalPlaces;
    Swap(ShiftedBy(swap.fromLeft, places), ShiftedBy(swap.fromRight, places))
  }

  function AllToMatchUnit(quotes: seq<Quote>, decimalPlaces: int): (r: seq<Quote>)
    ensures |r| == |quotes|
    ensures forall i :: 0 <= i < |r| ==> r[i] == ToMatchUnit(quotes[i], decimalPlaces)
  {
    if quotes == [] then [] else [ToMatchUnit(quotes[0], decimalPlaces)] + AllToMatchUnit(quotes[1..], decimalPlaces)
  }

  function AllToWei(swaps: seq<Swap>, decimalPlaces: int): (r: seq<Swap>)
    ensures |r| == |swaps|
    ensures forall i :: 0 <= i < |r| ==> r[i] == ToWei(swaps[i], decimalPlaces)
  {
    if swaps == [] then [] else [ToWei(swaps[0], decimalPlaces)] + AllToWei(swaps[1..], decimalPlaces)
  }

  function CreateSwaps(left: Quote, sortedRights: seq<Quote>, decimalPlaces: int): Result<seq<Swap>, MatchError> {
    var swaps :- MatchLeft(ToMatchUnit(left, decimalPlaces), AllToMatchUnit(sortedRights, decimalPlaces));
    Success(AllToWei(swaps, decimalPlaces))
  }

  function MkTrade(left: Quote, right: Quote, swap: Swap): Trade {
    Trade(left.approvalId, swap.fromLeft, right.approvalId, swap.fromRight, left.round)
  }

  /** Pairs by position; the longer list is cut. */
  function ZipTrades(left: Quote, swaps: seq<Swap>, rights: seq<Quote>): (r: seq<Trade>)
    ensures |r| == if |swaps| < |rights| then |swaps| else |rights|
    ensures forall i :: 0 <= i < |r| ==> r[i] == MkTrade(left, rights[i], swaps[i])
  {
    if swaps == [] || rights == [] then []
    else [MkTrade(left, rights[0], swaps[0])] + ZipTrades(left, swaps[1..], rights[1..])
  }

  function CreateTrades(left: Quote, rights: seq<Quote>, decimalPlaces: int): Result<seq<Trade>, MatchError> {
    var sorted := SortQuotes(Filter(left, rights));
    var swaps :- CreateSwaps(left, sorted, decimalPlaces);
    Success(ZipTrades(left, swaps, sorted))
  }

  /** The taker's fill and the maker's fill of one trade. */
  function CreateFillParams(trade: Trade): (FillParams, FillParams) {
    (FillParams(trade.leftId, trade.round, trade.rightSell, trade.leftSell),
     FillParams(trade.rightId, trade.round, trade.leftSell, trade.rightSell))
  }
}
