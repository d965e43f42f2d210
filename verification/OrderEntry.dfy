// Which orders the exchange takes, and when matching them cannot throw.
module OrderEntry {
  import opened BasicTypes
  import opened BigNumbers
  import opened Wrappers
  import opened Matching
  import opened MatchingProofs
  import opened MatchingRuns
  import opened MatchingOutcomes
  import opened Ledgers
  import opened LedgerBalances
  import opened LedgerBooks
  import opened LedgerSound
  import opened LedgerFaults
  import opened Refusals
  import opened Exchanges
  import opened Settlement
  import opened OrderFlow

  // --- Markets --------------------------------------------------------------------------------

  /** A bid buys all of a base asset with the quote asset; an ask sells all of the base for it. */
  predicate TradesIn(base: Address, quote: Address, a: Approval) {
    if a.intent.BuyAll? then a.buyAsset == base && a.sellAsset == quote else a.sellAsset == base && a.buyAsset == quote
  }

  /** The order is a bid or an ask in one of the markets. */
  predicate Listable(cfg: Config, a: Approval) {
    exists market :: market in cfg.markets && TradesIn(market.0, market.1, a)
  }

  lemma ListableIff(cfg: Config, a: Approval)
    ensures MarketOf(a) in cfg.markets <==> Listable(cfg, a)
  {
    assert TradesIn(MarketOf(a).0, MarketOf(a).1, a);
    forall market | market in cfg.markets && TradesIn(market.0, market.1, a)
      ensures market == MarketOf(a)
    {
      assert market == (market.0, market.1);
    }
  }

  lemma AddOrderNeverSaysSymbol(cfg: Config, s: Ledger, round: Round, later: Round, order: Approval, fee: Approval, id: Id)
    ensures AddOrder(cfg, s, round, later, order, fee, id).error != Some(InvalidSymbol)
    ensures AddOrder(cfg, s, round, later, order, fee, id).error != Some(PrecisionError)
  {
    hide InsertOrder, ProcessFeeApproval, ProcessOrderApproval, IsRegistered;
  }

  /**
   * An order is refused for its market exactly when no market has it as a bid or an ask, whatever else is
   * wrong with it; then for its owner; then for its precision. Such a refusal leaves the ledger untouched.
   */
  lemma {:induction false} EntryRefusedIff(cfg: Config, s: Ledger, round: Round, later: Round, order: Approval, fee: Approval, id: Id)
    ensures var result := CreateOrder(cfg, s, round, later, order, fee, id);
      var precise := WholeUnits(order.buy, Unit(cfg.decimalPlaces)) && WholeUnits(order.sell, Unit(cfg.decimalPlaces));
      && (result.error == Some(InvalidSymbol) <==> !Listable(cfg, order))
      && (Listable(cfg, order) && !IsRegistered(s.wallets, order.owner) ==> result.error == Some(UnregisteredUser))
      && (result.error == Some(PrecisionError) <==> Listable(cfg, order) && IsRegistered(s.wallets, order.owner) && !precise)
      && (if Listable(cfg, order) && IsRegistered(s.wallets, order.owner) && precise
          then result == AddOrder(cfg, s, round, later, order, fee, id)
          else result.ledger == s && result.trades == [])
  {
    hide AddOrder, Representable, IsRegistered, WholeUnits, MarketOf, Listable;
    ListableIff(cfg, order);
    AddOrderNeverSaysSymbol(cfg, s, round, later, order, fee, id);
    PreciseIffWhole(order.buy, cfg.decimalPlaces);
    PreciseIffWhole(order.sell, cfg.decimalPlaces);
  }

  /** An amount is on the exchange's precision when it is a whole number of its units. */
  lemma {:induction false} PreciseIffWhole(n: Amount, decimalPlaces: int)
    ensures Representable(n, decimalPlaces) <==> WholeUnits(n, Unit(decimalPlaces))
  {
    hide ShiftedBy, Times;
    var u := Unit(decimalPlaces);
    ShiftIsScale(n, decimalPlaces);
    ShiftIsScale((n / u).Floor as real, decimalPlaces);
    TimesOrder((n / u).Floor as real, n / u, u);
  }

  // --- Checks before the ledger ---------------------------------------------------------------

  /** A fee gives an amount of the fee asset away. */
  predicate FeeFormat(cfg: Config, fee: Approval) {
    fee.intent.SellAll? && fee.buy == 0.0 && fee.buyAsset == cfg.feeAsset && fee.sellAsset == cfg.feeAsset
  }

  /** Of the current round, of a registered owner, without negative amounts and signed for this mediator. */
  predicate Presentable(cfg: Config, s: Ledger, round: Round, a: Approval) {
    a.round == round && IsRegistered(s.wallets, a.owner) && a.sell >= 0.0 && a.instanceId == cfg.mediator
  }

  /** Whether one of the checks on an approval reports this error, its buy amount being in order or not. */
  predicate ReportedFor(cfg: Config, s: Ledger, round: Round, a: Approval, buyInOrder: bool, error: ExchangeError) {
    match error
    case WrongRound => a.round != round
    case UnregisteredUser => a.round == round && !IsRegistered(s.wallets, a.owner)
    case AmountError => a.round == round && IsRegistered(s.wallets, a.owner) && (!buyInOrder || a.sell < 0.0)
    case WrongInstanceId =>
      a.round == round && IsRegistered(s.wallets, a.owner) && buyInOrder && a.sell >= 0.0 && a.instanceId != cfg.mediator
    case _ => false
  }

  /**
   * Which of several faults of an order is reported: the format of the fee, then the fee itself, then its
   * amount, then the order, and only then what the ledger says. Up to there the ledger is untouched.
   */
  lemma {:induction false} AddOrderRefusedAs(cfg: Config, s: Ledger, round: Round, later: Round, order: Approval, fee: Approval, id: Id)
    ensures var result := AddOrder(cfg, s, round, later, order, fee, id);
      var feeRight := FeeFormat(cfg, fee) && Presentable(cfg, s, round, fee) && fee.sell == cfg.fee;
      && (result.error == Some(FeeWrongFormat) <==> !FeeFormat(cfg, fee))
      && (result.error == Some(WrongFeeStructure) <==> FeeFormat(cfg, fee) && Presentable(cfg, s, round, fee) && fee.sell != cfg.fee)
      && (forall error :: error in {WrongRound, UnregisteredUser, AmountError, WrongInstanceId} ==>
            (result.error == Some(error) <==>
               || (FeeFormat(cfg, fee) && ReportedFor(cfg, s, round, fee, true, error))
               || (feeRight && ReportedFor(cfg, s, round, order, order.buy > 0.0, error))))
      && (if feeRight && Presentable(cfg, s, round, order) && order.buy > 0.0 then
            !InsertOrder(s, order, fee).Ok() ==>
              && result.error == Some(LedgerRefused(InsertOrder(s, order, fee).error.value))
              && result.ledger == InsertOrder(s, order, fee).ledger && result.trades == []
          else result.error.Some? && result.ledger == s && result.trades == [])
  {
    hide IsRegistered, InsertOrder, ProcessFeeApproval, ProcessOrderApproval;
  }

  // --- Acceptance -----------------------------------------------------------------------------

  /** An approval between known assets, of a registered owner, that its balance covers. */
  ghost predicate Backed(s: Ledger, a: Approval) {
    && a.sellAsset in s.assets && a.buyAsset in s.assets && IsRegistered(s.wallets, a.owner)
    && a.sell <= Available(s.accounts, a.sellAsset, a.owner, a.round)
  }

  lemma {:induction false} ValidOrderIff(s: Ledger, order: Approval, fee: Approval)
    requires CacheExact(s.accounts, s.cache)
    ensures ValidateOrder(s, order, fee).Ok() <==> OrderAmounts(order) && FeeAmounts(fee) && Backed(s, order) && Backed(s, fee)
  {
    hide Available, ReadBalance, CacheExact, IsRegistered;
    ReadBalanceExact(s, order.sellAsset, order.owner, order.round);
    var first := ValidateBacking(s, order).ledger;
    ReadBalanceExact(first, fee.sellAsset, fee.owner, fee.round);
  }

  /** What the exchange asks of an order. */
  ghost predicate GoodOrder(cfg: Config, s: Ledger, round: Round, order: Approval) {
    && Listable(cfg, order)
    && order.round == round && order.instanceId == cfg.mediator
    && WholeUnits(order.buy, Unit(cfg.decimalPlaces)) && WholeUnits(order.sell, Unit(cfg.decimalPlaces))
    && 0.0 < order.buy <= MAX_AMOUNT as real && 0.0 < order.sell <= MAX_AMOUNT as real
    && Backed(s, order)
  }

  /** What the exchange asks of a fee: exactly the configured amount of the fee asset, for nothing. */
  ghost predicate GoodFee(cfg: Config, s: Ledger, round: Round, fee: Approval) {
    && fee.round == round && fee.instanceId == cfg.mediator
    && fee.intent.SellAll? && fee.buy == 0.0 && fee.sell == cfg.fee && 0.0 < fee.sell <= MAX_AMOUNT as real
    && fee.buyAsset == cfg.feeAsset && fee.sellAsset == cfg.feeAsset
    && Backed(s, fee)
  }

  lemma {:induction false} StoredIff(cfg: Config, s: Ledger, round: Round, order: Approval, fee: Approval, id: Id)
    requires CacheExact(s.accounts, s.cache) && FreshIds(s, order, fee, id)
    requires Listable(cfg, order) && WholeUnits(order.buy, Unit(cfg.decimalPlaces)) && WholeUnits(order.sell, Unit(cfg.decimalPlaces))
    ensures CheckOrder(cfg, s, round, order, fee).None? && InsertOrder(s, order, fee).Ok()
            <==> GoodOrder(cfg, s, round, order) && GoodFee(cfg, s, round, fee)
  {
    hide Available, CacheExact, IsRegistered, WholeUnits, Listable, ValidateOrder, InsertOrder, FindApproval;
    ValidOrderIff(s, order, fee);
    if ValidateOrder(s, order, fee).Ok() {
      RepeatedIdRefused(s, order, fee);
    } else {
      InvalidNotStored(s, order, fee);
    }
  }

  lemma InvalidNotStored(s: Ledger, order: Approval, fee: Approval)
    requires !ValidateOrder(s, order, fee).Ok()
    ensures !InsertOrder(s, order, fee).Ok()
  {
  }

  /**
   * From a sound exchange in its current round, an order with its fee, under fresh ids and covered
   * together, is accepted if and only if both are what the exchange asks for.
   */
  lemma {:induction false} AcceptedIff(cfg: Config, s: Ledger, round: Round, later: Round, order: Approval, fee: Approval, id: Id)
    requires ExchangeSound(cfg, s) && Current(s, round) && AllTimely(cfg, s, order, fee, id)
    requires FreshIds(s, order, fee, id) && CoversBoth(s, order, fee) && order.buyAsset != order.sellAsset
    ensures CreateOrder(cfg, s, round, later, order, fee, id).error == None
            <==> GoodOrder(cfg, s, round, order) && GoodFee(cfg, s, round, fee)
  {
    hide Sound, Current, AllTimely, FreshIds, CoversBoth, Conserved, BookedWithinLimits, IsRegistered, WholeUnits, Listable;
    hide CreateOrder, CheckOrder, InsertOrder, ProcessFeeApproval, ProcessOrderApproval, Available, Stored;
    EntryRefusedIff(cfg, s, round, later, order, fee, id);
    if Listable(cfg, order) && WholeUnits(order.buy, Unit(cfg.decimalPlaces)) && WholeUnits(order.sell, Unit(cfg.decimalPlaces)) {
      SoundCache(s);
      StoredIff(cfg, s, round, order, fee, id);
      if CheckOrder(cfg, s, round, order, fee).None? && InsertOrder(s, order, fee).Ok() {
        OrderIsReady(cfg, s, round, order, fee, id);
      }
    }
  }

  lemma SoundCache(s: Ledger)
    requires Sound(s)
    ensures CacheExact(s.accounts, s.cache)
  {
  }

  /** The owner of an order can cancel it exactly while it is open and its round is the current one. */
  lemma {:induction false} CancelOrderIff(s: Ledger, round: Round, id: Id)
    requires BooksBalance(s)
    ensures CancelOrder(s, round, id).Ok() <==>
      exists i :: 0 <= i < |s.approvals|
        && s.approvals[i].params.approvalId == id && s.approvals[i].params.round == round && s.approvals[i].status == Open
    ensures CancelOrder(s, round, id).Ok() ==> CancelOrder(s, round, id) == CancelApproval(s, id)
    ensures !CancelOrder(s, round, id).Ok() ==> CancelOrder(s, round, id).ledger == s
  {
    hide FindApproval, CancelApproval, NoneOverfilled, FilledExactly, FillsBacked;
    CancelAcceptedIff(s, id);
    var i := FindApproval(s.approvals, id);
    forall j | 0 <= j < |s.approvals| && s.approvals[j].params.approvalId == id
      ensures j == i
    {
      FindUnique(s.approvals, j);
    }
  }

  // --- Matching that cannot throw -------------------------------------------------------------

  /** Every maker for the order has the opposite intent, and is on the exchange's precision. */
  predicate OppositeBook(cfg: Config, s: Ledger, round: Round, order: Approval) {
    forall i :: 0 <= i < |s.approvals| && IsMaker(s.approvals[i], round, order) ==>
      var row := s.approvals[i];
      && row.params.intent != order.intent
      && WholeUnits(row.params.buy, Unit(cfg.decimalPlaces)) && WholeUnits(row.params.sell, Unit(cfg.decimalPlaces))
      && WholeUnits(RemainingOf(row), Unit(cfg.decimalPlaces))
  }

  /** A stored order on the exchange's precision always matches normally against makers of the opposite intent. */
  lemma {:induction false} OppositeBookMatches(cfg: Config, s: Ledger, round: Round, order: Approval)
    requires BooksBalance(s) && BookedWithinLimits(s.approvals) && Stored(s, round, order) && cfg.decimalPlaces <= TOKEN_DECIMALS
    requires WholeUnits(order.buy, Unit(cfg.decimalPlaces)) && WholeUnits(order.sell, Unit(cfg.decimalPlaces))
    requires OppositeBook(cfg, s, round, order)
    ensures order.buy > 0.0 && order.sell > 0.0
    ensures CreateTradesForApproval(cfg, s, round, order).Success?
  {
    hide BooksBalance, BookedWithinLimits, Stored, WholeUnits, CreateTrades, IsMaker, FindApproval, RemainingOf, Listed, Admissible;
    hide StuckAfter, WithinSupply;
    StoredPositive(s, round, order);
    TakerWithinSupply(s, round, order);
    var taker, makers := MkTaker(s, order), Makers(s.approvals, |s.approvals|, round, order);
    MakersAreRows(s.approvals, |s.approvals|, round, order);
    forall q | q in makers
      ensures OnPrecision(q, cfg.decimalPlaces) && q.intent != taker.intent
    {
      MakersListed(s, round, order, q);
    }
    CreateTradesFailsIff(taker, makers, cfg.decimalPlaces);
  }
}
