// Orders entering the exchange: checks, fee, matching and settlement (src/server/exchange/Exchange.ts).
module Exchanges {
  import opened BasicTypes
  import opened BigNumbers
  import opened Wrappers
  import opened Matching
  import opened Ledgers

  datatype Config = Config(
    operator: Address,
    mediator: Address,
    feeAsset: Address,
    fee: Amount,
    decimalPlaces: int,
    markets: set<(Address, Address)>)

  datatype ExchangeError =
    | FeeWrongFormat | WrongFeeStructure | WrongRound | UnregisteredUser | AmountError | WrongInstanceId
    | InvalidSymbol | PrecisionError
    | LedgerRefused(reason: LedgerError)

  /** The ledger after an order, the trades reported to the caller, and the error thrown, if any. */
  datatype OrderResult = OrderResult(ledger: Ledger, trades: seq<Trade>, error: Option<ExchangeError>)

  /** The (base, quote) pair that an approval trades. */
  function MarketOf(a: Approval): (Address, Address) {
    if a.intent.BuyAll? then (a.buyAsset, a.sellAsset) else (a.sellAsset, a.buyAsset)
  }

  function CheckFeeSyntax(cfg: Config, fee: Approval): Option<ExchangeError> {
    if fee.buy == 0.0 && fee.buyAsset == cfg.feeAsset && fee.intent.SellAll? && fee.sellAsset == cfg.feeAsset then None
    else Some(FeeWrongFormat)
  }

  function CheckApproval(cfg: Config, s: Ledger, round: Round, a: Approval, zeroBuy: bool): Option<ExchangeError> {
    if a.round != round then Some(WrongRound)
    else if !IsRegistered(s.wallets, a.owner) then Some(UnregisteredUser)
    else if (if zeroBuy then a.buy != 0.0 else a.buy <= 0.0) || a.sell < 0.0 then Some(AmountError)
    else if a.instanceId != cfg.mediator then Some(WrongInstanceId)
    else None
  }

  /** What `addOrder` checks before it touches the ledger. */
  function CheckOrder(cfg: Config, s: Ledger, round: Round, order: Approval, fee: Approval): Option<ExchangeError> {
    var syntax := CheckFeeSyntax(cfg, fee);
    var feeCheck := CheckApproval(cfg, s, round, fee, true);
    if syntax.Some? then syntax
    else if feeCheck.Some? then feeCheck
    else if fee.sell != cfg.fee then Some(WrongFeeStructure)
    else CheckApproval(cfg, s, round, order, false)
  }

  /** The operator's side of a fee: it buys what the client gives and sells nothing. */
  function OperatorApprovalForFee(cfg: Config, fee: Approval, approvalId: Id): Approval {
    Approval(approvalId, fee.round, if fee.intent.BuyAll? then SellAll else BuyAll,
             fee.sellAsset, fee.sell, fee.buyAsset, fee.buy, cfg.operator, fee.instanceId)
  }

  /** The signed fill for an approval's share of a trade, under the next fill id. */
  function MkFill(s: Ledger, a: Approval, params: FillParams): Fill {
    Fill(NextFillId(s), params.approvalId, params.round, a.buyAsset, params.buy, a.sellAsset, params.sell, a.owner, a.instanceId)
  }

  function AddFill(s: Ledger, params: FillParams): Outcome {
    var i := FindApproval(s.approvals, params.approvalId);
    if i == |s.approvals| then Outcome(s, Some(ApprovalNotFound))
    else InsertFill(s, MkFill(s, s.approvals[i].params, params))
  }

  function AddFills(s: Ledger, first: FillParams, second: FillParams): Outcome {
    var one := AddFill(s, first);
    if one.Ok() then AddFill(one.ledger, second) else one
  }

  function FeeToFill(fee: Approval): FillParams {
    FillParams(fee.approvalId, fee.round, fee.buy, fee.sell)
  }

  function ProcessFeeApproval(cfg: Config, s: Ledger, fee: Approval, operatorApprovalId: Id): Outcome {
    var operatorApproval := OperatorApprovalForFee(cfg, fee, operatorApprovalId);
    var stored := InsertApproval(s, operatorApproval);
    if stored.Ok() then AddFills(stored.ledger, FeeToFill(fee), FeeToFill(operatorApproval)) else stored
  }

  /** What an approval still has to fill on the side of its intent. */
  function RemainingOf(row: ApprovalRow): Amount {
    if row.params.intent.BuyAll? then row.params.buy - row.filledBuy else row.params.sell - row.filledSell
  }

  /** An approval whose prices are defined, as the matching engine sees it. */
  function MkMatch(a: Approval, remaining: Amount, priority: int): Quote
    requires a.buy > 0.0 && a.sell > 0.0
  {
    MatchParams(a.approvalId, a.owner, a.round, a.intent, a.buyAsset, a.buy, a.sellAsset, a.sell, remaining, priority)
  }

  /** An open order of this round on the other side of the taker's market; fee approvals have no price. */
  predicate IsMaker(row: ApprovalRow, round: Round, taker: Approval) {
    && row.params.round == round && row.status.Open?
    && row.params.buyAsset == taker.sellAsset && row.params.sellAsset == taker.buyAsset
    && row.params.buy > 0.0 && row.params.sell > 0.0
  }

  /** The makers among the first `n` approvals, in table order. */
  function Makers(approvals: seq<ApprovalRow>, n: nat, round: Round, taker: Approval): seq<Quote>
    requires n <= |approvals|
  {
    if n == 0 then []
    else
      var row := approvals[n - 1];
      Makers(approvals, n - 1, round, taker)
      + if IsMaker(row, round, taker) then [MkMatch(row.params, RemainingOf(row), n)] else []
  }

  function MkTaker(s: Ledger, order: Approval): Quote
    requires order.buy > 0.0 && order.sell > 0.0
  {
    MkMatch(order, if order.intent.BuyAll? then order.buy else order.sell,
            FindApproval(s.approvals, order.approvalId) + 1)
  }

  function CreateTradesForApproval(cfg: Config, s: Ledger, round: Round, order: Approval): Result<seq<Trade>, MatchError>
    requires order.buy > 0.0 && order.sell > 0.0
  {
    CreateTrades(MkTaker(s, order), Makers(s.approvals, |s.approvals|, round, order), cfg.decimalPlaces)
  }

  /** Two fills for each trade, stopping at the first that the ledger refuses. */
  function RegisterTrades(s: Ledger, trades: seq<Trade>): Outcome
    decreases |trades|
  {
    if trades == [] then Outcome(s, None)
    else
      var (takerFill, makerFill) := CreateFillParams(trades[0]);
      var settled := AddFills(s, takerFill, makerFill);
      if settled.Ok() then RegisterTrades(settled.ledger, trades[1..]) else settled
  }

  /** A failure while matching or settling is logged; the order itself stays in the book. */
  function ProcessOrderApproval(cfg: Config, s: Ledger, round: Round, order: Approval): (Ledger, seq<Trade>)
    requires order.buy > 0.0 && order.sell > 0.0
  {
    var trades := CreateTradesForApproval(cfg, s, round, order);
    if trades.Failure? then (s, [])
    else
      var settled := RegisterTrades(s, trades.value);
      (settled.ledger, if settled.Ok() then trades.value else [])
  }

  /**
   * The fresh id of the operator's fee approval is an input, and so is the operator's round: it is read
   * when the order is checked, and again when it is matched.
   */
  function AddOrder(cfg: Config, s: Ledger, round: Round, later: Round, order: Approval, fee: Approval,
                    operatorApprovalId: Id): OrderResult {
    var refused := CheckOrder(cfg, s, round, order, fee);
    if refused.Some? then OrderResult(s, [], refused)
    else
      var stored := InsertOrder(s, order, fee);
      if !stored.Ok() then OrderResult(stored.ledger, [], Some(LedgerRefused(stored.error.value)))
      else
        var paid := ProcessFeeApproval(cfg, stored.ledger, fee, operatorApprovalId);
        if !paid.Ok() then OrderResult(paid.ledger, [], Some(LedgerRefused(paid.error.value)))
        else
          var (ledger, trades) := ProcessOrderApproval(cfg, paid.ledger, later, order);
          OrderResult(ledger, trades, None)
  }

  /** The entry point of the exchange, without the signature checks. */
  function CreateOrder(cfg: Config, s: Ledger, round: Round, later: Round, order: Approval, fee: Approval,
                       operatorApprovalId: Id): OrderResult {
    if MarketOf(order) !in cfg.markets then OrderResult(s, [], Some(InvalidSymbol))
    else if !IsRegistered(s.wallets, order.owner) then OrderResult(s, [], Some(UnregisteredUser))
    else if !Representable(order.buy, cfg.decimalPlaces) || !Representable(order.sell, cfg.decimalPlaces) then
      OrderResult(s, [], Some(PrecisionError))
    else AddOrder(cfg, s, round, later, order, fee, operatorApprovalId)
  }

  function CancelOrder(s: Ledger, round: Round, id: Id): Outcome {
    var i := FindApproval(s.approvals, id);
    if i == |s.approvals| || s.approvals[i].params.round != round then Outcome(s, Some(ApprovalNotFound))
    else CancelApproval(s, id)
  }
}
