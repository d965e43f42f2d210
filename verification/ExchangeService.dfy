// The exchange as the program runs it: methods that drive one ledger in place, each tied to the
// operation of `Exchanges` that it performs (src/server/exchange/Exchange.ts).
module ExchangeServices {
  import opened BasicTypes
  import opened BigNumbers
  import opened Wrappers
  import opened Matching
  import L = Ledgers
  import opened Ledgers
  import X = Exchanges
  import opened Exchanges
  import opened LedgerBalances
  import opened MetaLedgers
  import opened OrderFlow

  /** The fills of all trades in the order in which they are stored. */
  function FillsOfTrades(trades: seq<Trade>): seq<FillParams> {
    if trades == [] then []
    else
      var (takerFill, makerFill) := CreateFillParams(trades[0]);
      [takerFill, makerFill] + FillsOfTrades(trades[1..])
  }

  /** Stores fills one after the other, stopping at the first that is refused. */
  function AddEach(s: Ledger, fills: seq<FillParams>): Outcome
    decreases |fills|
  {
    if fills == [] then Outcome(s, None)
    else
      var one := X.AddFill(s, fills[0]);
      if one.Ok() then AddEach(one.ledger, fills[1..]) else one
  }

  /** Walking the flat list of fills is walking the trades with two fills each. */
  lemma {:induction false} TradesAreFillPairs(s: Ledger, trades: seq<Trade>)
    ensures AddEach(s, FillsOfTrades(trades)) == X.RegisterTrades(s, trades)
    decreases |trades|
  {
    hide X.AddFill;
    if trades != [] {
      var (takerFill, makerFill) := CreateFillParams(trades[0]);
      var rest := FillsOfTrades(trades[1..]);
      var fills := FillsOfTrades(trades);
      assert fills[0] == takerFill && fills[1..] == [makerFill] + rest;
      assert ([makerFill] + rest)[1..] == rest;
      var settled := X.AddFills(s, takerFill, makerFill);
      if settled.Ok() {
        TradesAreFillPairs(settled.ledger, trades[1..]);
      }
    }
  }

  class Exchange {
    const ledger: MetaLedger
    const cfg: Config
    var round: Round

    constructor (ledger: MetaLedger, cfg: Config)
      ensures this.ledger == ledger && this.cfg == cfg && round == 0
    {
      this.ledger, this.cfg, round := ledger, cfg, 0;
    }

    /** The operator moves the exchange to its round once the blocks say so. */
    method GoToRound(next: Round)
      modifies this
      ensures round == next
    {
      round := next;
    }

    method AddFill(params: FillParams) returns (error: Option<LedgerError>)
      modifies ledger
      ensures Outcome(ledger.State(), error) == X.AddFill(old(ledger.State()), params)
    {
      hide L.FindApproval, L.InsertFill;
      var i := FindApproval(ledger.approvals, params.approvalId);
      if i == |ledger.approvals| {
        return Some(ApprovalNotFound);
      }
      var approval := ledger.approvals[i].params;
      var fillId := |ledger.fills| + 1;
      var fill := Fill(fillId, params.approvalId, params.round, approval.buyAsset, params.buy,
                       approval.sellAsset, params.sell, approval.owner, approval.instanceId);
      error := ledger.InsertFill(fill);
    }

    method RegisterTrades(trades: seq<Trade>) returns (error: Option<LedgerError>)
      modifies ledger
      ensures Outcome(ledger.State(), error) == X.RegisterTrades(old(ledger.State()), trades)
    {
      hide X.AddFill, X.RegisterTrades;
      ghost var before := ledger.State();
      var fillParams := FillsOfTrades(trades);
      TradesAreFillPairs(before, trades);
      error := None;
      var i := 0;
      while i < |fillParams|
        invariant 0 <= i <= |fillParams|
        invariant error.None?
        invariant AddEach(before, fillParams) == AddEach(ledger.State(), fillParams[i..])
      {
        assert fillParams[i..][0] == fillParams[i] && fillParams[i..][1..] == fillParams[i + 1..];
        error := AddFill(fillParams[i]);
        if error.Some? {
          return;
        }
        i := i + 1;
      }
    }

    method ProcessFeeApproval(fee: Approval, operatorApprovalId: Id) returns (error: Option<LedgerError>)
      modifies ledger
      ensures Outcome(ledger.State(), error) == X.ProcessFeeApproval(cfg, old(ledger.State()), fee, operatorApprovalId)
    {
      hide L.InsertApproval, X.AddFill;
      var operatorApproval := OperatorApprovalForFee(cfg, fee, operatorApprovalId);
      error := ledger.InsertApproval(operatorApproval);
      if error.Some? {
        return;
      }
      error := AddFill(FeeToFill(fee));
      if error.Some? {
        return;
      }
      error := AddFill(FeeToFill(operatorApproval));
    }

    method CreateTradesForApproval(order: Approval) returns (trades: Result<seq<Trade>, MatchError>)
      requires order.buy > 0.0 && order.sell > 0.0
      ensures trades == X.CreateTradesForApproval(cfg, ledger.State(), round, order)
    {
      hide Matching.CreateTrades, X.Makers;
      var makers := Makers(ledger.approvals, |ledger.approvals|, round, order);
      var priority := FindApproval(ledger.approvals, order.approvalId) + 1;
      var taker := MkMatch(order, if order.intent.BuyAll? then order.buy else order.sell, priority);
      trades := CreateTrades(taker, makers, cfg.decimalPlaces);
    }

    /** What goes wrong while matching or settling is logged, and the caller sees no trades. */
    method ProcessOrderApproval(order: Approval) returns (trades: seq<Trade>)
      requires order.buy > 0.0 && order.sell > 0.0
      modifies ledger
      ensures (ledger.State(), trades) == X.ProcessOrderApproval(cfg, old(ledger.State()), round, order)
    {
      hide X.CreateTradesForApproval, X.RegisterTrades;
      var created := CreateTradesForApproval(order);
      if created.Failure? {
        return [];
      }
      var error := RegisterTrades(created.value);
      trades := if error.None? then created.value else [];
    }

    method CheckApproval(a: Approval, zeroBuy: bool) returns (error: Option<ExchangeError>)
      ensures error == X.CheckApproval(cfg, ledger.State(), round, a, zeroBuy)
    {
      if a.round != round {
        return Some(WrongRound);
      }
      if !IsRegistered(ledger.wallets, a.owner) {
        return Some(UnregisteredUser);
      }
      if (if zeroBuy then a.buy != 0.0 else a.buy <= 0.0) || a.sell < 0.0 {
        return Some(AmountError);
      }
      if a.instanceId != cfg.mediator {
        return Some(WrongInstanceId);
      }
      return None;
    }

    /** While an order waits for the ledger, block processing may move the operator on to `later`. */
    method AddOrder(order: Approval, fee: Approval, operatorApprovalId: Id, later: Round)
      returns (trades: seq<Trade>, error: Option<ExchangeError>)
      modifies ledger, this`round
      ensures OrderResult(ledger.State(), trades, error)
              == X.AddOrder(cfg, old(ledger.State()), old(round), later, order, fee, operatorApprovalId)
      ensures later == old(round) ==>
        old(ExchangeSound(cfg, ledger.State()) && OrderlyOrder(cfg, ledger.State(), round, order, fee, operatorApprovalId)) ==>
          ExchangeSound(cfg, ledger.State())
    {
      hide L.InsertOrder, X.ProcessFeeApproval, X.ProcessOrderApproval, X.CheckApproval, X.CheckFeeSyntax;
      hide ExchangeSound, OrderlyOrder;
      if ExchangeSound(cfg, ledger.State()) && OrderlyOrder(cfg, ledger.State(), round, order, fee, operatorApprovalId) {
        AddOrderSound(cfg, ledger.State(), round, order, fee, operatorApprovalId);
      }
      trades := [];
      error := CheckFeeSyntax(cfg, fee);
      if error.Some? {
        return;
      }
      error := CheckApproval(fee, true);
      if error.Some? {
        return;
      }
      if fee.sell != cfg.fee {
        return [], Some(WrongFeeStructure);
      }
      error := CheckApproval(order, false);
      if error.Some? {
        return;
      }
      var refused := ledger.InsertOrder(order, fee);
      if refused.Some? {
        return [], Some(LedgerRefused(refused.value));
      }
      StoredAmounts(old(ledger.State()), order, fee);
      refused := ProcessFeeApproval(fee, operatorApprovalId);
      if refused.Some? {
        return [], Some(LedgerRefused(refused.value));
      }
      round := later;
      trades := ProcessOrderApproval(order);
    }

    method CreateOrder(order: Approval, fee: Approval, operatorApprovalId: Id, later: Round)
      returns (trades: seq<Trade>, error: Option<ExchangeError>)
      modifies ledger, this`round
      ensures OrderResult(ledger.State(), trades, error)
              == X.CreateOrder(cfg, old(ledger.State()), old(round), later, order, fee, operatorApprovalId)
    {
      hide X.AddOrder, Representable;
      trades := [];
      if MarketOf(order) !in cfg.markets {
        error := Some(InvalidSymbol);
      } else if !IsRegistered(ledger.wallets, order.owner) {
        error := Some(UnregisteredUser);
      } else if !Representable(order.buy, cfg.decimalPlaces) || !Representable(order.sell, cfg.decimalPlaces) {
        error := Some(PrecisionError);
      } else {
        trades, error := AddOrder(order, fee, operatorApprovalId, later);
      }
    }

    method CancelOrder(id: Id) returns (error: Option<LedgerError>)
      modifies ledger
      ensures Outcome(ledger.State(), error) == X.CancelOrder(old(ledger.State()), round, id)
    {
      hide L.FindApproval, L.CancelApproval;
      var i := FindApproval(ledger.approvals, id);
      if i == |ledger.approvals| || ledger.approvals[i].params.round != round {
        return Some(ApprovalNotFound);
      }
      error := ledger.CancelApproval(id);
    }
  }
}
