// Every order in the book trades assets that the ledger was set up with.
module KnownAssets {
  import opened BasicTypes
  import opened Matching
  import opened Ledgers
  import opened LedgerBooks
  import opened LedgerBalances
  import opened LedgerSound
  import opened Settlement
  import opened Exchanges
  import opened OrderFlow
  import opened Runs
  import opened HonestOperator
  import opened Disputes

  ghost predicate AssetsKnown(s: Ledger) {
    forall i :: 0 <= i < |s.approvals| ==> s.approvals[i].params.sellAsset in s.assets && s.approvals[i].params.buyAsset in s.assets
  }

  /** No approval is added, and none changes its terms. */
  ghost predicate SameTerms(s: Ledger, t: Ledger) {
    && t.assets == s.assets && |t.approvals| == |s.approvals|
    && forall i :: 0 <= i < |s.approvals| ==> t.approvals[i].params == s.approvals[i].params
  }

  lemma AddFillTerms(s: Ledger, params: FillParams)
    ensures SameTerms(s, AddFill(s, params).ledger)
  {
    hide FindApproval, PostFill, PatchCache, ValidateFill;
  }

  lemma AddFillsTerms(s: Ledger, first: FillParams, second: FillParams)
    ensures SameTerms(s, AddFills(s, first, second).ledger)
  {
    hide AddFill;
    AddFillTerms(s, first);
    AddFillTerms(AddFill(s, first).ledger, second);
  }

  lemma {:induction false} RegisterTradesTerms(s: Ledger, trades: seq<Trade>)
    ensures SameTerms(s, RegisterTrades(s, trades).ledger)
    decreases |trades|
  {
    hide AddFills;
    if trades != [] {
      var (takerFill, makerFill) := CreateFillParams(trades[0]);
      AddFillsTerms(s, takerFill, makerFill);
      RegisterTradesTerms(AddFills(s, takerFill, makerFill).ledger, trades[1..]);
    }
  }

  /** Storing an approval looks both its assets up first. */
  lemma InsertApprovalKnown(s: Ledger, a: Approval)
    requires AssetsKnown(s)
    ensures AssetsKnown(InsertApproval(s, a).ledger) && InsertApproval(s, a).ledger.assets == s.assets
  {
    hide FindApproval, Post, PatchCache, Available, IsRegistered;
  }

  lemma InsertOrderKnown(s: Ledger, order: Approval, fee: Approval)
    requires AssetsKnown(s)
    ensures AssetsKnown(InsertOrder(s, order, fee).ledger) && InsertOrder(s, order, fee).ledger.assets == s.assets
  {
    hide FindApproval, Post, PatchCache, ReadBalance, IsRegistered;
    BackingKeepsApprovals(s, order);
    BackingKeepsApprovals(ValidateBacking(s, order).ledger, fee);
    BackingAssets(s, order);
    BackingAssets(ValidateBacking(s, order).ledger, fee);
  }

  lemma BackingAssets(s: Ledger, a: Approval)
    ensures ValidateBacking(s, a).ledger.assets == s.assets
  {
    hide Available, IsRegistered;
  }

  lemma {:induction false} AddOrderKnown(cfg: Config, s: Ledger, round: Round, later: Round, order: Approval, fee: Approval, id: Id)
    requires AssetsKnown(s)
    ensures var after := AddOrder(cfg, s, round, later, order, fee, id).ledger;
      AssetsKnown(after) && after.assets == s.assets
  {
    hide InsertOrder, InsertApproval, AddFills, RegisterTrades, CreateTradesForApproval, CheckOrder;
    InsertOrderKnown(s, order, fee);
    var stored := InsertOrder(s, order, fee).ledger;
    var other := OperatorApprovalForFee(cfg, fee, id);
    InsertApprovalKnown(stored, other);
    AddFillsTerms(InsertApproval(stored, other).ledger, FeeToFill(fee), FeeToFill(other));
    var paid := ProcessFeeApproval(cfg, stored, fee, id).ledger;
    if CheckOrder(cfg, s, round, order, fee).None? && InsertOrder(s, order, fee).Ok() {
      StoredAmounts(s, order, fee);
      var trades := CreateTradesForApproval(cfg, paid, later, order);
      if trades.Success? {
        RegisterTradesTerms(paid, trades.value);
      }
    }
  }

  lemma CancelTerms(s: Ledger, round: Round, id: Id)
    ensures SameTerms(s, CancelOrder(s, round, id).ledger)
  {
    hide FindApproval, Post, PatchCache;
  }

  /** No operation, orderly or not, stores an approval of an unknown asset. */
  lemma {:induction false} StepKnown(cfg: Config, s: Ledger, op: Op)
    requires AssetsKnown(s)
    ensures AssetsKnown(Step(cfg, s, op)) && Step(cfg, s, op).assets == s.assets
  {
    hide AddOrder, CancelOrder, Post, PatchCache, Available, IsRegistered, FindWithdrawal, HasTransaction;
    match op {
      case AddOrderOp(round, later, order, fee, id) => AddOrderKnown(cfg, s, round, later, order, fee, id);
      case CancelOrderOp(round, id) => CancelTerms(s, round, id);
      case _ => assert Step(cfg, s, op).approvals == s.approvals;
    }
  }

  lemma {:induction false} RunKnown(cfg: Config, s: Ledger, ops: seq<Op>)
    requires AssetsKnown(s)
    ensures AssetsKnown(RunAll(cfg, s, ops)) && RunAll(cfg, s, ops).assets == s.assets
    decreases |ops|
  {
    hide AssetsKnown, Step;
    if ops != [] {
      StepKnown(cfg, s, ops[0]);
      RunKnown(cfg, Step(cfg, s, ops[0]), ops[1..]);
    }
  }

  /** In every reachable ledger, a client's fills name assets that the ledger was set up with. */
  lemma {:induction false} FillsOfKnownAssets(cfg: Config, assets: set<Address>, s: Ledger, tokens: seq<Address>, wallet: Address, round: Round)
    requires Reachable(cfg, assets, s) && forall asset :: asset in assets ==> asset in tokens
    ensures TokensListed(tokens, FillsFor(s, wallet, round))
  {
    hide Sound, Conserved, FindApproval, IsRegistered, OrderlyRun, RunAll;
    var start := Start(assets, cfg.operator);
    var ops :| OrderlyRun(cfg, start, ops) && s == RunAll(cfg, start, ops);
    RunKnown(cfg, start, ops);
    ReachableSound(cfg, assets, s);
    SoundParts(s);
    FillsNameKnown(s, tokens, wallet, round);
  }

  lemma {:induction false} FillsNameKnown(s: Ledger, tokens: seq<Address>, wallet: Address, round: Round)
    requires BooksBalance(s) && AssetsKnown(s) && forall asset :: asset in s.assets ==> asset in tokens
    ensures TokensListed(tokens, FillsFor(s, wallet, round))
  {
    hide FindApproval, NoneOverfilled, FilledExactly, RowsExist, UniqueIds, FillsFor, Honours;
    FillsForIsKept(s, wallet, round);
    var fills := FillsFor(s, wallet, round);
    forall i | 0 <= i < |fills|
      ensures fills[i].buyAsset in tokens && fills[i].sellAsset in tokens
    {
      assert fills[i] in fills && fills[i] in s.fills;
      var j :| 0 <= j < |s.fills| && s.fills[j] == fills[i];
      assert BackedFill(s.approvals, s.fills[j]);
    }
  }
}
