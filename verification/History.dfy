// Past rounds are frozen: what is stamped with a round or a later one cannot change that round's
// solvency tree.
module History {
  import opened BasicTypes
  import opened Matching
  import opened Ledgers
  import opened LedgerBalances
  import opened Exchanges
  import opened Runs
  import opened Solvency

  /** Two ledgers agree on every row and every member of the rounds before `round`. */
  ghost predicate SamePast(s: Ledger, t: Ledger, round: Round) {
    && (forall k: Key :: k.round < round ==> AccountAt(s.accounts, k) == AccountAt(t.accounts, k))
    && JoinedBefore(s.wallets, round) == JoinedBefore(t.wallets, round)
  }

  lemma PostLater(accounts: map<Key, Account>, k: Key, d: Account, round: Round)
    requires k.round >= round
    ensures forall other: Key :: other.round < round ==> AccountAt(Post(accounts, k, d), other) == AccountAt(accounts, other)
  {
  }

  lemma JoinLater(wallets: seq<WalletEntry>, entry: WalletEntry, round: Round)
    requires entry.roundJoined >= round
    ensures JoinedBefore(wallets + [entry], round) == JoinedBefore(wallets, round)
  {
    assert (wallets + [entry])[..|wallets|] == wallets;
  }

  lemma InsertFillLater(s: Ledger, f: Fill, round: Round)
    requires f.round >= round
    ensures SamePast(s, InsertFill(s, f).ledger, round)
  {
    hide FindApproval, PatchCache, ValidateFill;
  }

  lemma AddFillsLater(s: Ledger, first: FillParams, second: FillParams, round: Round)
    requires first.round >= round && second.round >= round
    ensures SamePast(s, AddFills(s, first, second).ledger, round)
  {
    hide FindApproval, InsertFill;
    var i := FindApproval(s.approvals, first.approvalId);
    if i < |s.approvals| {
      InsertFillLater(s, MkFill(s, s.approvals[i].params, first), round);
    }
    var middle := AddFill(s, first).ledger;
    var j := FindApproval(middle.approvals, second.approvalId);
    if j < |middle.approvals| {
      InsertFillLater(middle, MkFill(middle, middle.approvals[j].params, second), round);
    }
  }

  lemma {:induction false} RegisterTradesLater(s: Ledger, trades: seq<Trade>, round: Round)
    requires forall t :: t in trades ==> t.round >= round
    ensures SamePast(s, RegisterTrades(s, trades).ledger, round)
    decreases |trades|
  {
    hide AddFills;
    if trades != [] {
      var (takerFill, makerFill) := CreateFillParams(trades[0]);
      assert trades[0] in trades;
      AddFillsLater(s, takerFill, makerFill, round);
      RegisterTradesLater(AddFills(s, takerFill, makerFill).ledger, trades[1..], round);
    }
  }

  lemma InsertApprovalLater(s: Ledger, a: Approval, round: Round)
    requires a.round >= round
    ensures SamePast(s, InsertApproval(s, a).ledger, round)
  {
    hide FindApproval, PatchCache, ReadBalance, IsRegistered;
    ReadKeepsTables(s, a.sellAsset, a.owner, a.round);
  }

  lemma ReadKeepsTables(s: Ledger, asset: Address, wallet: Address, round: Round)
    ensures ReadBalance(s, asset, wallet, round).0 == s.(cache := ReadBalance(s, asset, wallet, round).0.cache)
  {
    hide Available;
  }

  lemma InsertOrderLater(s: Ledger, order: Approval, fee: Approval, round: Round)
    requires order.round >= round && fee.round >= round
    ensures SamePast(s, InsertOrder(s, order, fee).ledger, round)
  {
    hide FindApproval, PatchCache, ReadBalance, IsRegistered, Post, AccountAt;
    ReadKeepsTables(s, order.sellAsset, order.owner, order.round);
    var first := ValidateBacking(s, order).ledger;
    ReadKeepsTables(first, fee.sellAsset, fee.owner, fee.round);
    var x, y := NO_MOVEMENT.(locked := order.sell), NO_MOVEMENT.(locked := fee.sell);
    var orderKey, feeKey := Key(order.round, order.sellAsset, order.owner), Key(fee.round, fee.sellAsset, fee.owner);
    PostLater(s.accounts, orderKey, x, round);
    PostLater(Post(s.accounts, orderKey, x), feeKey, y, round);
  }

  lemma {:induction false} TradesOfRound(cfg: Config, s: Ledger, round: Round, order: Approval)
    requires order.buy > 0.0 && order.sell > 0.0
    ensures var trades := CreateTradesForApproval(cfg, s, round, order);
      trades.Success? ==> forall t :: t in trades.value ==> t.round == order.round
  {
    hide SortQuotes, Filter, CreateSwaps, FindApproval, Makers;
  }

  lemma {:induction false} AddOrderLater(cfg: Config, s: Ledger, at: Round, later: Round, order: Approval, fee: Approval, id: Id,
                                         round: Round)
    requires at >= round
    ensures SamePast(s, AddOrder(cfg, s, at, later, order, fee, id).ledger, round)
  {
    hide InsertOrder, InsertApproval, AddFills, RegisterTrades, CreateTradesForApproval, IsRegistered;
    if CheckOrder(cfg, s, at, order, fee).None? {
      InsertOrderLater(s, order, fee, round);
      var stored := InsertOrder(s, order, fee);
      if stored.Ok() {
        var other := OperatorApprovalForFee(cfg, fee, id);
        InsertApprovalLater(stored.ledger, other, round);
        AddFillsLater(InsertApproval(stored.ledger, other).ledger, FeeToFill(fee), FeeToFill(other), round);
        var paid := ProcessFeeApproval(cfg, stored.ledger, fee, id);
        assert order.buy > 0.0 && order.sell > 0.0 by { StoredAmounts(s, order, fee); }
        TradesOfRound(cfg, paid.ledger, later, order);
        var trades := CreateTradesForApproval(cfg, paid.ledger, later, order);
        if trades.Success? {
          RegisterTradesLater(paid.ledger, trades.value, round);
        }
      }
    }
  }

  /** The operation is stamped with `round` or a later one, or writes no account row at all. */
  predicate StampedFrom(s: Ledger, op: Op, round: Round) {
    match op
    case RegisterWallet(_, at) => at >= round
    case CreditDepositOp(_, _, _, at) => at >= round
    case ReadBalanceOp(_, _, _) => true
    case AddOrderOp(at, _, _, _, _) => at >= round
    case CancelOrderOp(at, _) => at >= round
    case RequestWithdrawal(_) => true
    case ApproveWithdrawalOp(id) => id < |s.withdrawals| ==> s.withdrawals[id].round >= round
    case WithdrawOp(request) => request.round >= round
    case CancelWithdrawalOp(asset, wallet) =>
      var i := FindWithdrawal(s.withdrawals, asset, wallet, {Pending, Unchecked});
      i < |s.withdrawals| && s.withdrawals[i].status.Pending? ==> s.withdrawals[i].round >= round
    case ConfirmWithdrawalOp(_, _) => true
  }

  lemma {:induction false} WithdrawalsLater(cfg: Config, s: Ledger, op: Op, round: Round)
    requires StampedFrom(s, op, round)
    requires op.ApproveWithdrawalOp? || op.WithdrawOp? || op.CancelWithdrawalOp?
    ensures SamePast(s, Step(cfg, s, op), round)
  {
    hide FindWithdrawal, PatchCache, ReadBalance, AddOrder, HasTransaction;
    match op {
      case ApproveWithdrawalOp(id) =>
        if id < |s.withdrawals| {
          var w := s.withdrawals[id];
          ReadKeepsTables(s, w.asset, w.wallet, w.round);
        }
      case WithdrawOp(w) => ReadKeepsTables(s, w.asset, w.wallet, w.round);
      case CancelWithdrawalOp(_, _) =>
    }
  }

  /** Accepted or refused, aligned or not: no operation reaches behind its own round. */
  lemma {:induction false} StepKeepsPast(cfg: Config, s: Ledger, op: Op, round: Round)
    requires StampedFrom(s, op, round)
    ensures SamePast(s, Step(cfg, s, op), round)
  {
    hide FindWithdrawal, FindApproval, PatchCache, ReadBalance, AddOrder, HasTransaction, ApproveWithdrawal, Withdraw, CancelWithdrawal;
    match op {
      case RegisterWallet(wallet, at) => JoinLater(s.wallets, WalletEntry(wallet, at), round);
      case ReadBalanceOp(asset, wallet, at) => ReadKeepsTables(s, asset, wallet, at);
      case AddOrderOp(at, later, order, fee, id) => AddOrderLater(cfg, s, at, later, order, fee, id, round);
      case ApproveWithdrawalOp(_) => WithdrawalsLater(cfg, s, op, round);
      case WithdrawOp(_) => WithdrawalsLater(cfg, s, op, round);
      case CancelWithdrawalOp(_, _) => WithdrawalsLater(cfg, s, op, round);
      case _ =>
    }
  }

  predicate StampedRun(cfg: Config, s: Ledger, ops: seq<Op>, round: Round)
    decreases |ops|
  {
    ops == [] || (StampedFrom(s, ops[0], round) && StampedRun(cfg, Step(cfg, s, ops[0]), ops[1..], round))
  }

  lemma {:induction false} SamePastSameEntries(s: Ledger, t: Ledger, asset: Address, round: Round)
    requires SamePast(s, t, round)
    ensures SolvencyEntries(s, asset, round) == SolvencyEntries(t, asset, round)
  {
    hide Opening, AccountAt, JoinedBefore;
    var ws := JoinedBefore(s.wallets, round);
    forall i | 0 <= i < |ws|
      ensures EntryFor(s.accounts, asset, round, ws[i]) == EntryFor(t.accounts, asset, round, ws[i])
    {
      OpeningLocal(s.accounts, t.accounts, asset, ws[i], round);
    }
  }

  /** Once a round has begun, its solvency tree is final: no later run of any length changes it. */
  lemma {:induction false} TreeIsFrozen(cfg: Config, s: Ledger, ops: seq<Op>, asset: Address, round: Round)
    requires StampedRun(cfg, s, ops, round)
    ensures SolvencyEntries(RunAll(cfg, s, ops), asset, round) == SolvencyEntries(s, asset, round)
    decreases |ops|
  {
    hide Step, StampedFrom, SolvencyEntries, SamePast;
    if ops != [] {
      StepKeepsPast(cfg, s, ops[0], round);
      SamePastSameEntries(s, Step(cfg, s, ops[0]), asset, round);
      TreeIsFrozen(cfg, Step(cfg, s, ops[0]), ops[1..], asset, round);
    }
  }
}
