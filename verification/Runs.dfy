// Whole runs of the exchange: any sequence of operations, in any interleaving that its callers keep
// orderly.
module Runs {
  import opened BasicTypes
  import opened BigNumbers
  import opened Sums
  import opened Ledgers
  import opened LedgerBalances
  import opened LedgerBooks
  import opened LedgerSound
  import opened Exchanges
  import opened Settlement
  import opened OrderFlow

  datatype Op =
    | RegisterWallet(wallet: Address, round: Round)
    | CreditDepositOp(asset: Address, wallet: Address, amount: Amount, at: int)
    | ReadBalanceOp(asset: Address, wallet: Address, round: Round)
    | AddOrderOp(round: Round, later: Round, order: Approval, fee: Approval, operatorApprovalId: Id)
    | CancelOrderOp(round: Round, approvalId: Id)
    | RequestWithdrawal(request: Withdrawal)
    | ApproveWithdrawalOp(id: nat)
    | WithdrawOp(request: Withdrawal)
    | CancelWithdrawalOp(asset: Address, wallet: Address)
    | ConfirmWithdrawalOp(asset: Address, wallet: Address)

  function Step(cfg: Config, s: Ledger, op: Op): Ledger {
    match op
    case RegisterWallet(wallet, round) => Register(s, wallet, round)
    case CreditDepositOp(asset, wallet, amount, at) => CreditDeposit(s, asset, wallet, amount, at).ledger
    case ReadBalanceOp(asset, wallet, round) => ReadBalance(s, asset, wallet, round).0
    case AddOrderOp(round, later, order, fee, id) => AddOrder(cfg, s, round, later, order, fee, id).ledger
    case CancelOrderOp(round, id) => CancelOrder(s, round, id).ledger
    case RequestWithdrawal(request) => InsertWithdrawal(s, request).ledger
    case ApproveWithdrawalOp(id) => if id < |s.withdrawals| then ApproveWithdrawal(s, id, s.withdrawals[id]).ledger else s
    case WithdrawOp(request) => Withdraw(s, request).ledger
    case CancelWithdrawalOp(asset, wallet) => CancelWithdrawal(s, asset, wallet).ledger
    case ConfirmWithdrawalOp(asset, wallet) => ConfirmWithdrawal(s, asset, wallet).ledger
  }

  /** After a withdrawal's round its account has early deposits at most, and no later balance is remembered. */
  ghost predicate TimelyForWithdrawal(s: Ledger, w: Withdrawal) {
    LaterDepositsOnly(s.accounts, w.asset, w.wallet, w.round) && NotCachedLater(s.cache, w.asset, w.wallet, w.round)
  }

  /**
   * What the callers of each operation guarantee: rounds do not go back behind what was written or
   * remembered nor move on while an order is added, order and fee are covered together under fresh ids,
   * matching is aligned, and a withdrawal is approved from its unchecked state.
   */
  ghost predicate Orderly(cfg: Config, s: Ledger, op: Op) {
    match op
    case RegisterWallet(_, _) => true
    case CreditDepositOp(asset, wallet, _, at) => at >= 0 ==> NotCachedLater(s.cache, asset, wallet, at)
    case ReadBalanceOp(_, _, _) => true
    case AddOrderOp(round, later, order, fee, id) => later == round && OrderlyOrder(cfg, s, round, order, fee, id)
    case CancelOrderOp(_, _) => true
    case RequestWithdrawal(request) => request.status.Unchecked?
    case ApproveWithdrawalOp(id) =>
      id < |s.withdrawals| ==> s.withdrawals[id].status.Unchecked? && TimelyForWithdrawal(s, s.withdrawals[id])
    case WithdrawOp(request) => TimelyForWithdrawal(s, request)
    case CancelWithdrawalOp(asset, wallet) =>
      var i := FindWithdrawal(s.withdrawals, asset, wallet, {Pending, Unchecked});
      i < |s.withdrawals| && s.withdrawals[i].status.Pending? ==>
        NotCachedLater(s.cache, asset, wallet, s.withdrawals[i].round)
    case ConfirmWithdrawalOp(_, _) => true
  }

  function RunAll(cfg: Config, s: Ledger, ops: seq<Op>): Ledger
    decreases |ops|
  {
    if ops == [] then s else RunAll(cfg, Step(cfg, s, ops[0]), ops[1..])
  }

  ghost predicate OrderlyRun(cfg: Config, s: Ledger, ops: seq<Op>)
    decreases |ops|
  {
    ops == [] || (Orderly(cfg, s, ops[0]) && OrderlyRun(cfg, Step(cfg, s, ops[0]), ops[1..]))
  }

  // --- One step -------------------------------------------------------------------------------

  /** A step that leaves fills, approvals and the operator's registration alone. */
  lemma KeepsExchange(cfg: Config, s: Ledger, after: Ledger)
    requires ExchangeSound(cfg, s) && Sound(after)
    requires after.fills == s.fills && after.wallets == s.wallets
    requires |after.approvals| == |s.approvals|
    requires forall i :: 0 <= i < |s.approvals| ==>
      after.approvals[i] == s.approvals[i] || after.approvals[i] == s.approvals[i].(status := Canceled)
    ensures ExchangeSound(cfg, after)
  {
    hide Sound, Conserved, IsRegistered;
  }

  lemma RegisterKeeps(cfg: Config, s: Ledger, wallet: Address, round: Round)
    requires ExchangeSound(cfg, s)
    ensures ExchangeSound(cfg, Register(s, wallet, round))
  {
    hide Sound, Conserved, BookedWithinLimits;
    RegisterSound(s, wallet, round);
    var i :| 0 <= i < |s.wallets| && s.wallets[i].wallet == cfg.operator;
    assert Register(s, wallet, round).wallets[i].wallet == cfg.operator;
  }

  lemma {:induction false} DepositKeeps(cfg: Config, s: Ledger, asset: Address, wallet: Address, amount: Amount, at: int)
    requires ExchangeSound(cfg, s) && (at >= 0 ==> NotCachedLater(s.cache, asset, wallet, at))
    ensures ExchangeSound(cfg, CreditDeposit(s, asset, wallet, amount, at).ledger)
  {
    hide Sound, Conserved, BookedWithinLimits, IsRegistered, Post, PatchCache, NotCachedLater;
    if IsRegistered(s.wallets, wallet) && amount > 0.0 && at >= 0 {
      DepositSound(s, asset, wallet, amount, at);
      KeepsExchange(cfg, s, CreditDeposit(s, asset, wallet, amount, at).ledger);
    }
  }

  lemma CancelOrderKeeps(cfg: Config, s: Ledger, round: Round, id: Id)
    requires ExchangeSound(cfg, s)
    ensures ExchangeSound(cfg, CancelOrder(s, round, id).ledger)
  {
    hide Sound, Conserved, IsRegistered, Post, PatchCache, FindApproval;
    CancelSound(s, id);
    KeepsExchange(cfg, s, CancelApproval(s, id).ledger);
  }

  /** A validated request is payable at once, and a refused one only leaves a remembered balance. */
  lemma {:induction false} ValidatedIsPayable(s: Ledger, w: Withdrawal)
    requires Sound(s) && TimelyForWithdrawal(s, w)
    ensures var valid := ValidateWithdrawal(s, w);
      && valid.ledger == s.(cache := valid.ledger.cache) && Sound(valid.ledger)
      && (valid.Ok() ==> Payable(valid.ledger, w))
  {
    hide Sound, Available, FindWithdrawal, ReadBalance, LaterDepositsOnly;
    SoundParts(s);
    ReadBalanceExact(s, w.asset, w.wallet, w.round);
    ReadSound(s, w.asset, w.wallet, w.round);
  }

  lemma {:induction false} ApproveKeeps(cfg: Config, s: Ledger, id: nat)
    requires ExchangeSound(cfg, s) && id < |s.withdrawals|
    requires s.withdrawals[id].status.Unchecked? && TimelyForWithdrawal(s, s.withdrawals[id])
    ensures ExchangeSound(cfg, ApproveWithdrawal(s, id, s.withdrawals[id]).ledger)
  {
    hide Sound, Conserved, IsRegistered, Post, PatchCache, BookedWithinLimits, ValidateWithdrawal, Payable, TimelyForWithdrawal;
    var w := s.withdrawals[id];
    ValidatedIsPayable(s, w);
    var valid := ValidateWithdrawal(s, w);
    if valid.Ok() {
      WithdrawSound(valid.ledger, w, s.withdrawals[id := w.(status := Pending)]);
    }
    KeepsExchange(cfg, s, ApproveWithdrawal(s, id, w).ledger);
  }

  lemma {:induction false} WithdrawKeeps(cfg: Config, s: Ledger, w: Withdrawal)
    requires ExchangeSound(cfg, s) && TimelyForWithdrawal(s, w)
    ensures ExchangeSound(cfg, Withdraw(s, w).ledger)
  {
    hide Sound, Conserved, IsRegistered, Post, PatchCache, BookedWithinLimits, ValidateWithdrawal, Payable, TimelyForWithdrawal, HasTransaction;
    ValidatedIsPayable(s, w);
    var valid := ValidateWithdrawal(s, w);
    if valid.Ok() && !HasTransaction(s.withdrawals, w.txHash) {
      WithdrawSound(valid.ledger, w, s.withdrawals + [w.(status := Pending)]);
    }
    KeepsExchange(cfg, s, Withdraw(s, w).ledger);
  }

  lemma {:induction false} OtherWithdrawalsKeep(cfg: Config, s: Ledger, op: Op)
    requires ExchangeSound(cfg, s) && Orderly(cfg, s, op)
    requires op.RequestWithdrawal? || op.CancelWithdrawalOp? || op.ConfirmWithdrawalOp? || op.ReadBalanceOp?
    ensures ExchangeSound(cfg, Step(cfg, s, op))
  {
    hide Sound, Conserved, IsRegistered, Post, PatchCache, BookedWithinLimits, HasTransaction, FindWithdrawal, Available, AddOrder;
    match op {
      case RequestWithdrawal(request) => RequestSound(s, request);
      case CancelWithdrawalOp(asset, wallet) => CancelWithdrawalSound(s, asset, wallet);
      case ConfirmWithdrawalOp(asset, wallet) => ConfirmSound(s, asset, wallet);
      case ReadBalanceOp(asset, wallet, round) => ReadSound(s, asset, wallet, round);
    }
    KeepsExchange(cfg, s, Step(cfg, s, op));
  }

  /** Every orderly operation, accepted or refused, keeps the whole invariant. */
  lemma {:induction false} StepSound(cfg: Config, s: Ledger, op: Op)
    requires ExchangeSound(cfg, s) && Orderly(cfg, s, op)
    ensures ExchangeSound(cfg, Step(cfg, s, op))
  {
    hide ExchangeSound, OrderlyOrder, AddOrder, CreditDeposit, ApproveWithdrawal, Withdraw, CancelOrder, FindWithdrawal;
    match op {
      case RegisterWallet(wallet, round) => RegisterKeeps(cfg, s, wallet, round);
      case CreditDepositOp(asset, wallet, amount, at) => DepositKeeps(cfg, s, asset, wallet, amount, at);
      case AddOrderOp(round, later, order, fee, id) => AddOrderSound(cfg, s, round, order, fee, id);
      case CancelOrderOp(round, id) => CancelOrderKeeps(cfg, s, round, id);
      case ApproveWithdrawalOp(id) => if id < |s.withdrawals| { ApproveKeeps(cfg, s, id); }
      case WithdrawOp(request) => WithdrawKeeps(cfg, s, request);
      case _ => OtherWithdrawalsKeep(cfg, s, op);
    }
  }

  // --- All runs -------------------------------------------------------------------------------

  lemma {:induction false} RunSound(cfg: Config, s: Ledger, ops: seq<Op>)
    requires ExchangeSound(cfg, s) && OrderlyRun(cfg, s, ops)
    ensures ExchangeSound(cfg, RunAll(cfg, s, ops))
    decreases |ops|
  {
    hide ExchangeSound, Orderly, Step;
    if ops != [] {
      StepSound(cfg, s, ops[0]);
      RunSound(cfg, Step(cfg, s, ops[0]), ops[1..]);
    }
  }

  /** A ledger that some orderly run of the exchange produces. */
  ghost predicate Reachable(cfg: Config, assets: set<Address>, s: Ledger) {
    exists ops :: OrderlyRun(cfg, Start(assets, cfg.operator), ops) && s == RunAll(cfg, Start(assets, cfg.operator), ops)
  }

  /**
   * In every reachable ledger: every account row is what the tables add up to, no approval is
   * overfilled, no balance is negative, no fill overspent, at most one withdrawal is pending per
   * account, every remembered balance is exact, and every asset is conserved by trading.
   */
  lemma {:induction false} ReachableSound(cfg: Config, assets: set<Address>, s: Ledger)
    requires Reachable(cfg, assets, s)
    ensures ExchangeSound(cfg, s)
  {
    hide Sound, OrderlyRun, RunAll, IsRegistered;
    var ops :| OrderlyRun(cfg, Start(assets, cfg.operator), ops) && s == RunAll(cfg, Start(assets, cfg.operator), ops);
    StartSound(assets, cfg.operator);
    RunSound(cfg, Start(assets, cfg.operator), ops);
  }

  /** `locked` is the outstanding amount of the account's approvals that were not canceled. */
  lemma LockedIsOutstanding(cfg: Config, assets: set<Address>, s: Ledger, k: Key)
    requires Reachable(cfg, assets, s)
    ensures AccountAt(s.accounts, k).locked == SumBy(s.approvals, LockedAt(k))
  {
    hide Reachable;
    ReachableSound(cfg, assets, s);
    assert AccountAt(s.accounts, k) == Recorded(s, k);
  }

  /** `locked` is what open approvals have outstanding exactly when no closed one kept an unsold remainder. */
  lemma LockedIsOpenOutstandingIff(cfg: Config, assets: set<Address>, s: Ledger, k: Key)
    requires Reachable(cfg, assets, s)
    ensures AccountAt(s.accounts, k).locked == SumBy(s.approvals, OpenAt(k))
            <==> forall i :: 0 <= i < |s.approvals| && s.approvals[i].status.Closed? && SellKey(s.approvals[i].params) == k ==>
                   s.approvals[i].filledSell == s.approvals[i].params.sell
  {
    hide Reachable, SumBy, Represented, NoneOverfilled;
    ReachableSound(cfg, assets, s);
    SoundParts(s);
    LockedIsOpenIff(s, k) by { BooksNoneOverfilled(s); }
  }

  lemma BooksNoneOverfilled(s: Ledger)
    requires BooksBalance(s)
    ensures NoneOverfilled(s.approvals)
  {
  }

  /** `withdrawn` is the sum of pending and confirmed withdrawals, of which one at most is pending. */
  lemma WithdrawnIsEffective(cfg: Config, assets: set<Address>, s: Ledger, k: Key)
    requires Reachable(cfg, assets, s)
    ensures AccountAt(s.accounts, k).withdrawn == SumBy(s.withdrawals, WithdrawnAt(k))
    ensures WithdrawalsInOrder(s.withdrawals)
  {
    hide Reachable;
    ReachableSound(cfg, assets, s);
    assert AccountAt(s.accounts, k) == Recorded(s, k);
  }

  /** `balance()` is the full sum over past rounds less the current locks, cached or not. */
  lemma BalanceIsFullSum(cfg: Config, assets: set<Address>, s: Ledger, asset: Address, wallet: Address, round: Round)
    requires Reachable(cfg, assets, s)
    ensures ReadBalance(s, asset, wallet, round).1 == Available(s.accounts, asset, wallet, round) >= 0.0
  {
    hide Reachable, Available, ReadBalance;
    ReachableSound(cfg, assets, s);
    ReadBalanceExact(s, asset, wallet, round);
    AvailableIsNonNegative(s.accounts, Key(round, asset, wallet));
  }
}
