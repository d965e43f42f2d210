// A withdrawal from its request to its end: what each operation does to its row, and where the row can go.
module WithdrawalLifecycle {
  import opened BasicTypes
  import opened BigNumbers
  import opened Wrappers
  import opened Ledgers
  import opened LedgerBalances
  import opened LedgerSound
  import opened Matching
  import opened OrderFlow
  import opened Exchanges
  import opened Runs

  predicate IsPending(w: Withdrawal, asset: Address, wallet: Address) {
    w.asset == asset && w.wallet == wallet && w.status == Pending
  }

  /** Some withdrawal of the account is pending. */
  predicate HasPending(withdrawals: seq<Withdrawal>, asset: Address, wallet: Address) {
    exists i :: 0 <= i < |withdrawals| && IsPending(withdrawals[i], asset, wallet)
  }

  /** Requested and neither confirmed nor canceled. */
  predicate IsLive(w: Withdrawal, asset: Address, wallet: Address) {
    w.asset == asset && w.wallet == wallet && (w.status == Pending || w.status == Unchecked)
  }

  predicate HasLive(withdrawals: seq<Withdrawal>, asset: Address, wallet: Address) {
    exists i :: 0 <= i < |withdrawals| && IsLive(withdrawals[i], asset, wallet)
  }

  // --- Requesting -----------------------------------------------------------------------------

  /** A request is stored as it came, at the end, unless its transaction is known. */
  lemma RequestExact(s: Ledger, w: Withdrawal)
    ensures var after := InsertWithdrawal(s, w);
      && (after.error == None || after.error == Some(DuplicateTransaction))
      && (after.Ok() <==> forall i :: 0 <= i < |s.withdrawals| ==> s.withdrawals[i].txHash != w.txHash)
      && after.ledger == if after.Ok() then s.(withdrawals := s.withdrawals + [w]) else s
  {
  }

  /** What every withdrawal has to meet: a positive, covered amount, a round after the first, nothing else pending. */
  ghost predicate Withdrawable(s: Ledger, w: Withdrawal) {
    && 0.0 < w.amount <= Available(s.accounts, w.asset, w.wallet, w.round)
    && w.round >= 1
    && !HasPending(s.withdrawals, w.asset, w.wallet)
  }

  /** When a withdrawal may be made, and which of several faults is reported. */
  lemma {:induction false} ValidatedIff(s: Ledger, w: Withdrawal)
    requires CacheExact(s.accounts, s.cache)
    ensures var valid := ValidateWithdrawal(s, w);
      && valid.ledger == s.(cache := valid.ledger.cache)
      && (valid.Ok() <==> Withdrawable(s, w))
      && (valid.error == Some(DoubleWithdrawal) <==>
            0.0 < w.amount <= Available(s.accounts, w.asset, w.wallet, w.round) && w.round >= 1
            && HasPending(s.withdrawals, w.asset, w.wallet))
      && (valid.error == Some(InvalidAmount) <==> w.amount <= 0.0)
      && (valid.error == Some(InsufficientBalance) <==> 0.0 < w.amount && Available(s.accounts, w.asset, w.wallet, w.round) < w.amount)
      && (valid.error == Some(InvalidRound) <==>
            0.0 < w.amount <= Available(s.accounts, w.asset, w.wallet, w.round) && w.round == 0)
  {
    hide Available, ReadBalance, CacheExact;
    ReadBalanceExact(s, w.asset, w.wallet, w.round);
  }

  /** Only the row of the withdrawal's own round and account changes, by the amount, and only in what was withdrawn. */
  ghost predicate TakenOut(before: map<Key, Account>, after: map<Key, Account>, w: Withdrawal, amount: Amount) {
    forall k: Key ::
      AccountAt(after, k)
      == if k == Key(w.round, w.asset, w.wallet)
         then AccountAt(before, k).(withdrawn := AccountAt(before, k).withdrawn + amount)
         else AccountAt(before, k)
  }

  /** A direct withdrawal is accepted exactly when it may be made and its transaction is new; its row is then pending. */
  lemma {:induction false} WithdrawIff(s: Ledger, w: Withdrawal)
    requires CacheExact(s.accounts, s.cache)
    ensures var after := Withdraw(s, w);
      && (after.Ok() <==> Withdrawable(s, w) && forall i :: 0 <= i < |s.withdrawals| ==> s.withdrawals[i].txHash != w.txHash)
      && (after.Ok() ==>
            && TakenOut(s.accounts, after.ledger.accounts, w, w.amount)
            && after.ledger.withdrawals == s.withdrawals + [Withdrawal(w.txHash, w.asset, w.wallet, w.amount, w.round, Pending)])
      && (!after.Ok() ==> after.ledger == s.(cache := after.ledger.cache))
      && (after.error == Some(DoubleWithdrawal) ==> HasPending(s.withdrawals, w.asset, w.wallet))
  {
    hide Withdrawable, ValidateWithdrawal, PatchCache, HasPending;
    ValidatedIff(s, w);
  }

  /** A stored request is approved under the same conditions, and then is the pending row. */
  lemma {:induction false} ApproveIff(s: Ledger, id: nat)
    requires CacheExact(s.accounts, s.cache) && id < |s.withdrawals|
    ensures var w, after := s.withdrawals[id], ApproveWithdrawal(s, id, s.withdrawals[id]);
      && (after.Ok() <==> Withdrawable(s, w))
      && (after.Ok() ==>
            && TakenOut(s.accounts, after.ledger.accounts, w, w.amount)
            && |after.ledger.withdrawals| == |s.withdrawals|
            && forall i :: 0 <= i < |s.withdrawals| ==>
                 after.ledger.withdrawals[i] == if i == id then s.withdrawals[i].(status := Pending) else s.withdrawals[i])
      && (!after.Ok() ==> after.ledger == s.(cache := after.ledger.cache))
  {
    hide Withdrawable, ValidateWithdrawal, PatchCache;
    ValidatedIff(s, s.withdrawals[id]);
  }

  // --- Ending ---------------------------------------------------------------------------------

  /**
   * A confirmation needs a pending withdrawal of the account. It makes that row confirmed, the same in
   * everything else, leaves none pending, and touches nothing besides.
   */
  lemma {:induction false} ConfirmExact(s: Ledger, asset: Address, wallet: Address)
    requires WithdrawalsInOrder(s.withdrawals)
    ensures var after := ConfirmWithdrawal(s, asset, wallet);
      && after.error == (if HasPending(s.withdrawals, asset, wallet) then None else Some(WithdrawalNotFound))
      && after.ledger == s.(withdrawals := after.ledger.withdrawals)
      && |after.ledger.withdrawals| == |s.withdrawals|
      && (forall i :: 0 <= i < |s.withdrawals| ==>
            after.ledger.withdrawals[i]
            == if IsPending(s.withdrawals[i], asset, wallet) then s.withdrawals[i].(status := Confirmed) else s.withdrawals[i])
      && !HasPending(after.ledger.withdrawals, asset, wallet)
  {
    var i := FindWithdrawal(s.withdrawals, asset, wallet, {Pending});
    hide FindWithdrawal;
    assert forall j :: 0 <= j < |s.withdrawals| && IsPending(s.withdrawals[j], asset, wallet) ==> j == i;
  }

  /**
   * A cancellation ends the first live withdrawal of the account. Of an unchecked request nothing else
   * changes; the amount of a pending one goes back to the account it was taken from.
   */
  lemma {:induction false} CancelExact(s: Ledger, asset: Address, wallet: Address)
    ensures var after := CancelWithdrawal(s, asset, wallet);
      && after.error == (if HasLive(s.withdrawals, asset, wallet) then None else Some(WithdrawalNotFound))
      && (!after.Ok() ==> after.ledger == s)
      && forall i :: 0 <= i < |s.withdrawals| && IsLive(s.withdrawals[i], asset, wallet)
                     && (forall j :: 0 <= j < i ==> !IsLive(s.withdrawals[j], asset, wallet)) ==>
           var w := s.withdrawals[i];
           && after.ledger.withdrawals == s.withdrawals[i := w.(status := CanceledWithdrawal)]
           && after.ledger == s.(withdrawals := after.ledger.withdrawals, accounts := after.ledger.accounts, cache := after.ledger.cache)
           && (w.status == Unchecked ==> after.ledger.accounts == s.accounts && after.ledger.cache == s.cache)
           && (w.status == Pending ==> TakenOut(s.accounts, after.ledger.accounts, w, -w.amount))
  {
    var i := FindWithdrawal(s.withdrawals, asset, wallet, {Pending, Unchecked});
    hide FindWithdrawal, PatchCache;
    assert forall j :: 0 <= j < i ==> !IsLive(s.withdrawals[j], asset, wallet);
    assert i < |s.withdrawals| ==> IsLive(s.withdrawals[i], asset, wallet);
  }

  /** Once a withdrawal is confirmed, the account's next covered one goes through. */
  lemma {:induction false} NextAfterConfirmed(s: Ledger, w: Withdrawal)
    requires Sound(s) && ConfirmWithdrawal(s, w.asset, w.wallet).Ok()
    requires 0.0 < w.amount <= Available(s.accounts, w.asset, w.wallet, w.round) && w.round >= 1
    requires !HasTransaction(s.withdrawals, w.txHash)
    ensures Withdraw(s, w).error == Some(DoubleWithdrawal)
    ensures Withdraw(ConfirmWithdrawal(s, w.asset, w.wallet).ledger, w).Ok()
  {
    hide Available, ConfirmWithdrawal, HasPending, ValidateWithdrawal;
    SoundParts(s);
    SoundWithdrawals(s);
    ConfirmExact(s, w.asset, w.wallet);
    ValidatedIff(s, w);
    var after := ConfirmWithdrawal(s, w.asset, w.wallet).ledger;
    WithdrawIff(after, w);
    assert forall i :: 0 <= i < |s.withdrawals| ==> after.withdrawals[i].txHash == s.withdrawals[i].txHash;
  }

  lemma SoundWithdrawals(s: Ledger)
    requires Sound(s)
    ensures WithdrawalsInOrder(s.withdrawals) && CacheExact(s.accounts, s.cache)
  {
  }

  // --- Over runs ------------------------------------------------------------------------------

  predicate IsFinal(status: WithdrawalStatus) {
    status.Confirmed? || status.CanceledWithdrawal?
  }

  /** Unchecked, then pending, then confirmed; it may be canceled until it is confirmed. */
  predicate Onwards(before: WithdrawalStatus, after: WithdrawalStatus) {
    after == before || before == Unchecked || (before == Pending && IsFinal(after))
  }

  /** Rows stay where they are, change in their status alone, and only onwards. */
  predicate RowsOnwards(before: seq<Withdrawal>, after: seq<Withdrawal>) {
    && |before| <= |after|
    && forall i :: 0 <= i < |before| ==>
         after[i] == before[i].(status := after[i].status) && Onwards(before[i].status, after[i].status)
  }

  /** Approving a withdrawal that has already ended. */
  predicate ReopensEnded(s: Ledger, op: Op) {
    && op.ApproveWithdrawalOp? && op.id < |s.withdrawals| && IsFinal(s.withdrawals[op.id].status)
    && ApproveWithdrawal(s, op.id, s.withdrawals[op.id]).Ok()
  }

  lemma InsertLeavesWithdrawals(s: Ledger, order: Approval, fee: Approval)
    ensures InsertOrder(s, order, fee).ledger.withdrawals == s.withdrawals
  {
    hide FindApproval, Post, PatchCache, Available, IsRegistered;
  }

  lemma FillLeavesWithdrawals(s: Ledger, params: FillParams)
    ensures AddFill(s, params).ledger.withdrawals == s.withdrawals
  {
    hide FindApproval, PostFill, PatchCache, ValidateFill;
  }

  lemma FeeLeavesWithdrawals(cfg: Config, s: Ledger, fee: Approval, id: Id)
    ensures ProcessFeeApproval(cfg, s, fee, id).ledger.withdrawals == s.withdrawals
  {
    hide FindApproval, Post, PatchCache, Available, IsRegistered, AddFill;
    var other := OperatorApprovalForFee(cfg, fee, id);
    var stored := InsertApproval(s, other).ledger;
    FillLeavesWithdrawals(stored, FeeToFill(fee));
    FillLeavesWithdrawals(AddFill(stored, FeeToFill(fee)).ledger, FeeToFill(other));
  }

  lemma {:induction false} TradesLeaveWithdrawals(s: Ledger, trades: seq<Trade>)
    ensures RegisterTrades(s, trades).ledger.withdrawals == s.withdrawals
    decreases |trades|
  {
    hide AddFill;
    if trades != [] {
      var (takerFill, makerFill) := CreateFillParams(trades[0]);
      FillLeavesWithdrawals(s, takerFill);
      FillLeavesWithdrawals(AddFill(s, takerFill).ledger, makerFill);
      TradesLeaveWithdrawals(AddFills(s, takerFill, makerFill).ledger, trades[1..]);
    }
  }

  lemma {:induction false} OrderLeavesWithdrawals(cfg: Config, s: Ledger, round: Round, later: Round, order: Approval, fee: Approval, id: Id)
    ensures AddOrder(cfg, s, round, later, order, fee, id).ledger.withdrawals == s.withdrawals
  {
    hide CheckOrder, InsertOrder, ProcessFeeApproval, CreateTradesForApproval, RegisterTrades;
    if CheckOrder(cfg, s, round, order, fee).None? {
      InsertLeavesWithdrawals(s, order, fee);
      var stored := InsertOrder(s, order, fee);
      FeeLeavesWithdrawals(cfg, stored.ledger, fee, id);
      var paid := ProcessFeeApproval(cfg, stored.ledger, fee, id);
      if stored.Ok() && paid.Ok() {
        StoredAmounts(s, order, fee);
        var trades := CreateTradesForApproval(cfg, paid.ledger, later, order);
        if trades.Success? {
          TradesLeaveWithdrawals(paid.ledger, trades.value);
        }
      }
    }
  }

  /** Every operation that is not about withdrawals leaves all of them alone. */
  lemma {:induction false} OthersLeaveWithdrawals(cfg: Config, s: Ledger, op: Op)
    requires op.RegisterWallet? || op.CreditDepositOp? || op.ReadBalanceOp? || op.AddOrderOp? || op.CancelOrderOp?
    ensures Step(cfg, s, op).withdrawals == s.withdrawals
  {
    hide AddOrder, IsRegistered, Post, PatchCache, Available, FindApproval;
    if op.AddOrderOp? {
      OrderLeavesWithdrawals(cfg, s, op.round, op.later, op.order, op.fee, op.operatorApprovalId);
    }
  }

  lemma {:induction false} ConfirmOnwards(s: Ledger, asset: Address, wallet: Address)
    ensures RowsOnwards(s.withdrawals, ConfirmWithdrawal(s, asset, wallet).ledger.withdrawals)
  {
    hide FindWithdrawal;
  }

  lemma {:induction false} CancelOnwards(s: Ledger, asset: Address, wallet: Address)
    ensures RowsOnwards(s.withdrawals, CancelWithdrawal(s, asset, wallet).ledger.withdrawals)
  {
    hide FindWithdrawal, Post, PatchCache;
  }

  lemma {:induction false} WithdrawOnwards(s: Ledger, w: Withdrawal)
    ensures RowsOnwards(s.withdrawals, Withdraw(s, w).ledger.withdrawals)
    ensures RowsOnwards(s.withdrawals, InsertWithdrawal(s, w).ledger.withdrawals)
  {
    hide FindWithdrawal, Post, PatchCache, Available;
  }

  lemma {:induction false} ApproveOnwardsIff(s: Ledger, id: nat)
    requires id < |s.withdrawals|
    ensures RowsOnwards(s.withdrawals, ApproveWithdrawal(s, id, s.withdrawals[id]).ledger.withdrawals)
            <==> !(IsFinal(s.withdrawals[id].status) && ApproveWithdrawal(s, id, s.withdrawals[id]).Ok())
  {
    hide FindWithdrawal, Post, PatchCache, Available;
    var after := ApproveWithdrawal(s, id, s.withdrawals[id]);
    assert after.Ok() ==> after.ledger.withdrawals[id].status == Pending;
  }

  /** A withdrawal only moves onwards, whatever is done, unless one that has ended is approved again. */
  lemma {:induction false} StepOnwardsIff(cfg: Config, s: Ledger, op: Op)
    ensures RowsOnwards(s.withdrawals, Step(cfg, s, op).withdrawals) <==> !ReopensEnded(s, op)
  {
    hide RowsOnwards, AddOrder, CreditDeposit, Register, ReadBalance, CancelOrder, InsertWithdrawal, ApproveWithdrawal, Withdraw,
         CancelWithdrawal, ConfirmWithdrawal;
    SameRowsOnwards(s.withdrawals);
    match op {
      case RequestWithdrawal(request) => WithdrawOnwards(s, request);
      case WithdrawOp(request) => WithdrawOnwards(s, request);
      case ApproveWithdrawalOp(id) => if id < |s.withdrawals| { ApproveOnwardsIff(s, id); }
      case CancelWithdrawalOp(asset, wallet) => CancelOnwards(s, asset, wallet);
      case ConfirmWithdrawalOp(asset, wallet) => ConfirmOnwards(s, asset, wallet);
      case _ => OthersLeaveWithdrawals(cfg, s, op);
    }
  }

  lemma SameRowsOnwards(rows: seq<Withdrawal>)
    ensures RowsOnwards(rows, rows)
  {
  }

  lemma OnwardsTwice(first: seq<Withdrawal>, second: seq<Withdrawal>, third: seq<Withdrawal>)
    requires RowsOnwards(first, second) && RowsOnwards(second, third)
    ensures RowsOnwards(first, third)
  {
  }

  /** In every orderly run each withdrawal moves onwards only, and one that has ended stays as it is for good. */
  lemma {:induction false} EndedForGood(cfg: Config, s: Ledger, ops: seq<Op>)
    requires OrderlyRun(cfg, s, ops)
    ensures RowsOnwards(s.withdrawals, RunAll(cfg, s, ops).withdrawals)
    ensures forall i :: 0 <= i < |s.withdrawals| && IsFinal(s.withdrawals[i].status) ==>
      RunAll(cfg, s, ops).withdrawals[i] == s.withdrawals[i]
    decreases |ops|
  {
    if ops == [] {
      SameRowsOnwards(s.withdrawals);
    } else {
      OrderlyReopensNothing(cfg, s, ops[0]);
      StepOnwardsIff(cfg, s, ops[0]);
      hide Step, Orderly;
      EndedForGood(cfg, Step(cfg, s, ops[0]), ops[1..]);
      OnwardsTwice(s.withdrawals, Step(cfg, s, ops[0]).withdrawals, RunAll(cfg, s, ops).withdrawals);
    }
  }

  lemma OrderlyReopensNothing(cfg: Config, s: Ledger, op: Op)
    requires Orderly(cfg, s, op)
    ensures !ReopensEnded(s, op)
  {
    hide OrderlyOrder, ApproveWithdrawal, FindWithdrawal, LaterDepositsOnly;
  }

  /** An attempt to make a withdrawal of this account pending. */
  predicate TakesFrom(s: Ledger, op: Op, asset: Address, wallet: Address) {
    match op
    case WithdrawOp(request) => request.asset == asset && request.wallet == wallet
    case ApproveWithdrawalOp(id) => id < |s.withdrawals| && s.withdrawals[id].asset == asset && s.withdrawals[id].wallet == wallet
    case _ => false
  }

  predicate NothingTaken(cfg: Config, s: Ledger, ops: seq<Op>, asset: Address, wallet: Address)
    decreases |ops|
  {
    ops == [] || (!TakesFrom(s, ops[0], asset, wallet) && NothingTaken(cfg, Step(cfg, s, ops[0]), ops[1..], asset, wallet))
  }

  lemma {:induction false} NoneBecomesPending(cfg: Config, s: Ledger, op: Op, asset: Address, wallet: Address)
    requires Orderly(cfg, s, op) && !TakesFrom(s, op, asset, wallet) && !HasPending(s.withdrawals, asset, wallet)
    ensures !HasPending(Step(cfg, s, op).withdrawals, asset, wallet)
  {
    hide AddOrder, CreditDeposit, Register, CancelOrder, Available, OrderlyOrder, LaterDepositsOnly, Post, PatchCache,
         FindWithdrawal, HasTransaction;
    if op.RegisterWallet? || op.CreditDepositOp? || op.ReadBalanceOp? || op.AddOrderOp? || op.CancelOrderOp? {
      OthersLeaveWithdrawals(cfg, s, op);
    } else {
      forall i | 0 <= i < |Step(cfg, s, op).withdrawals|
        ensures !IsPending(Step(cfg, s, op).withdrawals[i], asset, wallet)
      {
        assert i < |s.withdrawals| ==> !IsPending(s.withdrawals[i], asset, wallet);
      }
    }
  }

  lemma {:induction false} NonePendingAfter(cfg: Config, s: Ledger, ops: seq<Op>, asset: Address, wallet: Address)
    requires OrderlyRun(cfg, s, ops) && NothingTaken(cfg, s, ops, asset, wallet) && !HasPending(s.withdrawals, asset, wallet)
    ensures !HasPending(RunAll(cfg, s, ops).withdrawals, asset, wallet)
    decreases |ops|
  {
    hide HasPending, Orderly, Step, TakesFrom;
    if ops != [] {
      NoneBecomesPending(cfg, s, ops[0], asset, wallet);
      NonePendingAfter(cfg, Step(cfg, s, ops[0]), ops[1..], asset, wallet);
    }
  }

  /**
   * After a confirmation, and whatever orderly operations follow that take nothing from the account, its
   * next withdrawal is never refused for a pending one: it goes through exactly when its amount is positive
   * and covered, its round after the first and its transaction new.
   */
  lemma {:induction false} NextWithdrawalIff(cfg: Config, s: Ledger, ops: seq<Op>, w: Withdrawal)
    requires ExchangeSound(cfg, s) && ConfirmWithdrawal(s, w.asset, w.wallet).Ok()
    requires var confirmed := ConfirmWithdrawal(s, w.asset, w.wallet).ledger;
      OrderlyRun(cfg, confirmed, ops) && NothingTaken(cfg, confirmed, ops, w.asset, w.wallet)
    ensures var later := RunAll(cfg, ConfirmWithdrawal(s, w.asset, w.wallet).ledger, ops);
      && Withdraw(later, w).error != Some(DoubleWithdrawal)
      && (Withdraw(later, w).Ok() <==>
            && 0.0 < w.amount <= Available(later.accounts, w.asset, w.wallet, w.round) && w.round >= 1
            && !HasTransaction(later.withdrawals, w.txHash))
  {
    hide Available, ConfirmWithdrawal, HasPending, Withdraw, OrderlyRun, RunAll, NothingTaken, Sound;
    SoundWithdrawals(s);
    ConfirmExact(s, w.asset, w.wallet);
    var confirmed := ConfirmWithdrawal(s, w.asset, w.wallet).ledger;
    assert confirmed == Step(cfg, s, ConfirmWithdrawalOp(w.asset, w.wallet));
    StepSound(cfg, s, ConfirmWithdrawalOp(w.asset, w.wallet));
    RunSound(cfg, confirmed, ops);
    NonePendingAfter(cfg, confirmed, ops, w.asset, w.wallet);
    var later := RunAll(cfg, confirmed, ops);
    SoundWithdrawals(later);
    WithdrawIff(later, w);
  }
}
