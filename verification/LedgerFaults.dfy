// Where the ledger's own checks are too weak, and the exact condition under which they suffice.
module LedgerFaults {
  import opened BasicTypes
  import opened BigNumbers
  import opened Wrappers
  import opened Ledgers
  import opened LedgerBalances
  import opened LedgerBooks
  import opened LedgerSound
  import opened OrderFlow

  /** Reading balances for an order and its fee leaves both accounts remembered for their round. */
  lemma {:induction false} BothRemembered(s: Ledger, order: Approval, fee: Approval)
    requires CacheExact(s.accounts, s.cache) && order.round == fee.round
    requires ValidateOrder(s, order, fee).Ok()
    ensures var valid := ValidateOrder(s, order, fee).ledger;
      && valid == s.(cache := valid.cache) && CacheExact(valid.accounts, valid.cache)
      && (order.sellAsset, order.owner) in valid.cache && valid.cache[(order.sellAsset, order.owner)].round == order.round
      && (fee.sellAsset, fee.owner) in valid.cache && valid.cache[(fee.sellAsset, fee.owner)].round == order.round
      && order.sell <= Available(s.accounts, order.sellAsset, order.owner, order.round)
      && fee.sell <= Available(s.accounts, fee.sellAsset, fee.owner, fee.round)
  {
    hide Available, ReadBalance, CacheExact;
    ReadBalanceExact(s, order.sellAsset, order.owner, order.round);
    var first := ValidateBacking(s, order).ledger;
    ReadBalanceExact(first, fee.sellAsset, fee.owner, fee.round);
  }

  /** What it takes for an order and its fee to pass validation. */
  lemma {:induction false} PassesValidation(s: Ledger, order: Approval, fee: Approval)
    requires CacheExact(s.accounts, s.cache) && OrderAmounts(order) && FeeAmounts(fee)
    requires order.sellAsset in s.assets && order.buyAsset in s.assets && fee.sellAsset in s.assets && fee.buyAsset in s.assets
    requires IsRegistered(s.wallets, order.owner) && IsRegistered(s.wallets, fee.owner)
    requires order.sell <= Available(s.accounts, order.sellAsset, order.owner, order.round)
    requires fee.sell <= Available(s.accounts, fee.sellAsset, fee.owner, fee.round)
    ensures ValidateOrder(s, order, fee).Ok()
  {
    hide Available, ReadBalance, CacheExact, IsRegistered;
    ReadBalanceExact(s, order.sellAsset, order.owner, order.round);
    var first := ValidateBacking(s, order).ledger;
    ReadBalanceExact(first, fee.sellAsset, fee.owner, fee.round);
  }

  /**
   * Order validation looks at the same balance twice, once for the order and once for its fee. A
   * stored order leaves balances non-negative if and only if the two together were covered.
   */
  lemma {:induction false} StoredOrderCoveredIff(s: Ledger, order: Approval, fee: Approval)
    requires NonNegative(s.accounts) && CacheExact(s.accounts, s.cache) && order.round == fee.round
    requires InsertOrder(s, order, fee).Ok()
    ensures NonNegative(InsertOrder(s, order, fee).ledger.accounts) <==> CoversBoth(s, order, fee)
  {
    hide Available, NonNegative, CacheExact, FindApproval, Post, PatchCache, ValidateOrder;
    BothRemembered(s, order, fee);
    var x, y := NO_MOVEMENT.(locked := order.sell), NO_MOVEMENT.(locked := fee.sell);
    var middle := Post(s.accounts, SellKey(order), x);
    var after := InsertOrder(s, order, fee).ledger.accounts;
    assert Net(x) == 0.0 == Net(y);
    assert OrderAmounts(order) && FeeAmounts(fee) by { hide *; StoredAmounts(s, order, fee); }
    assert after == Post(middle, SellKey(fee), y);
    AvailableAfterPost(s.accounts, SellKey(order), x, fee.sellAsset, fee.owner, fee.round);
    AvailableAfterPost(middle, SellKey(fee), y, fee.sellAsset, fee.owner, fee.round);
    AvailableIsNonNegative(s.accounts, SellKey(order));
    PostKeepsNonNegative(s.accounts, SellKey(order), x);
    AvailableIsNonNegative(middle, SellKey(fee));
    if CoversBoth(s, order, fee) {
      PostKeepsNonNegative(middle, SellKey(fee), y);
    } else {
      assert Available(after, fee.sellAsset, fee.owner, fee.round) < 0.0;
      assert NonNegative(after) ==> Available(after, fee.sellAsset, fee.owner, fee.round) >= 0.0 by {
        if NonNegative(after) { AvailableIsNonNegative(after, SellKey(fee)); }
      }
    }
  }

  /** An id of the order is taken, or used twice. */
  predicate RepeatsId(approvals: seq<ApprovalRow>, order: Approval, fee: Approval) {
    || HasApproval(approvals, order.approvalId)
    || HasApproval(approvals, fee.approvalId)
    || order.approvalId == fee.approvalId
  }

  /** A validated order is refused exactly when it repeats an id. */
  lemma {:induction false} RepeatedIdRefused(s: Ledger, order: Approval, fee: Approval)
    requires ValidateOrder(s, order, fee).Ok()
    ensures InsertOrder(s, order, fee).error == if RepeatsId(s.approvals, order, fee) then Some(DuplicateApproval) else None
  {
    hide FindApproval, Post, PatchCache, ReadBalance, IsRegistered;
    assert ValidateOrder(s, order, fee).ledger.approvals == s.approvals by {
      BackingKeepsApprovals(s, order);
      BackingKeepsApprovals(ValidateBacking(s, order).ledger, fee);
    }
    FindAfterAppend(s.approvals, ApprovalRow(order, 0.0, 0.0, Open), fee.approvalId);
  }

  /**
   * The cache is patched before the table refuses a repeated id, and is not rolled back. Submitting an
   * order leaves the cache exact if and only if the order does not pass validation with a repeated id.
   */
  lemma {:induction false} CacheSurvivesInsertIff(s: Ledger, order: Approval, fee: Approval)
    requires CacheExact(s.accounts, s.cache) && order.round == fee.round
    ensures var stored := InsertOrder(s, order, fee);
      CacheExact(stored.ledger.accounts, stored.ledger.cache)
      <==> !(ValidateOrder(s, order, fee).Ok() && RepeatsId(s.approvals, order, fee))
  {
    hide Available, CacheExact, FindApproval, Post, PatchCache, ValidateOrder, RepeatsId;
    if ValidateOrder(s, order, fee).Ok() {
      RepeatedIdRefused(s, order, fee);
      var valid := ValidateOrder(s, order, fee).ledger;
      BothRemembered(s, order, fee);
      assert OrderAmounts(order) && FeeAmounts(fee) by { ValidAmounts(s, order, fee); }
      var x, y := NO_MOVEMENT.(locked := order.sell), NO_MOVEMENT.(locked := fee.sell);
      assert Net(x) == 0.0 == Net(y);
      PatchExactIff(valid.accounts, valid.cache, SellKey(order), x);
      var first := LockApproval(valid, order);
      PatchExactIff(first.accounts, first.cache, SellKey(fee), y);
      DoublePatch(valid.accounts, valid.cache, order, fee);
    } else {
      RefusedReadsExact(s, order, fee);
    }
  }

  lemma {:induction false} RefusedReadsExact(s: Ledger, order: Approval, fee: Approval)
    requires CacheExact(s.accounts, s.cache) && !ValidateOrder(s, order, fee).Ok()
    ensures var valid := ValidateOrder(s, order, fee);
      CacheExact(valid.ledger.accounts, valid.ledger.cache) && valid.error != Some(DuplicateApproval)
  {
    hide Available, ReadBalance, CacheExact;
    ReadBalanceExact(s, order.sellAsset, order.owner, order.round);
    var first := ValidateBacking(s, order).ledger;
    ReadBalanceExact(first, fee.sellAsset, fee.owner, fee.round);
  }

  /** Patches for locks that never reached the accounts make a remembered balance wrong. */
  lemma {:induction false} DoublePatch(accounts: map<Key, Account>, cache: map<(Address, Address), Cached>, order: Approval, fee: Approval)
    requires CacheExact(accounts, cache) && order.round == fee.round && order.sell > 0.0 && fee.sell > 0.0
    requires (order.sellAsset, order.owner) in cache && cache[(order.sellAsset, order.owner)].round == order.round
    ensures !CacheExact(accounts, PatchCache(cache, order.sellAsset, order.owner, order.round, -order.sell))
    ensures !CacheExact(accounts, PatchCache(PatchCache(cache, order.sellAsset, order.owner, order.round, -order.sell),
                                             fee.sellAsset, fee.owner, fee.round, -fee.sell))
  {
    hide Available;
    var key := (order.sellAsset, order.owner);
    assert cache[key].balance == Available(accounts, key.0, key.1, cache[key].round);
    var once := PatchCache(cache, order.sellAsset, order.owner, order.round, -order.sell);
    assert once[key].balance != Available(accounts, key.0, key.1, once[key].round);
    var twice := PatchCache(once, fee.sellAsset, fee.owner, fee.round, -fee.sell);
    assert twice[key].balance != Available(accounts, key.0, key.1, twice[key].round);
  }

  /**
   * The ledger checks a fill only against the pooled lock of its account. A fill it accepts keeps the
   * books balanced if and only if the approval itself had room for it at its price.
   */
  lemma {:induction false} AcceptedFillFitsIff(s: Ledger, f: Fill)
    requires Represented(s) && BooksBalance(s) && f.fillId == NextFillId(s) && InsertFill(s, f).Ok()
    ensures BooksBalance(InsertFill(s, f).ledger) <==> FillFits(s, f)
  {
    hide Times, FindApproval;
    var i := FindApproval(s.approvals, f.approvalId);
    var after := InsertFill(s, f).ledger;
    if FillFits(s, f) {
      FillKeepsBooks(s, f);
    }
    if BooksBalance(after) {
      assert BackedFill(after.approvals, after.fills[|s.fills|]);
      FindAfterUpdate(s.approvals, i, FillRow(s.approvals[i], f.buy, f.sell), f.approvalId);
      assert NotOverfilled(after.approvals[i]);
    }
  }

  lemma {:induction false} WithdrawnFromRound(accounts: map<Key, Account>, k: Key, amount: Amount)
    requires NonNegative(accounts) && amount > 0.0
    ensures NonNegative(Post(accounts, k, NO_MOVEMENT.(withdrawn := amount)))
            <==> forall round: Round :: round >= k.round ==> Available(accounts, k.asset, k.wallet, round) >= amount
  {
    hide Opening, Available, Post;
    var d := NO_MOVEMENT.(withdrawn := amount);
    var after := Post(accounts, k, d);
    forall asset: Address, wallet: Address, round: Round
      ensures Available(after, asset, wallet, round)
              == Available(accounts, asset, wallet, round)
                 - if asset == k.asset && wallet == k.wallet && k.round <= round then amount else 0.0
    {
      AvailableAfterPost(accounts, k, d, asset, wallet, round);
    }
    forall other
      ensures AccountAt(after, other).locked == AccountAt(accounts, other).locked
    {
      AccountAfterPost(accounts, k, d, other);
    }
  }

  /** The amount is free in the withdrawal's round and in every later one. */
  ghost predicate FreeFrom(accounts: map<Key, Account>, w: Withdrawal) {
    forall round: Round :: round >= w.round ==> Available(accounts, w.asset, w.wallet, round) >= w.amount
  }

  /**
   * Validation looks at the balance of the withdrawal's own round only, but the money is missing in
   * every later round too. An accepted withdrawal, recorded at once or approved later, leaves
   * balances non-negative if and only if the amount was free in all of them.
   */
  lemma {:induction false} BackdatedWithdrawalIff(s: Ledger, w: Withdrawal, id: nat)
    requires NonNegative(s.accounts)
    ensures Withdraw(s, w).Ok() ==> (NonNegative(Withdraw(s, w).ledger.accounts) <==> FreeFrom(s.accounts, w))
    ensures ApproveWithdrawal(s, id, w).Ok() ==>
      (NonNegative(ApproveWithdrawal(s, id, w).ledger.accounts) <==> FreeFrom(s.accounts, w))
  {
    hide Available, NonNegative, Post, PatchCache, FindWithdrawal, HasTransaction;
    if w.amount > 0.0 {
      WithdrawnFromRound(s.accounts, Key(w.round, w.asset, w.wallet), w.amount);
    }
  }
}
