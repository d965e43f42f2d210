// What an accepted order leaves in the tables besides its trades, and how runs grow by one operation.
module OrderEffects {
  import opened BasicTypes
  import opened BigNumbers
  import opened Matching
  import opened Ledgers
  import opened LedgerBalances
  import opened LedgerBooks
  import opened LedgerSound
  import opened Exchanges
  import opened Settlement
  import opened OrderFlow
  import opened Runs

  // --- What an accepted order leaves behind ---------------------------------------------------

  /** The book with the order open, and both sides of its fee filled. */
  function BookedWith(approvals: seq<ApprovalRow>, order: Approval, fee: Approval, other: Approval): seq<ApprovalRow> {
    approvals + [ApprovalRow(order, 0.0, 0.0, Open)]
    + [ApprovalRow(fee, fee.buy, fee.sell, Closed)] + [ApprovalRow(other, other.buy, other.sell, Closed)]
  }

  lemma {:induction false} FeePaidOnBook(cfg: Config, s: Ledger, round: Round, order: Approval, fee: Approval, id: Id, before: seq<ApprovalRow>)
    requires Sound(s) && Current(s, round) && IsRegistered(s.wallets, cfg.operator)
    requires ProperFee(cfg, s, round, fee) && FreshRow(s, fee) && FreshRow(s, order)
    requires !HasApproval(s.approvals, id) && order.approvalId != fee.approvalId
    requires AccountsTimely(s, OperatorApprovalForFee(cfg, fee, id))
    requires s.approvals == before + [ApprovalRow(order, 0.0, 0.0, Open)] + [ApprovalRow(fee, 0.0, 0.0, Open)]
    requires !HasApproval(before, fee.approvalId)
    ensures ProcessFeeApproval(cfg, s, fee, id).ledger.approvals
            == BookedWith(before, order, fee, OperatorApprovalForFee(cfg, fee, id))
  {
    hide Sound, Current, FindApproval, IsRegistered, InsertApproval, AddFill, Post, PatchCache, AccountsTimely;
    var other := OperatorApprovalForFee(cfg, fee, id);
    OperatorSideStored(cfg, s, round, fee, id);
    FreshAfterLock(s, other);
    var stored := InsertApproval(s, other).ledger;
    FeeFillSound(stored, fee, round);
    FeeFillKeepsRow(stored, fee, other);
    var half := AddFill(stored, FeeToFill(fee)).ledger;
    FeeFillSound(half, other, round);
    var n := |before|;
    FindAfterAppend(before, ApprovalRow(order, 0.0, 0.0, Open), fee.approvalId);
    FindAfterAppend(before + [ApprovalRow(order, 0.0, 0.0, Open)], ApprovalRow(fee, 0.0, 0.0, Open), fee.approvalId);
    FindAfterAppend(s.approvals, ApprovalRow(other, 0.0, 0.0, Open), fee.approvalId);
    FindAfterAppend(s.approvals, ApprovalRow(other, 0.0, 0.0, Open), id);
    assert FindApproval(stored.approvals, fee.approvalId) == n + 1;
    assert FindApproval(stored.approvals, id) == n + 2;
    assert AddFill(half, FeeToFill(other)).ledger.approvals == BookedWith(before, order, fee, other);
  }

  /** The rows of a wallet that neither orders, pays nor operates stay as they are. */
  ghost predicate SameRows(s: Ledger, t: Ledger, wallet: Address) {
    forall k: Key :: k.wallet == wallet ==> AccountAt(t.accounts, k) == AccountAt(s.accounts, k)
  }

  lemma LockSameRows(s: Ledger, a: Approval, wallet: Address)
    requires a.owner != wallet
    ensures SameRows(s, LockApproval(s, a), wallet)
  {
  }

  lemma {:induction false} AddFillSameRows(s: Ledger, params: FillParams, wallet: Address)
    requires HasApproval(s.approvals, params.approvalId)
    requires s.approvals[FindApproval(s.approvals, params.approvalId)].params.owner != wallet
    ensures SameRows(s, AddFill(s, params).ledger, wallet)
  {
    hide FindApproval, ValidateFill, PatchCache;
  }

  lemma SameRowsSameBalance(s: Ledger, t: Ledger, asset: Address, wallet: Address, round: Round)
    requires SameRows(s, t, wallet)
    ensures Available(t.accounts, asset, wallet, round) == Available(s.accounts, asset, wallet, round)
  {
    hide AccountAt, Opening;
    OpeningLocal(t.accounts, s.accounts, asset, wallet, round + 1);
  }

  lemma {:induction false} FeeSameRows(cfg: Config, s: Ledger, round: Round, order: Approval, fee: Approval, id: Id, wallet: Address)
    requires Sound(s) && Current(s, round) && IsRegistered(s.wallets, cfg.operator)
    requires ProperFee(cfg, s, round, fee) && FreshRow(s, fee) && FreshRow(s, order)
    requires !HasApproval(s.approvals, id) && order.approvalId != fee.approvalId
    requires AccountsTimely(s, OperatorApprovalForFee(cfg, fee, id))
    requires wallet != fee.owner && wallet != cfg.operator
    ensures SameRows(s, ProcessFeeApproval(cfg, s, fee, id).ledger, wallet)
    ensures SameLater(s, ProcessFeeApproval(cfg, s, fee, id).ledger, round)
  {
    hide Sound, Current, FindApproval, IsRegistered, InsertApproval, AddFill, Post, PatchCache, AccountsTimely, SameLater, SameRows;
    var other := OperatorApprovalForFee(cfg, fee, id);
    OperatorSideStored(cfg, s, round, fee, id);
    FreshAfterLock(s, other);
    var stored := InsertApproval(s, other).ledger;
    StoredSame(s, stored, other, wallet, round);
    FeeFillSound(stored, fee, round);
    FeeFillKeepsRow(stored, fee, other);
    var half := AddFill(stored, FeeToFill(fee)).ledger;
    FeeFillSound(half, other, round);
    AddFillSameRows(stored, FeeToFill(fee), wallet);
    AddFillSameRows(half, FeeToFill(other), wallet);
    AddFillSameLater(stored, FeeToFill(fee), round);
    AddFillSameLater(half, FeeToFill(other), round);
    SameSteps(s, stored, half, wallet, round);
    SameSteps(s, half, AddFill(half, FeeToFill(other)).ledger, wallet, round);
  }

  lemma StoredSame(s: Ledger, stored: Ledger, a: Approval, wallet: Address, round: Round)
    requires stored == LockApproval(s, a).(cache := stored.cache) && a.owner != wallet && a.round <= round
    requires stored.cache == InsertApproval(s, a).ledger.cache && InsertApproval(s, a).Ok()
    ensures SameRows(s, stored, wallet) && SameLater(s, stored, round)
  {
    hide FindApproval, SameLater, SameRows, Post, PatchCache, ReadBalance, IsRegistered;
    LockSameRows(s, a, wallet);
    TablesSameRows(s, LockApproval(s, a), stored, wallet);
    var backed := ValidateBacking(s, a).ledger;
    BackingSameLater(s, a, round);
    LockSameLater(backed, a, round);
    SameLaterSteps(s, backed, LockApproval(backed, a), round);
    assert stored.accounts == LockApproval(s, a).accounts;
    assert InsertApproval(s, a).ledger == LockApproval(backed, a);
    BackingAccounts(s, a);
    SameTablesSameLater(s, LockApproval(backed, a), stored, round);
  }

  lemma BackingAccounts(s: Ledger, a: Approval)
    ensures ValidateBacking(s, a).ledger.accounts == s.accounts
  {
    hide Available, IsRegistered;
  }

  lemma SameTablesSameLater(s: Ledger, t: Ledger, u: Ledger, round: Round)
    requires SameLater(s, t, round) && u.accounts == t.accounts && u.cache == t.cache
    ensures SameLater(s, u, round)
  {
    hide AccountAt;
  }

  lemma TablesSameRows(s: Ledger, t: Ledger, u: Ledger, wallet: Address)
    requires SameRows(s, t, wallet) && u.accounts == t.accounts
    ensures SameRows(s, u, wallet)
  {
    hide AccountAt;
  }

  lemma AddFillSameLater(s: Ledger, params: FillParams, round: Round)
    requires params.round <= round
    ensures SameLater(s, AddFill(s, params).ledger, round)
  {
    hide FindApproval, InsertFill, SameLater;
    SameLaterSteps(s, s, s, round);
    var i := FindApproval(s.approvals, params.approvalId);
    if i < |s.approvals| {
      InsertFillSameLater(s, MkFill(s, s.approvals[i].params, params), round);
    }
  }

  lemma SameSteps(s: Ledger, t: Ledger, u: Ledger, wallet: Address, round: Round)
    requires SameRows(s, t, wallet) && SameRows(t, u, wallet) && SameLater(s, t, round) && SameLater(t, u, round)
    ensures SameRows(s, u, wallet) && SameLater(s, u, round)
  {
    hide AccountAt, SameLater;
    SameLaterSteps(s, t, u, round);
  }

  /** The ledger in which an accepted order is matched, for everyone else and for later rounds. */
  lemma {:induction false} ReadyTables(cfg: Config, s: Ledger, round: Round, order: Approval, fee: Approval, id: Id, wallet: Address)
    requires ExchangeSound(cfg, s) && OrderlyButForMatching(cfg, s, round, order, fee, id)
    requires CheckOrder(cfg, s, round, order, fee).None? && InsertOrder(s, order, fee).Ok()
    requires wallet != order.owner && wallet != fee.owner && wallet != cfg.operator
    ensures var ready := ReadyToMatch(cfg, s, order, fee, id);
      && ready.approvals == BookedWith(s.approvals, order, fee, OperatorApprovalForFee(cfg, fee, id))
      && SameRows(s, ready, wallet) && SameLater(s, ready, round) && ready.assets == s.assets
  {
    hide Sound, Current, FindApproval, IsRegistered, Conserved, InsertOrder, ProcessFeeApproval, Available, Post, PatchCache;
    hide BookedWithinLimits, AccountsTimely, SameLater, SameRows, CheckOrder;
    CheckedFacts(cfg, s, round, order, fee);
    InsertOrderSound(s, round, order, fee, id);
    var stored := InsertOrder(s, order, fee).ledger;
    FreshAfterLock(s, order);
    FreshAfterLock(LockApproval(s, order), fee);
    StillTimely(s, stored, OperatorApprovalForFee(cfg, fee, id));
    FeePaidOnBook(cfg, stored, round, order, fee, id, s.approvals);
    FeeSameRows(cfg, stored, round, order, fee, id, wallet);
    LockSameRows(s, order, wallet);
    LockSameRows(LockApproval(s, order), fee, wallet);
    TablesSameRows(LockApproval(s, order), LockBoth(s, order, fee), stored, wallet);
    ReadyAssets(cfg, s, order, fee, id);
    SameLaterSteps(s, s, s, round);
    RowSteps(s, LockApproval(s, order), stored, wallet);
    RowSteps(s, stored, ProcessFeeApproval(cfg, stored, fee, id).ledger, wallet);
    SameLaterSteps(s, stored, ProcessFeeApproval(cfg, stored, fee, id).ledger, round);
  }

  lemma RowSteps(s: Ledger, t: Ledger, u: Ledger, wallet: Address)
    requires SameRows(s, t, wallet) && SameRows(t, u, wallet)
    ensures SameRows(s, u, wallet)
  {
    hide AccountAt;
  }

  lemma CheckedFacts(cfg: Config, s: Ledger, round: Round, order: Approval, fee: Approval)
    requires CheckOrder(cfg, s, round, order, fee).None?
    ensures order.round == round == fee.round && fee.intent.SellAll? && fee.buyAsset == fee.sellAsset
  {
    hide IsRegistered;
  }

  lemma AddFillAssets(s: Ledger, params: FillParams)
    ensures AddFill(s, params).ledger.assets == s.assets
  {
    hide FindApproval, PostFill, PatchCache, ValidateFill;
  }

  lemma InsertApprovalAssets(s: Ledger, a: Approval)
    ensures InsertApproval(s, a).ledger.assets == s.assets
  {
    hide FindApproval, Post, PatchCache, Available, IsRegistered;
  }

  lemma InsertOrderAssets(s: Ledger, order: Approval, fee: Approval)
    ensures InsertOrder(s, order, fee).ledger.assets == s.assets
  {
    hide FindApproval, Post, PatchCache, Available, IsRegistered;
  }

  lemma ReadyAssets(cfg: Config, s: Ledger, order: Approval, fee: Approval, id: Id)
    ensures ReadyToMatch(cfg, s, order, fee, id).assets == s.assets
  {
    hide InsertOrder, InsertApproval, AddFill;
    InsertOrderAssets(s, order, fee);
    var stored := InsertOrder(s, order, fee).ledger;
    var other := OperatorApprovalForFee(cfg, fee, id);
    InsertApprovalAssets(stored, other);
    AddFillAssets(InsertApproval(stored, other).ledger, FeeToFill(fee));
    AddFillAssets(AddFill(InsertApproval(stored, other).ledger, FeeToFill(fee)).ledger, FeeToFill(other));
  }

  /** All that is asked of an orderly order except that its matching be aligned. */
  ghost predicate OrderlyButForMatching(cfg: Config, s: Ledger, round: Round, order: Approval, fee: Approval, id: Id) {
    && Current(s, round) && cfg.decimalPlaces <= TOKEN_DECIMALS && AllTimely(cfg, s, order, fee, id)
    && order.buyAsset != order.sellAsset && FreshIds(s, order, fee, id) && CoversBoth(s, order, fee)
  }

  // --- Longer and longer runs -----------------------------------------------------------------

  lemma {:induction false} OneMoreOp(cfg: Config, s: Ledger, ops: seq<Op>, op: Op)
    requires OrderlyRun(cfg, s, ops) && Orderly(cfg, RunAll(cfg, s, ops), op)
    ensures OrderlyRun(cfg, s, ops + [op]) && RunAll(cfg, s, ops + [op]) == Step(cfg, RunAll(cfg, s, ops), op)
    decreases |ops|
  {
    hide Orderly, Step;
    if ops == [] {
      assert ops + [op] == [op];
      assert [op][1..] == [];
    } else {
      OneMoreOp(cfg, Step(cfg, s, ops[0]), ops[1..], op);
      assert (ops + [op])[0] == ops[0] && (ops + [op])[1..] == ops[1..] + [op];
    }
  }

  lemma {:induction false} ReachesFurther(cfg: Config, assets: set<Address>, s: Ledger, op: Op)
    requires Reachable(cfg, assets, s) && Orderly(cfg, s, op)
    ensures Reachable(cfg, assets, Step(cfg, s, op))
  {
    hide Orderly, Step, OrderlyRun, RunAll;
    var ops :| OrderlyRun(cfg, Start(assets, cfg.operator), ops) && s == RunAll(cfg, Start(assets, cfg.operator), ops);
    OneMoreOp(cfg, Start(assets, cfg.operator), ops, op);
  }

  lemma StartIsReachable(cfg: Config, assets: set<Address>)
    ensures Reachable(cfg, assets, Start(assets, cfg.operator))
  {
    var ops: seq<Op> := [];
    assert OrderlyRun(cfg, Start(assets, cfg.operator), ops);
  }
}
