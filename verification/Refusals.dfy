// Which calls the ledger accepts, which of several faults it reports, and what an accepted call changes.
module Refusals {
  import opened BasicTypes
  import opened BigNumbers
  import opened Wrappers
  import opened Ledgers
  import opened LedgerBalances
  import opened LedgerBooks

  // --- Approvals and deposits -----------------------------------------------------------------

  /** A lone approval is refused before anything is patched, so remembered balances stay exact whatever it says. */
  lemma {:induction false} LoneApprovalKeepsCache(s: Ledger, a: Approval)
    requires CacheExact(s.accounts, s.cache)
    ensures var stored := InsertApproval(s, a); CacheExact(stored.ledger.accounts, stored.ledger.cache)
  {
    hide Available, CacheExact, FindApproval, Post, PatchCache, ReadBalance, IsRegistered;
    ReadBalanceExact(s, a.sellAsset, a.owner, a.round);
    var backed := ValidateBacking(s, a).ledger;
    var x := NO_MOVEMENT.(locked := a.sell);
    assert Net(x) == 0.0;
    PatchExactIff(backed.accounts, backed.cache, SellKey(a), x);
  }

  /** Which of several faults of an approval is reported. */
  lemma {:induction false} BackingRefusedAs(s: Ledger, a: Approval)
    requires CacheExact(s.accounts, s.cache)
    ensures var error := ValidateBacking(s, a).error;
      var listed, registered := a.sellAsset in s.assets && a.buyAsset in s.assets, IsRegistered(s.wallets, a.owner);
      && (error == Some(UnregisteredAsset) <==> !listed)
      && (error == Some(UnregisteredWallet) <==> listed && !registered)
      && (error == Some(InsufficientBalance) <==>
            listed && registered && Available(s.accounts, a.sellAsset, a.owner, a.round) < a.sell)
  {
    hide Available, CacheExact, ReadBalance, IsRegistered;
    ReadBalanceExact(s, a.sellAsset, a.owner, a.round);
  }

  /** Which of several faults of a deposit is reported; a refused one changes nothing, an accepted one is booked once. */
  lemma {:induction false} DepositRefusedAs(s: Ledger, asset: Address, wallet: Address, amount: Amount, round: int)
    ensures var after := CreditDeposit(s, asset, wallet, amount, round);
      var registered := IsRegistered(s.wallets, wallet);
      && (after.error == Some(UnregisteredWallet) <==> !registered)
      && (after.error == Some(InvalidAmount) <==> registered && amount <= 0.0)
      && (after.error == Some(InvalidRound) <==> registered && amount > 0.0 && round < 0)
      && (!after.Ok() ==> after.ledger == s)
      && (after.Ok() <==> registered && amount > 0.0 && round >= 0)
      && (after.Ok() ==>
            && after.ledger.deposits == s.deposits + [Deposit(asset, wallet, amount, round)]
            && forall k: Key :: AccountAt(after.ledger.accounts, k)
                 == if k == Key(round, asset, wallet)
                    then AccountAt(s.accounts, k).(deposited := AccountAt(s.accounts, k).deposited + amount)
                    else AccountAt(s.accounts, k))
  {
    hide IsRegistered, PatchCache;
  }

  /**
   * An approval is cancelled if and only if it is stored and open. Only its row changes, in its status,
   * and what it has not sold leaves the lock of its account; a refusal changes nothing.
   */
  lemma {:induction false} CancelAcceptedIff(s: Ledger, id: Id)
    requires UniqueIds(s.approvals) && RowsExist(s.accounts, s.approvals, s.fills)
    ensures var after := CancelApproval(s, id);
      && (after.Ok() <==> exists i :: 0 <= i < |s.approvals| && s.approvals[i].params.approvalId == id && s.approvals[i].status == Open)
      && (after.error == Some(ApprovalNotFound) <==> forall i :: 0 <= i < |s.approvals| ==> s.approvals[i].params.approvalId != id)
      && (!after.Ok() ==> after.ledger == s)
      && forall i :: 0 <= i < |s.approvals| && s.approvals[i].params.approvalId == id && s.approvals[i].status == Open ==>
           var row := s.approvals[i];
           && after.ledger == s.(accounts := after.ledger.accounts, approvals := after.ledger.approvals, cache := after.ledger.cache)
           && after.ledger.approvals == s.approvals[i := row.(status := Canceled)]
           && forall k: Key :: AccountAt(after.ledger.accounts, k)
                == if k == SellKey(row.params) then AccountAt(s.accounts, k).(locked := AccountAt(s.accounts, k).locked - Outstanding(row))
                   else AccountAt(s.accounts, k)
  {
    hide FindApproval, PatchCache;
    var i := FindApproval(s.approvals, id);
    forall j | 0 <= j < |s.approvals| && s.approvals[j].params.approvalId == id
      ensures j == i
    {
      FindUnique(s.approvals, j);
    }
  }

  // --- Fills ----------------------------------------------------------------------------------

  /** An approval that a fill may be booked under: open, and of the same assets, round, instance and owner. */
  predicate Admits(row: ApprovalRow, f: Fill) {
    && row.params.approvalId == f.approvalId && row.status == Open
    && row.params.sellAsset == f.sellAsset && row.params.buyAsset == f.buyAsset
    && row.params.round == f.round && row.params.instanceId == f.instanceId && row.params.owner == f.clientAddress
  }

  /**
   * A fill is accepted if and only if its id is new, its approval admits it, and its account has the sold
   * amount locked, by whichever approvals. A refused one changes nothing.
   */
  lemma {:induction false} FillAcceptedIff(s: Ledger, f: Fill)
    requires UniqueIds(s.approvals)
    ensures InsertFill(s, f).Ok() <==>
      && (forall j :: 0 <= j < |s.fills| ==> s.fills[j].fillId != f.fillId)
      && (exists i :: 0 <= i < |s.approvals| && Admits(s.approvals[i], f))
      && Key(f.round, f.sellAsset, f.clientAddress) in s.accounts
      && f.sell <= AccountAt(s.accounts, Key(f.round, f.sellAsset, f.clientAddress)).locked
    ensures !InsertFill(s, f).Ok() ==> InsertFill(s, f).ledger == s
  {
    hide FindApproval, PostFill, PatchCache;
    var i := FindApproval(s.approvals, f.approvalId);
    forall j | 0 <= j < |s.approvals| && s.approvals[j].params.approvalId == f.approvalId
      ensures j == i
    {
      FindUnique(s.approvals, j);
    }
  }

  /** Which of several faults of a fill is reported. */
  lemma {:induction false} FillRefusedAs(s: Ledger, f: Fill)
    requires UniqueIds(s.approvals)
    ensures var error := InsertFill(s, f).error;
      var known := exists j :: 0 <= j < |s.fills| && s.fills[j].fillId == f.fillId;
      && (error == Some(DuplicateFill) <==> known)
      && (error == Some(UnbackedFill) <==> !known && forall i :: 0 <= i < |s.approvals| ==> s.approvals[i].params.approvalId != f.approvalId)
      && (forall i :: 0 <= i < |s.approvals| && s.approvals[i].params.approvalId == f.approvalId && !known ==>
            var a := s.approvals[i].params;
            && (error == Some(AssetMismatch) <==> a.sellAsset != f.sellAsset || a.buyAsset != f.buyAsset)
            && (a.sellAsset == f.sellAsset && a.buyAsset == f.buyAsset ==>
                  && (error == Some(RoundMismatch) <==> a.round != f.round)
                  && (a.round == f.round ==>
                        && (error == Some(InstanceMismatch) <==> a.instanceId != f.instanceId)
                        && (a.instanceId == f.instanceId ==> (error == Some(WalletMismatch) <==> a.owner != f.clientAddress)))))
  {
    hide FindApproval, PostFill, PatchCache;
    var i := FindApproval(s.approvals, f.approvalId);
    forall j | 0 <= j < |s.approvals| && s.approvals[j].params.approvalId == f.approvalId
      ensures j == i
    {
      FindUnique(s.approvals, j);
    }
  }
}
