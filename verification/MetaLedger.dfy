// The ledger as the program keeps it: tables and a cache that methods change in place, each method
// tied to the operation of `Ledgers` that it performs (src/common/accounting/MetaLedger.ts).
module MetaLedgers {
  import opened BasicTypes
  import opened BigNumbers
  import opened Wrappers
  import L = Ledgers
  import opened Ledgers
  import opened LedgerBalances
  import opened LedgerSound

  function Restrict(accounts: map<Key, Account>, keys: set<Key>): map<Key, Account> {
    map k | k in accounts && k in keys :: accounts[k]
  }

  /** Taking one more row into account adds that row's net amount. */
  lemma {:induction false} OneMoreRow(accounts: map<Key, Account>, done: set<Key>, k: Key, round: Round)
    requires k in accounts && k !in done && k.round < round
    ensures Opening(Restrict(accounts, done + {k}), k.asset, k.wallet, round)
            == Opening(Restrict(accounts, done), k.asset, k.wallet, round) + Net(accounts[k])
  {
    hide Opening, Net;
    var before := Restrict(accounts, done);
    OpeningAfterPost(before, k, accounts[k], k.asset, k.wallet, round);
    assert Plus(NO_MOVEMENT, accounts[k]) == accounts[k];
    assert Restrict(accounts, done + {k}) == Post(before, k, accounts[k]);
  }

  /** Only the rows of this account and of earlier rounds were needed. */
  lemma {:induction false} AllRowsTaken(accounts: map<Key, Account>, asset: Address, wallet: Address, round: Round)
    ensures var rows := set k | k in accounts && k.asset == asset && k.wallet == wallet && k.round < round;
      Opening(Restrict(accounts, rows), asset, wallet, round) == Opening(accounts, asset, wallet, round)
  {
    hide Opening;
    var rows := set k | k in accounts && k.asset == asset && k.wallet == wallet && k.round < round;
    OpeningLocal(Restrict(accounts, rows), accounts, asset, wallet, round);
  }

  lemma NothingTaken(accounts: map<Key, Account>)
    ensures Restrict(accounts, {}) == map[]
  {
  }

  lemma LockOfRow(accounts: map<Key, Account>, k: Key)
    ensures AccountAt(accounts, k).locked == if k in accounts then accounts[k].locked else 0.0
  {
  }

  class MetaLedger {
    const assets: set<Address>
    var accounts: map<Key, Account>
    var approvals: seq<ApprovalRow>
    var fills: seq<Fill>
    var withdrawals: seq<Withdrawal>
    var wallets: seq<WalletEntry>
    var cache: map<(Address, Address), Cached>
    ghost var deposits: seq<Deposit>

    ghost function State(): Ledger
      reads this
    {
      Ledger(assets, accounts, approvals, fills, withdrawals, wallets, deposits, cache)
    }

    constructor (assets: set<Address>, operator: Address)
      ensures State() == L.Start(assets, operator)
    {
      this.assets := assets;
      accounts, approvals, fills, withdrawals, wallets, cache, deposits := map[], [], [], [], [], map[], [];
      new;
      Register(operator, 0);
    }

    method Register(wallet: Address, round: Round)
      modifies this
      ensures State() == L.Register(old(State()), wallet, round)
    {
      if IsRegistered(wallets, wallet) {
        return;
      }
      wallets := wallets + [WalletEntry(wallet, round)];
    }

    method FindOrCreateAccount(k: Key) returns (account: Account)
      modifies this`accounts
      ensures account == AccountAt(old(accounts), k)
      ensures accounts == old(accounts)[k := account]
    {
      if k !in accounts {
        accounts := accounts[k := NO_MOVEMENT];
      }
      account := accounts[k];
    }

    method UpdateCachedBalance(asset: Address, wallet: Address, round: Round, delta: Amount)
      modifies this`cache
      ensures cache == PatchCache(old(cache), asset, wallet, round, delta)
    {
      var key := (asset, wallet);
      if key in cache && cache[key].round == round {
        cache := cache[key := Cached(round, cache[key].balance + delta)];
      }
    }

    method CreditDeposit(asset: Address, wallet: Address, amount: Amount, round: int) returns (error: Option<LedgerError>)
      modifies this
      ensures Outcome(State(), error) == L.CreditDeposit(old(State()), asset, wallet, amount, round)
    {
      if !IsRegistered(wallets, wallet) {
        return Some(UnregisteredWallet);
      }
      if amount <= 0.0 {
        return Some(InvalidAmount);
      }
      if round < 0 {
        return Some(InvalidRound);
      }
      var k := Key(round, asset, wallet);
      var account := FindOrCreateAccount(k);
      accounts := accounts[k := account.(deposited := account.deposited + amount)];
      UpdateCachedBalance(asset, wallet, round, amount);
      deposits := deposits + [Deposit(asset, wallet, amount, round)];
      return None;
    }

    /** A credit whose transaction is rolled back at its commit: only the patched cache stays. */
    method CreditUncommitted(asset: Address, wallet: Address, amount: Amount, round: int)
      modifies this
      ensures State() == old(State()).(cache := L.CreditDeposit(old(State()), asset, wallet, amount, round).ledger.cache)
    {
      ghost var credits := deposits;
      var committed := accounts;
      var error := CreditDeposit(asset, wallet, amount, round);
      accounts, deposits := committed, credits;
    }

    /** A new process finds the tables and remembers no balance. */
    method Reopen()
      modifies this`cache
      ensures State() == old(State()).(cache := map[])
    {
      cache := map[];
    }

    /** Adds up the account's rows of all earlier rounds, in whatever order the table yields them. */
    method OpeningBalance(asset: Address, wallet: Address, round: int) returns (r: Result<Amount, LedgerError>)
      ensures r == if round < 0 then Failure(InvalidRound) else Success(Opening(accounts, asset, wallet, round))
    {
      hide L.Opening, Restrict;
      if round < 0 {
        return Failure(InvalidRound);
      }
      var rows := set k | k in accounts && k.asset == asset && k.wallet == wallet && k.round < round;
      ghost var done: set<Key> := {};
      ghost var all := rows;
      var balance := 0.0;
      EmptyOpening(asset, wallet, round);
      NothingTaken(accounts);
      while rows != {}
        invariant rows + done == all && rows !! done
        invariant balance == Opening(Restrict(accounts, done), asset, wallet, round)
        decreases rows
      {
        var k :| k in rows;
        var account := accounts[k];
        OneMoreRow(accounts, done, k, round);
        balance := balance + account.deposited + account.bought - account.withdrawn - account.sold;
        rows := rows - {k};
        done := done + {k};
      }
      assert done == all;
      AllRowsTaken(accounts, asset, wallet, round);
      r := Success(balance);
    }

    /** The same sum including the current round, less what that round has locked. */
    method CalculateBalance(asset: Address, wallet: Address, round: Round) returns (balance: Amount)
      ensures balance + AccountAt(accounts, Key(round, asset, wallet)).locked == Opening(accounts, asset, wallet, round + 1)
      ensures balance == Available(accounts, asset, wallet, round)
    {
      hide L.Opening, Restrict, L.AccountAt;
      var rows := set k | k in accounts && k.asset == asset && k.wallet == wallet && k.round < round + 1;
      ghost var done: set<Key> := {};
      ghost var all := rows;
      ghost var current := Key(round, asset, wallet);
      balance := 0.0;
      EmptyOpening(asset, wallet, round + 1);
      NothingTaken(accounts);
      while rows != {}
        invariant rows + done == all && rows !! done
        invariant balance == Opening(Restrict(accounts, done), asset, wallet, round + 1)
                             - (if current in done then accounts[current].locked else 0.0)
        decreases rows
      {
        var k :| k in rows;
        var account := accounts[k];
        OneMoreRow(accounts, done, k, round + 1);
        balance := balance + account.deposited + account.bought - account.withdrawn - account.sold;
        if k.round == round {
          balance := balance - account.locked;
        }
        rows := rows - {k};
        done := done + {k};
      }
      AllRowsTaken(accounts, asset, wallet, round + 1);
      assert done == all;
      LockOfRow(accounts, current);
    }

    method Balance(asset: Address, wallet: Address, round: Round) returns (balance: Amount)
      modifies this`cache
      ensures (State(), balance) == ReadBalance(old(State()), asset, wallet, round)
    {
      var key := (asset, wallet);
      if key in cache && cache[key].round == round {
        return cache[key].balance;
      }
      balance := CalculateBalance(asset, wallet, round);
      cache := cache[key := Cached(round, balance)];
    }

    method ValidateApprovalBacking(a: Approval) returns (error: Option<LedgerError>)
      modifies this`cache
      ensures Outcome(State(), error) == L.ValidateBacking(old(State()), a)
    {
      if a.sellAsset !in assets || a.buyAsset !in assets {
        return Some(UnregisteredAsset);
      }
      if !IsRegistered(wallets, a.owner) {
        return Some(UnregisteredWallet);
      }
      var available := Balance(a.sellAsset, a.owner, a.round);
      if available < a.sell {
        return Some(InsufficientBalance);
      }
      return None;
    }

    /** The body of the transaction: on a duplicate id the caller rolls the tables back. */
    method DoInsertApproval(a: Approval) returns (error: Option<LedgerError>)
      modifies this`accounts, this`approvals, this`cache
      ensures error == L.DoInsertApproval(old(State()), a).error
      ensures cache == L.DoInsertApproval(old(State()), a).ledger.cache
      ensures error.None? ==> State() == L.LockApproval(old(State()), a)
    {
      hide L.PatchCache, L.FindApproval;
      var k := Key(a.round, a.sellAsset, a.owner);
      var account := FindOrCreateAccount(k);
      accounts := accounts[k := account.(locked := account.locked + a.sell)];
      assert accounts == Post(old(accounts), k, NO_MOVEMENT.(locked := a.sell));
      UpdateCachedBalance(a.sellAsset, a.owner, a.round, -a.sell);
      if HasApproval(approvals, a.approvalId) {
        return Some(DuplicateApproval);
      }
      approvals := approvals + [ApprovalRow(a, 0.0, 0.0, Open)];
      return None;
    }

    method InsertApproval(a: Approval) returns (error: Option<LedgerError>)
      modifies this
      ensures Outcome(State(), error) == L.InsertApproval(old(State()), a)
    {
      error := ValidateApprovalBacking(a);
      if error.Some? {
        return;
      }
      if HasApproval(approvals, a.approvalId) {
        return Some(DuplicateApproval);
      }
      error := DoInsertApproval(a);
    }

    method ValidateOrder(order: Approval, fee: Approval) returns (error: Option<LedgerError>)
      modifies this`cache
      ensures Outcome(State(), error) == L.ValidateOrder(old(State()), order, fee)
    {
      if !OrderAmounts(order) || !FeeAmounts(fee) {
        return Some(InvalidSchema);
      }
      error := ValidateApprovalBacking(order);
      if error.None? {
        error := ValidateApprovalBacking(fee);
      }
    }

    /** One transaction over both approvals: a refusal restores the tables, not the cache. */
    method InsertOrder(order: Approval, fee: Approval) returns (error: Option<LedgerError>)
      modifies this
      ensures Outcome(State(), error) == L.InsertOrder(old(State()), order, fee)
    {
      hide L.PatchCache, L.FindApproval, L.ReadBalance, L.Post, L.ValidateBacking, L.IsRegistered;
      error := ValidateOrder(order, fee);
      if error.Some? {
        return;
      }
      var savedAccounts, savedApprovals := accounts, approvals;
      error := DoInsertApproval(order);
      if error.None? {
        error := DoInsertApproval(fee);
      }
      if error.Some? {
        accounts, approvals := savedAccounts, savedApprovals;
      }
    }

    method CancelApproval(id: Id) returns (error: Option<LedgerError>)
      modifies this
      ensures Outcome(State(), error) == L.CancelApproval(old(State()), id)
    {
      var i := FindApproval(approvals, id);
      if i == |approvals| {
        return Some(ApprovalNotFound);
      }
      var row := approvals[i];
      if row.status != Open {
        return Some(ApprovalNotOpen);
      }
      var a := row.params;
      var k := Key(a.round, a.sellAsset, a.owner);
      if k !in accounts {
        return Some(AccountMissing);
      }
      approvals := approvals[i := row.(status := Canceled)];
      var remaining := a.sell - row.filledSell;
      var sellAccount := accounts[k];
      UpdateCachedBalance(a.sellAsset, a.owner, a.round, remaining);
      accounts := accounts[k := sellAccount.(locked := sellAccount.locked - remaining)];
      return None;
    }

    method ValidateFill(f: Fill) returns (error: Option<LedgerError>)
      ensures error == L.ValidateFill(State(), f)
    {
      if HasFill(fills, f.fillId) {
        return Some(DuplicateFill);
      }
      var i := FindApproval(approvals, f.approvalId);
      if i == |approvals| {
        return Some(UnbackedFill);
      }
      var a := approvals[i].params;
      if a.sellAsset != f.sellAsset || a.buyAsset != f.buyAsset {
        return Some(AssetMismatch);
      }
      if a.round != f.round {
        return Some(RoundMismatch);
      }
      if a.instanceId != f.instanceId {
        return Some(InstanceMismatch);
      }
      if a.owner != f.clientAddress {
        return Some(WalletMismatch);
      }
      return None;
    }

    method UpdateApprovalStatus(i: nat, buy: Amount, sell: Amount) returns (error: Option<LedgerError>)
      requires i < |approvals|
      modifies this`approvals
      ensures error == if old(approvals)[i].status != Open then Some(ApprovalNotOpen) else None
      ensures approvals == if error.None? then old(approvals)[i := FillRow(old(approvals)[i], buy, sell)] else old(approvals)
    {
      var row := approvals[i];
      var filledBuy, filledSell := row.filledBuy + buy, row.filledSell + sell;
      if row.status != Open {
        return Some(ApprovalNotOpen);
      }
      var status := if IsFilled(row.params, filledBuy, filledSell) then Closed else Open;
      approvals := approvals[i := ApprovalRow(row.params, filledBuy, filledSell, status)];
      return None;
    }

    /** One transaction: accounts move, the approval is updated, the fill is stored, the cache last. */
    method InsertFill(f: Fill) returns (error: Option<LedgerError>)
      modifies this
      ensures Outcome(State(), error) == L.InsertFill(old(State()), f)
    {
      hide L.FindApproval, L.HasFill, L.PatchCache;
      error := ValidateFill(f);
      if error.Some? {
        return;
      }
      var sellKey, buyKey := Key(f.round, f.sellAsset, f.clientAddress), Key(f.round, f.buyAsset, f.clientAddress);
      if sellKey !in accounts {
        return Some(AccountMissing);
      }
      var sellAccount := accounts[sellKey];
      if sellAccount.locked - f.sell < 0.0 {
        return Some(ExceedsLock);
      }
      var saved := accounts;
      accounts := accounts[sellKey := sellAccount.(sold := sellAccount.sold + f.sell, locked := sellAccount.locked - f.sell)];
      var buyAccount := FindOrCreateAccount(buyKey);
      accounts := accounts[buyKey := buyAccount.(bought := buyAccount.bought + f.buy)];
      assert accounts == PostFill(saved, f);
      error := UpdateApprovalStatus(FindApproval(approvals, f.approvalId), f.buy, f.sell);
      if error.Some? {
        accounts := saved;
        return;
      }
      fills := fills + [f];
      UpdateCachedBalance(f.buyAsset, f.clientAddress, f.round, f.buy);
    }

    method InsertWithdrawal(w: Withdrawal) returns (error: Option<LedgerError>)
      modifies this`withdrawals
      ensures Outcome(State(), error) == L.InsertWithdrawal(old(State()), w)
    {
      if HasTransaction(withdrawals, w.txHash) {
        return Some(DuplicateTransaction);
      }
      withdrawals := withdrawals + [w];
      return None;
    }

    method ValidateWithdrawal(w: Withdrawal) returns (error: Option<LedgerError>)
      modifies this`cache
      ensures Outcome(State(), error) == L.ValidateWithdrawal(old(State()), w)
    {
      if w.amount <= 0.0 {
        return Some(InvalidAmount);
      }
      var available := Balance(w.asset, w.wallet, w.round);
      if available < w.amount {
        return Some(InsufficientBalance);
      }
      if w.round == 0 {
        return Some(InvalidRound);
      }
      if FindWithdrawal(withdrawals, w.asset, w.wallet, {Pending}) < |withdrawals| {
        return Some(DoubleWithdrawal);
      }
      return None;
    }

    method TakeOut(w: Withdrawal)
      modifies this`accounts, this`cache
      ensures State() == PostWithdrawal(old(State()), w, withdrawals)
    {
      hide L.PatchCache;
      var k := Key(w.round, w.asset, w.wallet);
      var account := FindOrCreateAccount(k);
      accounts := accounts[k := account.(withdrawn := account.withdrawn + w.amount)];
      assert accounts == Post(old(accounts), k, NO_MOVEMENT.(withdrawn := w.amount));
      UpdateCachedBalance(w.asset, w.wallet, w.round, -w.amount);
    }

    method Withdraw(w: Withdrawal) returns (error: Option<LedgerError>)
      modifies this
      ensures Outcome(State(), error) == L.Withdraw(old(State()), w)
    {
      hide L.ReadBalance, L.FindWithdrawal, L.HasTransaction, L.PatchCache;
      error := ValidateWithdrawal(w);
      if error.Some? {
        return;
      }
      if HasTransaction(withdrawals, w.txHash) {
        return Some(DuplicateTransaction);
      }
      withdrawals := withdrawals + [w.(status := Pending)];
      TakeOut(w);
    }

    method ApproveWithdrawal(id: nat, w: Withdrawal) returns (error: Option<LedgerError>)
      modifies this
      ensures Outcome(State(), error) == L.ApproveWithdrawal(old(State()), id, w)
    {
      hide L.ReadBalance, L.FindWithdrawal, L.HasTransaction, L.PatchCache;
      error := ValidateWithdrawal(w);
      if error.Some? {
        return;
      }
      if id >= |withdrawals| {
        return Some(WithdrawalNotFound);
      }
      withdrawals := withdrawals[id := withdrawals[id].(status := Pending)];
      TakeOut(w);
    }

    /** The part of a cancellation that undoes `TakeOut`. */
    method PutBack(w: Withdrawal)
      modifies this`accounts, this`cache
      ensures accounts == Post(old(accounts), Key(w.round, w.asset, w.wallet), NO_MOVEMENT.(withdrawn := -w.amount))
      ensures cache == PatchCache(old(cache), w.asset, w.wallet, w.round, w.amount)
    {
      hide L.PatchCache;
      var k := Key(w.round, w.asset, w.wallet);
      var account := FindOrCreateAccount(k);
      accounts := accounts[k := account.(withdrawn := account.withdrawn - w.amount)];
      UpdateCachedBalance(w.asset, w.wallet, w.round, w.amount);
    }

    method CancelWithdrawal(asset: Address, wallet: Address) returns (error: Option<LedgerError>)
      modifies this
      ensures Outcome(State(), error) == L.CancelWithdrawal(old(State()), asset, wallet)
    {
      hide L.PatchCache, L.FindWithdrawal, L.Post;
      var i := FindWithdrawal(withdrawals, asset, wallet, {Pending, Unchecked});
      if i == |withdrawals| {
        return Some(WithdrawalNotFound);
      }
      var w := withdrawals[i];
      if w.status == Pending {
        PutBack(w);
      }
      withdrawals := withdrawals[i := w.(status := CanceledWithdrawal)];
      return None;
    }

    method ConfirmWithdrawal(asset: Address, wallet: Address) returns (error: Option<LedgerError>)
      modifies this`withdrawals
      ensures Outcome(State(), error) == L.ConfirmWithdrawal(old(State()), asset, wallet)
    {
      var i := FindWithdrawal(withdrawals, asset, wallet, {Pending});
      if i == |withdrawals| {
        return Some(WithdrawalNotFound);
      }
      withdrawals := withdrawals[i := withdrawals[i].(status := Confirmed)];
      return None;
    }
  }
}
