// The operator's ledger as a value, and every operation on it (src/common/accounting/MetaLedger.ts).
//
// A table keeps its rows in insertion order, so the auto-incremented id of a row is its index. An
// operation returns the ledger it leaves behind and the error it throws, if any. A failed
// transaction rolls every table back, but not the balance cache, which lives outside the database.
module Ledgers {
  import opened BasicTypes
  import opened BigNumbers
  import opened Wrappers

  datatype Approval = Approval(
    approvalId: Id,
    round: Round,
    intent: Intent,
    buyAsset: Address,
    buy: Amount,
    sellAsset: Address,
    sell: Amount,
    owner: Address,
    instanceId: Address)

  datatype Status = Open | Closed | Canceled

  datatype ApprovalRow = ApprovalRow(params: Approval, filledBuy: Amount, filledSell: Amount, status: Status)

  datatype Fill = Fill(
    fillId: nat,
    approvalId: Id,
    round: Round,
    buyAsset: Address,
    buy: Amount,
    sellAsset: Address,
    sell: Amount,
    clientAddress: Address,
    instanceId: Address)

  datatype WithdrawalStatus = Unchecked | Pending | Confirmed | CanceledWithdrawal

  datatype Withdrawal = Withdrawal(
    txHash: Id,
    asset: Address,
    wallet: Address,
    amount: Amount,
    round: Round,
    status: WithdrawalStatus)

  datatype Deposit = Deposit(asset: Address, wallet: Address, amount: Amount, round: Round)

  datatype WalletEntry = WalletEntry(wallet: Address, roundJoined: Round)

  datatype Key = Key(round: Round, asset: Address, wallet: Address)

  datatype Account = Account(deposited: Amount, withdrawn: Amount, bought: Amount, sold: Amount, locked: Amount)

  datatype Cached = Cached(round: Round, balance: Amount)

  /** `deposits` is the history of credited deposits; everything else is stored by the program. */
  datatype Ledger = Ledger(
    assets: set<Address>,
    accounts: map<Key, Account>,
    approvals: seq<ApprovalRow>,
    fills: seq<Fill>,
    withdrawals: seq<Withdrawal>,
    wallets: seq<WalletEntry>,
    deposits: seq<Deposit>,
    cache: map<(Address, Address), Cached>)

  datatype LedgerError =
    | UnregisteredAsset | UnregisteredWallet | InsufficientBalance | InvalidSchema | InvalidAmount | InvalidRound
    | DuplicateApproval | ApprovalNotFound | ApprovalNotOpen | AccountMissing
    | DuplicateFill | UnbackedFill | AssetMismatch | RoundMismatch | InstanceMismatch | WalletMismatch | ExceedsLock
    | DuplicateTransaction | DoubleWithdrawal | WithdrawalNotFound

  datatype Outcome = Outcome(ledger: Ledger, error: Option<LedgerError>) {
    predicate Ok() {
      error.None?
    }
  }

  // --- Accounts -------------------------------------------------------------------------------

  const NO_MOVEMENT := Account(0.0, 0.0, 0.0, 0.0, 0.0)

  function AccountAt(accounts: map<Key, Account>, k: Key): Account {
    if k in accounts then accounts[k] else NO_MOVEMENT
  }

  function Plus(a: Account, d: Account): Account {
    Account(a.deposited + d.deposited, a.withdrawn + d.withdrawn, a.bought + d.bought, a.sold + d.sold,
            a.locked + d.locked)
  }

  /** Finds or creates the row and adds `d` to it. */
  function Post(accounts: map<Key, Account>, k: Key, d: Account): map<Key, Account> {
    accounts[k := Plus(AccountAt(accounts, k), d)]
  }

  /** What a row changes for good, once the locks of its round have lapsed. */
  function Net(a: Account): Amount {
    a.deposited + a.bought - a.withdrawn - a.sold
  }

  /** The sum over all rows of rounds before `round`. */
  function Opening(accounts: map<Key, Account>, asset: Address, wallet: Address, round: Round): Amount {
    if round == 0 then 0.0
    else Opening(accounts, asset, wallet, round - 1) + Net(AccountAt(accounts, Key(round - 1, asset, wallet)))
  }

  /** Everything up to and including `round`, less what that round has locked. */
  function Available(accounts: map<Key, Account>, asset: Address, wallet: Address, round: Round): Amount {
    Opening(accounts, asset, wallet, round + 1) - AccountAt(accounts, Key(round, asset, wallet)).locked
  }

  // --- The balance cache ----------------------------------------------------------------------

  /** Looks the balance up, or computes and remembers it. */
  function ReadBalance(s: Ledger, asset: Address, wallet: Address, round: Round): (Ledger, Amount) {
    var key := (asset, wallet);
    if key in s.cache && s.cache[key].round == round then
      (s, s.cache[key].balance)
    else
      var balance := Available(s.accounts, asset, wallet, round);
      (s.(cache := s.cache[key := Cached(round, balance)]), balance)
  }

  /** Patches a cached balance of exactly this round. */
  function PatchCache(cache: map<(Address, Address), Cached>, asset: Address, wallet: Address, round: Round,
                      delta: Amount): map<(Address, Address), Cached> {
    var key := (asset, wallet);
    if key in cache && cache[key].round == round then
      cache[key := Cached(round, cache[key].balance + delta)]
    else
      cache
  }

  // --- Wallets and deposits -------------------------------------------------------------------

  predicate IsRegistered(wallets: seq<WalletEntry>, wallet: Address) {
    exists i :: 0 <= i < |wallets| && wallets[i].wallet == wallet
  }

  function Register(s: Ledger, wallet: Address, round: Round): Ledger {
    if IsRegistered(s.wallets, wallet) then s else s.(wallets := s.wallets + [WalletEntry(wallet, round)])
  }

  function CreditDeposit(s: Ledger, asset: Address, wallet: Address, amount: Amount, round: int): Outcome {
    if !IsRegistered(s.wallets, wallet) then Outcome(s, Some(UnregisteredWallet))
    else if amount <= 0.0 then Outcome(s, Some(InvalidAmount))
    else if round < 0 then Outcome(s, Some(InvalidRound))
    else
      var credited := s.(
        accounts := Post(s.accounts, Key(round, asset, wallet), NO_MOVEMENT.(deposited := amount)),
        deposits := s.deposits + [Deposit(asset, wallet, amount, round)],
        cache := PatchCache(s.cache, asset, wallet, round, amount));
      Outcome(credited, None)
  }

  // --- Approvals ------------------------------------------------------------------------------

  /** The index of the row with this approval id, or the number of rows. */
  function FindApproval(approvals: seq<ApprovalRow>, id: Id): (i: nat)
    ensures i <= |approvals|
    ensures i < |approvals| ==> approvals[i].params.approvalId == id
    ensures forall j :: 0 <= j < i ==> approvals[j].params.approvalId != id
  {
    if approvals == [] then 0
    else if approvals[0].params.approvalId == id then 0
    else 1 + FindApproval(approvals[1..], id)
  }

  predicate HasApproval(approvals: seq<ApprovalRow>, id: Id) {
    FindApproval(approvals, id) < |approvals|
  }

  function ValidateBacking(s: Ledger, a: Approval): Outcome {
    if a.sellAsset !in s.assets then Outcome(s, Some(UnregisteredAsset))
    else if a.buyAsset !in s.assets then Outcome(s, Some(UnregisteredAsset))
    else if !IsRegistered(s.wallets, a.owner) then Outcome(s, Some(UnregisteredWallet))
    else
      var (read, balance) := ReadBalance(s, a.sellAsset, a.owner, a.round);
      Outcome(read, if balance < a.sell then Some(InsufficientBalance) else None)
  }

  /** Locks the sell amount and stores the approval. */
  function LockApproval(s: Ledger, a: Approval): Ledger {
    s.(accounts := Post(s.accounts, Key(a.round, a.sellAsset, a.owner), NO_MOVEMENT.(locked := a.sell)),
       approvals := s.approvals + [ApprovalRow(a, 0.0, 0.0, Open)],
       cache := PatchCache(s.cache, a.sellAsset, a.owner, a.round, -a.sell))
  }

  /** The lock and the cache patch come before the unique id is enforced by the table. */
  function DoInsertApproval(s: Ledger, a: Approval): Outcome {
    var locked := LockApproval(s, a);
    if HasApproval(s.approvals, a.approvalId) then
      Outcome(s.(cache := locked.cache), Some(DuplicateApproval))
    else
      Outcome(locked, None)
  }

  function InsertApproval(s: Ledger, a: Approval): Outcome {
    var backed := ValidateBacking(s, a);
    if !backed.Ok() then backed
    else if HasApproval(s.approvals, a.approvalId) then Outcome(backed.ledger, Some(DuplicateApproval))
    else DoInsertApproval(backed.ledger, a)
  }

  predicate OrderAmounts(a: Approval) {
    0.0 < a.buy <= MAX_AMOUNT as real && 0.0 < a.sell <= MAX_AMOUNT as real
  }

  predicate FeeAmounts(a: Approval) {
    a.buy == 0.0 && 0.0 < a.sell <= MAX_AMOUNT as real
  }

  function ValidateOrder(s: Ledger, order: Approval, fee: Approval): Outcome {
    if !OrderAmounts(order) || !FeeAmounts(fee) then Outcome(s, Some(InvalidSchema))
    else
      var backed := ValidateBacking(s, order);
      if !backed.Ok() then backed else ValidateBacking(backed.ledger, fee)
  }

  /** One transaction: both approvals are stored, or neither. */
  function InsertOrder(s: Ledger, order: Approval, fee: Approval): Outcome {
    var valid := ValidateOrder(s, order, fee);
    if !valid.Ok() then valid
    else
      var first := DoInsertApproval(valid.ledger, order);
      if !first.Ok() then first
      else
        var second := DoInsertApproval(first.ledger, fee);
        if second.Ok() then second
        else Outcome(valid.ledger.(cache := second.ledger.cache), second.error)
  }

  function CancelApproval(s: Ledger, id: Id): Outcome {
    var i := FindApproval(s.approvals, id);
    if i == |s.approvals| then Outcome(s, Some(ApprovalNotFound))
    else if s.approvals[i].status != Open then Outcome(s, Some(ApprovalNotOpen))
    else
      var row := s.approvals[i];
      var a := row.params;
      var k := Key(a.round, a.sellAsset, a.owner);
      if k !in s.accounts then Outcome(s, Some(AccountMissing))
      else
        var remaining := a.sell - row.filledSell;
        var released := s.(
          accounts := Post(s.accounts, k, NO_MOVEMENT.(locked := -remaining)),
          approvals := s.approvals[i := row.(status := Canceled)],
          cache := PatchCache(s.cache, a.sellAsset, a.owner, a.round, remaining));
        Outcome(released, None)
  }

  // --- Fills ----------------------------------------------------------------------------------

  predicate HasFill(fills: seq<Fill>, fillId: nat) {
    exists i :: 0 <= i < |fills| && fills[i].fillId == fillId
  }

  function NextFillId(s: Ledger): nat {
    |s.fills| + 1
  }

  function ValidateFill(s: Ledger, f: Fill): Option<LedgerError> {
    var i := FindApproval(s.approvals, f.approvalId);
    if HasFill(s.fills, f.fillId) then Some(DuplicateFill)
    else if i == |s.approvals| then Some(UnbackedFill)
    else
      var a := s.approvals[i].params;
      if a.sellAsset != f.sellAsset || a.buyAsset != f.buyAsset then Some(AssetMismatch)
      else if a.round != f.round then Some(RoundMismatch)
      else if a.instanceId != f.instanceId then Some(InstanceMismatch)
      else if a.owner != f.clientAddress then Some(WalletMismatch)
      else None
  }

  predicate IsFilled(a: Approval, filledBuy: Amount, filledSell: Amount) {
    if a.intent.BuyAll? then filledBuy >= a.buy else filledSell >= a.sell
  }

  function FillRow(row: ApprovalRow, buy: Amount, sell: Amount): ApprovalRow {
    var filledBuy := row.filledBuy + buy;
    var filledSell := row.filledSell + sell;
    ApprovalRow(row.params, filledBuy, filledSell, if IsFilled(row.params, filledBuy, filledSell) then Closed else Open)
  }

  function PostFill(accounts: map<Key, Account>, f: Fill): map<Key, Account> {
    var sold := Post(accounts, Key(f.round, f.sellAsset, f.clientAddress),
                     NO_MOVEMENT.(sold := f.sell, locked := -f.sell));
    Post(sold, Key(f.round, f.buyAsset, f.clientAddress), NO_MOVEMENT.(bought := f.buy))
  }

  function InsertFill(s: Ledger, f: Fill): Outcome {
    var invalid := ValidateFill(s, f);
    var sellKey := Key(f.round, f.sellAsset, f.clientAddress);
    if invalid.Some? then Outcome(s, invalid)
    else if sellKey !in s.accounts then Outcome(s, Some(AccountMissing))
    else if s.accounts[sellKey].locked - f.sell < 0.0 then Outcome(s, Some(ExceedsLock))
    else
      var i := FindApproval(s.approvals, f.approvalId);
      if s.approvals[i].status != Open then Outcome(s, Some(ApprovalNotOpen))
      else
        var filled := s.(
          accounts := PostFill(s.accounts, f),
          approvals := s.approvals[i := FillRow(s.approvals[i], f.buy, f.sell)],
          fills := s.fills + [f],
          cache := PatchCache(s.cache, f.buyAsset, f.clientAddress, f.round, f.buy));
        Outcome(filled, None)
  }

  // --- Withdrawals ----------------------------------------------------------------------------

  predicate HasTransaction(withdrawals: seq<Withdrawal>, txHash: Id) {
    exists i :: 0 <= i < |withdrawals| && withdrawals[i].txHash == txHash
  }

  function InsertWithdrawal(s: Ledger, w: Withdrawal): Outcome {
    if HasTransaction(s.withdrawals, w.txHash) then Outcome(s, Some(DuplicateTransaction))
    else Outcome(s.(withdrawals := s.withdrawals + [w]), None)
  }

  /** The first withdrawal of this account whose status is one of `statuses`, or the number of rows. */
  function FindWithdrawal(withdrawals: seq<Withdrawal>, asset: Address, wallet: Address,
                          statuses: set<WithdrawalStatus>): (i: nat)
    ensures i <= |withdrawals|
    ensures i < |withdrawals| ==>
      withdrawals[i].asset == asset && withdrawals[i].wallet == wallet && withdrawals[i].status in statuses
    ensures forall j :: 0 <= j < i ==>
      !(withdrawals[j].asset == asset && withdrawals[j].wallet == wallet && withdrawals[j].status in statuses)
  {
    if withdrawals == [] then 0
    else if withdrawals[0].asset == asset && withdrawals[0].wallet == wallet && withdrawals[0].status in statuses then 0
    else 1 + FindWithdrawal(withdrawals[1..], asset, wallet, statuses)
  }

  function ValidateWithdrawal(s: Ledger, w: Withdrawal): Outcome {
    if w.amount <= 0.0 then Outcome(s, Some(InvalidAmount))
    else
      var (read, balance) := ReadBalance(s, w.asset, w.wallet, w.round);
      if balance < w.amount then Outcome(read, Some(InsufficientBalance))
      else if w.round == 0 then Outcome(read, Some(InvalidRound))
      else if FindWithdrawal(s.withdrawals, w.asset, w.wallet, {Pending}) < |s.withdrawals| then
        Outcome(read, Some(DoubleWithdrawal))
      else Outcome(read, None)
  }

  /** Takes the amount out of the account of the request's round. */
  function PostWithdrawal(s: Ledger, w: Withdrawal, withdrawals: seq<Withdrawal>): Ledger {
    s.(accounts := Post(s.accounts, Key(w.round, w.asset, w.wallet), NO_MOVEMENT.(withdrawn := w.amount)),
       withdrawals := withdrawals,
       cache := PatchCache(s.cache, w.asset, w.wallet, w.round, -w.amount))
  }

  /** A withdrawal recorded directly as pending. */
  function Withdraw(s: Ledger, w: Withdrawal): Outcome {
    var valid := ValidateWithdrawal(s, w);
    if !valid.Ok() then valid
    else if HasTransaction(s.withdrawals, w.txHash) then Outcome(valid.ledger, Some(DuplicateTransaction))
    else Outcome(PostWithdrawal(valid.ledger, w, s.withdrawals + [w.(status := Pending)]), None)
  }

  /** `w` is the caller's copy of the row with index `id`. */
  function ApproveWithdrawal(s: Ledger, id: nat, w: Withdrawal): Outcome {
    var valid := ValidateWithdrawal(s, w);
    if !valid.Ok() then valid
    else if id >= |s.withdrawals| then Outcome(valid.ledger, Some(WithdrawalNotFound))
    else
      var row := s.withdrawals[id];
      Outcome(PostWithdrawal(valid.ledger, w, s.withdrawals[id := row.(status := Pending)]), None)
  }

  function CancelWithdrawal(s: Ledger, asset: Address, wallet: Address): Outcome {
    var i := FindWithdrawal(s.withdrawals, asset, wallet, {Pending, Unchecked});
    if i == |s.withdrawals| then Outcome(s, Some(WithdrawalNotFound))
    else
      var w := s.withdrawals[i];
      var canceled := s.withdrawals[i := w.(status := CanceledWithdrawal)];
      if w.status == Pending then
        Outcome(s.(accounts := Post(s.accounts, Key(w.round, asset, wallet), NO_MOVEMENT.(withdrawn := -w.amount)),
                   withdrawals := canceled,
                   cache := PatchCache(s.cache, asset, wallet, w.round, w.amount)), None)
      else
        Outcome(s.(withdrawals := canceled), None)
  }

  function ConfirmWithdrawal(s: Ledger, asset: Address, wallet: Address): Outcome {
    var i := FindWithdrawal(s.withdrawals, asset, wallet, {Pending});
    if i == |s.withdrawals| then Outcome(s, Some(WithdrawalNotFound))
    else Outcome(s.(withdrawals := s.withdrawals[i := s.withdrawals[i].(status := Confirmed)]), None)
  }

  function Start(assets: set<Address>, operator: Address): Ledger {
    Register(Ledger(assets, map[], [], [], [], [], [], map[]), operator, 0)
  }
}
