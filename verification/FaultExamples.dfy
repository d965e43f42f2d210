// One small input for each check that the ledger lacks: the calls are accepted, and the property is lost.
module FaultExamples {
  import opened BasicTypes
  import opened BigNumbers
  import opened Wrappers
  import opened Sums
  import opened Ledgers
  import opened LedgerBalances
  import opened LedgerBooks
  import opened LedgerSound
  import opened Settlement
  import opened OrderFlow
  import opened LedgerFaults
  import opened WithdrawalLifecycle
  import opened MerkleTree
  import opened Solvency
  import opened Commitments
  import opened ChainProofs

  const OPERATOR: Address := "0x0"
  const ALICE: Address := "0xa"
  const MEDIATOR: Address := "0x1"
  const OAX: Address := "0xf"
  const WETH: Address := "0xe"

  /** A ledger in which Alice joined in one round and deposited OAX for another. */
  function Funded(joined: Round, amount: Amount, at: Round): Ledger {
    CreditDeposit(Register(Start({OAX, WETH}, OPERATOR), ALICE, joined), OAX, ALICE, amount, at).ledger
  }

  function Deposited(amount: Amount): Account {
    NO_MOVEMENT.(deposited := amount)
  }

  lemma {:induction false} FundedTables(joined: Round, amount: Amount, at: Round)
    requires amount > 0.0
    ensures var s := Funded(joined, amount, at);
      && s.accounts == Post(map[], Key(at, OAX, ALICE), Deposited(amount))
      && s.approvals == [] && s.fills == [] && s.withdrawals == [] && s.cache == map[] && s.assets == {OAX, WETH}
      && s.wallets == [WalletEntry(OPERATOR, 0), WalletEntry(ALICE, joined)]
      && s.deposits == [Deposit(OAX, ALICE, amount, at)]
      && IsRegistered(s.wallets, ALICE)
  {
    hide Post;
    var start := Start({OAX, WETH}, OPERATOR);
    assert start.wallets == [WalletEntry(OPERATOR, 0)];
    assert OPERATOR != ALICE;
    assert !IsRegistered(start.wallets, ALICE);
    var joinedLedger := Register(start, ALICE, joined);
    assert joinedLedger.wallets == [WalletEntry(OPERATOR, 0), WalletEntry(ALICE, joined)];
    assert joinedLedger.wallets[1].wallet == ALICE;
  }

  lemma {:induction false} FundedSound(joined: Round, amount: Amount, at: Round)
    requires amount > 0.0
    ensures Sound(Funded(joined, amount, at))
    ensures forall round: Round ::
      Available(Funded(joined, amount, at).accounts, OAX, ALICE, round) == if at <= round then amount else 0.0
  {
    hide Sound, Available, IsRegistered, Post, PatchCache;
    var start := Start({OAX, WETH}, OPERATOR);
    FundedTables(joined, amount, at);
    StartSound({OAX, WETH}, OPERATOR);
    RegisterSound(start, ALICE, joined);
    DepositSound(Register(start, ALICE, joined), OAX, ALICE, amount, at) by { hide *; JoinedIsRegistered(joined, amount, at); }
    assert Net(Deposited(amount)) == amount;
    forall round: Round
      ensures Available(Funded(joined, amount, at).accounts, OAX, ALICE, round) == if at <= round then amount else 0.0
    {
      AvailableAfterPost(map[], Key(at, OAX, ALICE), Deposited(amount), OAX, ALICE, round);
      NothingAvailable(OAX, ALICE, round);
    }
  }

  lemma JoinedIsRegistered(joined: Round, amount: Amount, at: Round)
    requires amount > 0.0
    ensures var s := Register(Start({OAX, WETH}, OPERATOR), ALICE, joined);
      IsRegistered(s.wallets, ALICE) && s.cache == map[]
  {
    FundedTables(joined, amount, at);
  }

  lemma NothingAvailable(asset: Address, wallet: Address, round: Round)
    ensures Available(map[], asset, wallet, round) == 0.0
  {
    EmptyOpening(asset, wallet, round + 1);
  }

  function Order(id: Id, round: Round, sell: Amount): Approval {
    Approval(id, round, SellAll, WETH, 1.0, OAX, sell, ALICE, MEDIATOR)
  }

  function Fee(id: Id, sell: Amount): Approval {
    Approval(id, 0, SellAll, OAX, 0.0, OAX, sell, ALICE, MEDIATOR)
  }

  // --- Order and fee against one balance ------------------------------------------------------

  lemma OrderTerms(order: Approval, fee: Approval)
    requires 0.0 < order.sell <= 10.0 && 0.0 < fee.sell <= 10.0
    requires order == Order(order.approvalId, 0, order.sell) && fee == Fee(fee.approvalId, fee.sell)
    ensures OrderAmounts(order) && FeeAmounts(fee)
    ensures order.sellAsset == OAX == fee.sellAsset == fee.buyAsset && order.buyAsset == WETH
    ensures order.owner == ALICE == fee.owner && order.round == 0 == fee.round
  {
  }

  lemma NothingRepeats(order: Approval, fee: Approval)
    requires order.approvalId != fee.approvalId
    ensures !RepeatsId([], order, fee)
  {
  }

  lemma NoApprovalYet(id: Id)
    ensures !HasApproval([], id)
  {
  }

  lemma {:induction false} FundedAccepts(order: Approval, fee: Approval)
    requires order.sell <= 10.0 && fee.sell <= 10.0 && order.approvalId != fee.approvalId
    requires order == Order(order.approvalId, 0, order.sell) && fee == Fee(fee.approvalId, fee.sell)
    requires order.sell > 0.0 && fee.sell > 0.0
    ensures var s := Funded(0, 10.0, 0);
      ValidateOrder(s, order, fee).Ok() && InsertOrder(s, order, fee).Ok()
  {
    hide *;
    var s := Funded(0, 10.0, 0);
    OrderTerms(order, fee);
    FundedTables(0, 10.0, 0);
    FundedSound(0, 10.0, 0);
    SoundParts(s);
    PassesValidation(s, order, fee);
    NothingRepeats(order, fee);
    RepeatedIdRefused(s, order, fee);
    NoErrorIsOk(InsertOrder(s, order, fee));
  }

  lemma NoErrorIsOk(o: Outcome)
    ensures o.Ok() <==> o.error == None
  {
  }

  /** With 10 deposited, an order for 8 and a fee of 5 are both accepted, and the balance is overdrawn. */
  lemma {:induction false} OrderAndFeeOverdraw()
    ensures var s := Funded(0, 10.0, 0);
      var stored := InsertOrder(s, Order("1", 0, 8.0), Fee("2", 5.0));
      NonNegative(s.accounts) && stored.Ok() && !NonNegative(stored.ledger.accounts)
  {
    hide Sound, Available, InsertOrder, Funded, NonNegative, CacheExact, Order, Fee, CoversBoth;
    var s, order, fee := Funded(0, 10.0, 0), Order("1", 0, 8.0), Fee("2", 5.0);
    FundedSound(0, 10.0, 0);
    SoundParts(s);
    OverdrawTerms(s);
    FundedAccepts(order, fee);
    StoredOrderCoveredIff(s, order, fee);
  }

  lemma OverdrawTerms(s: Ledger)
    ensures var order, fee := Order("1", 0, 8.0), Fee("2", 5.0);
      && order.sell == 8.0 && fee.sell == 5.0 && order.approvalId == "1" && fee.approvalId == "2"
      && order.round == 0 == fee.round
      && (Available(s.accounts, OAX, ALICE, 0) == 10.0 ==> !CoversBoth(s, order, fee))
  {
    hide Available;
  }

  // --- The cache and a repeated id ------------------------------------------------------------

  /** The ledger after Alice's order for 4 with a fee of 1. */
  function Ordered(): Ledger {
    InsertOrder(Funded(0, 10.0, 0), Order("1", 0, 4.0), Fee("2", 1.0)).ledger
  }

  lemma {:induction false} OrderedTables()
    ensures InsertOrder(Funded(0, 10.0, 0), Order("1", 0, 4.0), Fee("2", 1.0)).Ok()
    ensures var s, t := Funded(0, 10.0, 0), Ordered();
      && t == LockBoth(s, Order("1", 0, 4.0), Fee("2", 1.0)).(cache := t.cache)
      && CacheExact(t.accounts, t.cache)
  {
    hide Sound, Available, FindApproval, ValidateOrder, Funded, CacheExact, Post, PatchCache, RepeatsId;
    var s, order, fee := Funded(0, 10.0, 0), Order("1", 0, 4.0), Fee("2", 1.0);
    FundedSound(0, 10.0, 0);
    assert CacheExact(s.accounts, s.cache) by { SoundParts(s); }
    FundedAccepts(order, fee);
    BothRemembered(s, order, fee);
    RepeatedIdRefused(s, order, fee);
    CacheSurvivesInsertIff(s, order, fee);
  }

  lemma {:induction false} LockedOnce(accounts: map<Key, Account>, amount: Amount, round: Round)
    ensures var k := Key(0, OAX, ALICE);
      Available(Post(accounts, k, NO_MOVEMENT.(locked := amount)), OAX, ALICE, 0)
      == Available(accounts, OAX, ALICE, 0) - amount
  {
    hide Available, Post;
    var x := NO_MOVEMENT.(locked := amount);
    assert Net(x) == 0.0;
    AvailableAfterPost(accounts, Key(0, OAX, ALICE), x, OAX, ALICE, 0);
  }

  lemma {:induction false} FirstOfTwo(s: Ledger, first: Approval, second: Approval)
    requires s.approvals == []
    ensures FindApproval(LockBoth(s, first, second).approvals, first.approvalId) == 0
    ensures FindApproval(LockApproval(s, first).approvals, second.approvalId) == if first.approvalId == second.approvalId then 0 else 1
    ensures |LockBoth(s, first, second).approvals| == 2 && LockBoth(s, first, second).approvals[0] == ApprovalRow(first, 0.0, 0.0, Open)
    ensures |LockApproval(s, first).approvals| == 1
  {
    hide FindApproval, Post, PatchCache;
    var one := [ApprovalRow(first, 0.0, 0.0, Open)];
    FindAfterAppend([], one[0], first.approvalId);
    FindAfterAppend([], one[0], second.approvalId);
    assert [] + one == one;
    FindAfterAppend(one, ApprovalRow(second, 0.0, 0.0, Open), first.approvalId);
  }

  lemma {:induction false} OrderedFacts()
    ensures InsertOrder(Funded(0, 10.0, 0), Order("1", 0, 4.0), Fee("2", 1.0)).Ok()
    ensures var t := Ordered();
      && CacheExact(t.accounts, t.cache) && t.assets == {OAX, WETH} && IsRegistered(t.wallets, ALICE)
      && Available(t.accounts, OAX, ALICE, 0) == 5.0
      && HasApproval(t.approvals, "1")
  {
    hide Sound, Available, IsRegistered, FindApproval, Funded, CacheExact, Post, PatchCache, InsertOrder, Ordered;
    var s, order, fee := Funded(0, 10.0, 0), Order("1", 0, 4.0), Fee("2", 1.0);
    FundedTables(0, 10.0, 0);
    FundedSound(0, 10.0, 0);
    OrderedTables();
    LockedOnce(s.accounts, 4.0, 0);
    LockedOnce(LockApproval(s, order).accounts, 1.0, 0);
    FirstOfTwo(s, order, fee);
  }

  /** Submitting the same order twice: the second one is refused, and the remembered balance is wrong from then on. */
  lemma {:induction false} ResubmittedOrderSpoilsCache()
    ensures var t := Ordered();
      var again := InsertOrder(t, Order("1", 0, 4.0), Fee("2", 1.0));
      CacheExact(t.accounts, t.cache) && !again.Ok() && !CacheExact(again.ledger.accounts, again.ledger.cache)
  {
    hide Available, IsRegistered, FindApproval, ValidateOrder, Ordered, CacheExact, InsertOrder;
    var t, order, fee := Ordered(), Order("1", 0, 4.0), Fee("2", 1.0);
    OrderedFacts();
    PassesValidation(t, order, fee);
    RepeatedIdRefused(t, order, fee);
    CacheSurvivesInsertIff(t, order, fee);
  }

  // --- Two approvals behind one lock ----------------------------------------------------------

  /** Two approvals of 4 OAX each, in one account. */
  function Pooled(): Ledger {
    LockApproval(LockApproval(Funded(0, 10.0, 0), Order("1", 0, 4.0)), Order("2", 0, 4.0))
  }

  const OVERFILL := Fill(1, "1", 0, WETH, 2.0, OAX, 6.0, ALICE, MEDIATOR)

  lemma {:induction false} PooledSound()
    ensures Sound(Pooled())
  {
    hide Sound, Available, IsRegistered, FindApproval, Funded, PatchCache, Post;
    var s, first, second := Funded(0, 10.0, 0), Order("1", 0, 4.0), Order("2", 0, 4.0);
    FundedTables(0, 10.0, 0);
    FundedSound(0, 10.0, 0);
    FirstOfTwo(s, first, second);
    NoApprovalYet("1");
    LockSound(s, first);
    LockedOnce(s.accounts, 4.0, 0);
    LockSound(LockApproval(s, first), second);
  }

  lemma {:induction false} PooledFacts()
    ensures var s := Pooled();
      && s.fills == [] && FindApproval(s.approvals, "1") == 0 && |s.approvals| == 2
      && s.approvals[0] == ApprovalRow(Order("1", 0, 4.0), 0.0, 0.0, Open)
      && Key(0, OAX, ALICE) in s.accounts && s.accounts[Key(0, OAX, ALICE)].locked == 8.0
  {
    hide Sound, Available, IsRegistered, FindApproval, Funded, PatchCache, Post;
    var s, first, second := Funded(0, 10.0, 0), Order("1", 0, 4.0), Order("2", 0, 4.0);
    FundedTables(0, 10.0, 0);
    FirstOfTwo(s, first, second);
    LockRow(map[], Deposited(10.0));
    LockRow(s.accounts, NO_MOVEMENT.(locked := 4.0));
    LockRow(LockApproval(s, first).accounts, NO_MOVEMENT.(locked := 4.0));
    NoRow();
  }

  lemma LockRow(accounts: map<Key, Account>, d: Account)
    ensures var k := Key(0, OAX, ALICE);
      k in Post(accounts, k, d) && Post(accounts, k, d)[k].locked == AccountAt(accounts, k).locked + d.locked
  {
  }

  lemma NoRow()
    ensures AccountAt(map[], Key(0, OAX, ALICE)).locked == 0.0
  {
  }

  /** A fill of 6 under an approval of 4 passes every check, and the approval is overfilled. */
  lemma {:induction false} FillAboveItsApproval()
    ensures var s := Pooled();
      BooksBalance(s) && InsertFill(s, OVERFILL).Ok() && !BooksBalance(InsertFill(s, OVERFILL).ledger)
  {
    hide Sound, Represented, BooksBalance, FindApproval, Pooled, PostFill, PatchCache, Times;
    var s := Pooled();
    PooledFacts();
    PooledSound();
    SoundParts(s);
    AcceptedFillFitsIff(s, OVERFILL);
    assert !FillFits(s, OVERFILL);
  }

  // --- A withdrawal from a past round ---------------------------------------------------------

  /** 10 deposited in round 1, all of it locked in round 2. */
  function LockedLater(): Ledger {
    LockApproval(Funded(0, 10.0, 1), Order("1", 2, 10.0))
  }

  const LATE_REQUEST := Withdrawal("0x9", OAX, ALICE, 10.0, 1, Unchecked)

  /** A withdrawal of 10 for round 1 is accepted, and round 2 is overdrawn. */
  lemma {:induction false} BackdatedWithdrawalOverdraws()
    ensures var s := LockedLater();
      NonNegative(s.accounts) && Withdraw(s, LATE_REQUEST).Ok() && !NonNegative(Withdraw(s, LATE_REQUEST).ledger.accounts)
  {
    hide Sound, Available, IsRegistered, FindApproval, Funded, Post, PatchCache, NonNegative, CacheExact, ReadBalance;
    var s, a := Funded(0, 10.0, 1), Order("1", 2, 10.0);
    FundedTables(0, 10.0, 1);
    FundedSound(0, 10.0, 1);
    LockSound(s, a);
    var t := LockedLater();
    SoundParts(t);
    var x := NO_MOVEMENT.(locked := 10.0);
    assert Net(x) == 0.0;
    AvailableAfterPost(s.accounts, Key(2, OAX, ALICE), x, OAX, ALICE, 1);
    AvailableAfterPost(s.accounts, Key(2, OAX, ALICE), x, OAX, ALICE, 2);
    ReadBalanceExact(t, OAX, ALICE, 1);
    assert Withdraw(t, LATE_REQUEST).Ok();
    BackdatedWithdrawalIff(t, LATE_REQUEST, 0);
    assert Available(t.accounts, OAX, ALICE, 2) < LATE_REQUEST.amount;
    assert !FreeFrom(t.accounts, LATE_REQUEST);
  }

  // --- A confirmed withdrawal that is approved again ------------------------------------------

  const PAID := Withdrawal("0x9", OAX, ALICE, 4.0, 1, Confirmed)

  /** Of 10 deposited, 4 were withdrawn and confirmed. */
  function PaidOut(): Ledger {
    ConfirmWithdrawal(Withdraw(Funded(0, 10.0, 1), PAID).ledger, OAX, ALICE).ledger
  }

  lemma {:induction false} PaidOutFacts()
    ensures var s := PaidOut();
      s.withdrawals == [PAID] && CacheExact(s.accounts, s.cache) && Available(s.accounts, OAX, ALICE, 1) == 6.0
  {
    hide Available, Funded, Post, PatchCache, CacheExact, ReadBalance, FindWithdrawal;
    var s := Funded(0, 10.0, 1);
    FundedTables(0, 10.0, 1);
    FundedSound(0, 10.0, 1);
    SoundParts(s);
    ReadBalanceExact(s, OAX, ALICE, 1);
    ValidatedIff(s, PAID);
    var read := ValidateWithdrawal(s, PAID).ledger;
    var x := NO_MOVEMENT.(withdrawn := 4.0);
    assert Net(x) == -4.0;
    PatchExactIff(read.accounts, read.cache, Key(1, OAX, ALICE), x);
    AvailableAfterPost(s.accounts, Key(1, OAX, ALICE), x, OAX, ALICE, 1);
    var t := Withdraw(s, PAID).ledger;
    assert t.withdrawals == [PAID.(status := Pending)];
    ConfirmExact(t, OAX, ALICE);
  }

  /** The same withdrawal, approved once more, is pending again and takes another 4. */
  lemma {:induction false} ConfirmedIsReopened()
    ensures var s := PaidOut();
      && s.withdrawals == [PAID] && ApproveWithdrawal(s, 0, PAID).Ok()
      && ApproveWithdrawal(s, 0, PAID).ledger.withdrawals == [PAID.(status := Pending)]
      && !RowsOnwards(s.withdrawals, ApproveWithdrawal(s, 0, PAID).ledger.withdrawals)
  {
    hide Available, PaidOut, CacheExact, ApproveWithdrawal;
    PaidOutFacts();
    ApproveIff(PaidOut(), 0);
  }

  // --- A remainder that stays locked ----------------------------------------------------------

  /** Buys 1 WETH for up to 4 OAX, and gets it for 3. */
  const THRIFTY := Approval("1", 0, BuyAll, WETH, 1.0, OAX, 4.0, ALICE, MEDIATOR)
  const BARGAIN := Fill(1, "1", 0, WETH, 1.0, OAX, 3.0, ALICE, MEDIATOR)

  lemma {:induction false} ThriftyFacts()
    ensures var s := LockApproval(Funded(0, 10.0, 0), THRIFTY);
      && Sound(s) && s.approvals == [ApprovalRow(THRIFTY, 0.0, 0.0, Open)] && s.fills == [] && s.cache == map[]
      && s.accounts == Post(Post(map[], Key(0, OAX, ALICE), Deposited(10.0)), Key(0, OAX, ALICE), NO_MOVEMENT.(locked := 4.0))
  {
    hide Sound, Available, IsRegistered, FindApproval, Funded, Post;
    var s := Funded(0, 10.0, 0);
    FundedTables(0, 10.0, 0);
    FundedSound(0, 10.0, 0);
    NoApprovalYet("1");
    LockSound(s, THRIFTY);
    assert [] + [ApprovalRow(THRIFTY, 0.0, 0.0, Open)] == [ApprovalRow(THRIFTY, 0.0, 0.0, Open)];
  }

  lemma {:induction false} BargainFits(s: Ledger)
    requires s.approvals == [ApprovalRow(THRIFTY, 0.0, 0.0, Open)] && s.fills == [] && s.cache == map[]
    requires s.accounts == Post(Post(map[], Key(0, OAX, ALICE), Deposited(10.0)), Key(0, OAX, ALICE), NO_MOVEMENT.(locked := 4.0))
    ensures FillFits(s, BARGAIN) && Timely(s, BARGAIN) && FindApproval(s.approvals, "1") == 0
  {
  }

  /** The approval is filled and closed, and 1 OAX stays locked although nothing is open. */
  lemma {:induction false} ClosedApprovalKeepsLock()
    ensures var s := LockApproval(Funded(0, 10.0, 0), THRIFTY);
      var after := InsertFill(s, BARGAIN);
      && after.Ok() && Sound(after.ledger)
      && after.ledger.approvals == [ApprovalRow(THRIFTY, 1.0, 3.0, Closed)]
      && AccountAt(after.ledger.accounts, SellKey(THRIFTY)).locked == 1.0
      && SumBy(after.ledger.approvals, OpenAt(SellKey(THRIFTY))) == 0.0
  {
    hide *;
    var s := LockApproval(Funded(0, 10.0, 0), THRIFTY);
    ThriftyFacts();
    BargainFits(s);
    FillSound(s, BARGAIN);
    BargainCloses(s);
    SoundParts(InsertFill(s, BARGAIN).ledger);
    RemainderLocked(InsertFill(s, BARGAIN).ledger);
  }

  lemma BargainCloses(s: Ledger)
    requires s.approvals == [ApprovalRow(THRIFTY, 0.0, 0.0, Open)] && FindApproval(s.approvals, "1") == 0
    requires InsertFill(s, BARGAIN).Ok()
    ensures InsertFill(s, BARGAIN).ledger.approvals == [ApprovalRow(THRIFTY, 1.0, 3.0, Closed)]
  {
    hide FindApproval, PostFill, PatchCache, HasFill;
  }

  lemma {:induction false} RemainderLocked(s: Ledger)
    requires Represented(s) && s.approvals == [ApprovalRow(THRIFTY, 1.0, 3.0, Closed)]
    ensures AccountAt(s.accounts, SellKey(THRIFTY)).locked == 1.0
    ensures SumBy(s.approvals, OpenAt(SellKey(THRIFTY))) == 0.0
  {
    var k, row := SellKey(THRIFTY), ApprovalRow(THRIFTY, 1.0, 3.0, Closed);
    assert AccountAt(s.accounts, k) == Recorded(s, k);
    assert s.approvals == [] + [row];
    SumAppend([], row, OpenAt(k));
    SumAppend([], row, LockedAt(k));
  }

  // --- A deposit before its wallet joined -----------------------------------------------------

  lemma {:induction false} LatecomerHolds()
    ensures !LatecomersHoldNothing(Funded(5, 10.0, 2), OAX, 3)
  {
    hide Available, Opening, Funded, IsRegistered, Post, Sound, AccountAt;
    var s := Funded(5, 10.0, 2);
    FundedTables(5, 10.0, 2);
    FundedSound(5, 10.0, 2);
    AccountAfterPost(map[], Key(2, OAX, ALICE), Deposited(10.0), Key(2, OAX, ALICE));
    EmptyRow(Key(2, OAX, ALICE));
    FreePlusLocked(s.accounts, 2);
    assert s.wallets[1].roundJoined >= 3 && s.wallets[1].wallet == ALICE;
  }

  lemma FreePlusLocked(accounts: map<Key, Account>, round: Round)
    requires AccountAt(accounts, Key(round, OAX, ALICE)).locked == 0.0
    ensures Opening(accounts, OAX, ALICE, round + 1) == Available(accounts, OAX, ALICE, round)
  {
    hide Opening, AccountAt;
  }

  lemma EmptyRow(k: Key)
    ensures AccountAt(map[], k) == NO_MOVEMENT
  {
  }

  /** Joined in round 5 with a deposit credited to round 2, Alice is missing from the root of round 3. */
  lemma {:induction false} LatecomerIsNotInRoot(compare: Compare, tree: SolvencyTree)
    requires tree.Built(compare) && tree.rawLeaves == SolvencyEntries(Funded(5, 10.0, 2), OAX, 3)
    ensures var s := Funded(5, 10.0, 2);
      && TopLevel(tree.levels) != []
      && Root(tree).sum != SumBy(s.deposits, DepositedBefore(OAX, 3)) - SumBy(s.withdrawals, WithdrawnBefore(OAX, 3))
  {
    hide Sound, Available, Opening, Funded, IsRegistered, Post, LatecomersHoldNothing, SumBy, Levels;
    var s := Funded(5, 10.0, 2);
    FundedTables(5, 10.0, 2);
    FundedSound(5, 10.0, 2);
    NothingTraded();
    LatecomerHolds();
    assert s.wallets[0] == WalletEntry(OPERATOR, 0);
    assert OPERATOR in JoinedBefore(s.wallets, 3);
    RootIsSolventIff(compare, s, OAX, 3, tree);
  }

  /** Nor does any proof of round 3 verify on chain, the operator's own included. */
  lemma {:induction false} LatecomerBlocksProofs(compare: Compare, commits: Commits, openings: Totals, deposits: Totals, withdrawals: Totals)
    requires IsOrder(compare) && CommittedFor(compare, Funded(5, 10.0, 2), commits, openings, OAX, 3)
    requires TotalsAgree(Funded(5, 10.0, 2), deposits, withdrawals, OAX, 3) && Carried(openings, deposits, withdrawals, OAX, 3)
    ensures var s := Funded(5, 10.0, 2);
      && Liabilities(TreeFor(compare, s, OAX, 3), EntryFor(s.accounts, OAX, 3, OPERATOR)).Success?
      && !IsProofValid(compare, commits, ProofFor(compare, s, OAX, OPERATOR, 3), 3)
  {
    hide *;
    var s := Funded(5, 10.0, 2);
    FundedTables(5, 10.0, 2);
    FundedSound(5, 10.0, 2);
    LatecomerHolds();
    NothingTraded();
    OperatorIsMember(s);
    MembersProveOnChainIff(compare, s, commits, openings, deposits, withdrawals, OAX, OPERATOR, 3);
  }

  lemma OperatorIsMember(s: Ledger)
    requires s.wallets == [WalletEntry(OPERATOR, 0), WalletEntry(ALICE, 5)]
    ensures OPERATOR in JoinedBefore(s.wallets, 3)
  {
    assert s.wallets[0].wallet == OPERATOR;
  }

  lemma NothingTraded()
    ensures Conserved([])
  {
  }
}
