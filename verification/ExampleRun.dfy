// One run of the exchange in which four clients trade. It shows that the premises of the theorems about
// runs can be met together, and what goes wrong in a reachable ledger when one of them is not.
module ExampleRun {
  import opened BasicTypes
  import opened BigNumbers
  import opened Wrappers
  import opened Sorting
  import opened Matching
  import opened MatchingProofs
  import opened MatchingRuns
  import opened MatchingFacts
  import opened Ledgers
  import opened LedgerBalances
  import opened LedgerBooks
  import opened LedgerSound
  import opened LedgerFaults
  import opened Exchanges
  import opened Settlement
  import opened OrderFlow
  import opened Runs
  import opened Interleavings
  import opened OrderEffects
  import opened FeeCancellations

  // --- The cast -------------------------------------------------------------------------------

  const OPERATOR: Address := "operator"
  const MEDIATOR: Address := "mediator"
  const BOB: Address := "bob"
  const DAVE: Address := "dave"
  const CAROL: Address := "carol"
  const ALICE: Address := "alice"
  const CLIENTS: set<Address> := {BOB, DAVE, CAROL, ALICE}
  const OAX: Address := "OAX"
  const ASSETS: set<Address> := {ETH, USD, OAX}
  const CONFIG := Config(OPERATOR, MEDIATOR, OAX, 1.0, TOKEN_DECIMALS, {(USD, ETH)})

  /** Bob buys 15 USD for 2 ETH, and Dave sells him 8 of them. Carol buys 8, and Alice sells as many. */
  const BOBS := Approval("m1", 0, BuyAll, USD, 15.0, ETH, 2.0, BOB, MEDIATOR)
  const DAVES := Approval("d1", 0, SellAll, ETH, 1.0, USD, 8.0, DAVE, MEDIATOR)
  const CAROLS := Approval("m2", 0, BuyAll, USD, 8.0, ETH, 1.0, CAROL, MEDIATOR)
  const ALICES := Approval("taker", 0, SellAll, ETH, 1.0, USD, 8.0, ALICE, MEDIATOR)

  function FeeOf(id: Id, owner: Address): Approval {
    Approval(id, 0, SellAll, OAX, 0.0, OAX, 1.0, owner, MEDIATOR)
  }

  const BOBS_FEE := FeeOf("f1", BOB)
  const DAVES_FEE := FeeOf("f2", DAVE)
  const CAROLS_FEE := FeeOf("f3", CAROL)
  const ALICES_FEE := FeeOf("f4", ALICE)

  /** An order of the first round between two known assets, with the fee its owner owes. */
  predicate ClientOrder(order: Approval, fee: Approval) {
    && order.owner in CLIENTS && order.round == 0 && order.instanceId == MEDIATOR && OrderAmounts(order)
    && order.buyAsset in ASSETS && order.sellAsset in ASSETS && order.sellAsset != OAX
    && order.buyAsset != order.sellAsset
    && fee == FeeOf(fee.approvalId, order.owner)
  }

  lemma TheOrders()
    ensures ClientOrder(BOBS, BOBS_FEE) && ClientOrder(DAVES, DAVES_FEE)
    ensures ClientOrder(CAROLS, CAROLS_FEE) && ClientOrder(ALICES, ALICES_FEE)
    ensures OPERATOR !in CLIENTS
    ensures BOB != DAVE && BOB != CAROL && BOB != ALICE && DAVE != CAROL && DAVE != ALICE && CAROL != ALICE
  {
  }

  // --- Wallets and deposits -------------------------------------------------------------------

  /** Rows and remembered balances are of round zero only. */
  ghost predicate AllInRoundZero(s: Ledger) {
    && (forall k :: k in s.accounts ==> k.round == 0)
    && (forall key :: key in s.cache ==> s.cache[key].round == 0)
  }

  lemma RoundZeroIsTimely(s: Ledger, a: Approval)
    requires AllInRoundZero(s)
    ensures AccountsTimely(s, a)
  {
  }

  function Joined(): Ledger {
    Register(Register(Register(Register(Start(ASSETS, OPERATOR), BOB, 0), DAVE, 0), CAROL, 0), ALICE, 0)
  }

  function Deposit0(s: Ledger, asset: Address, wallet: Address, amount: Amount): Ledger {
    CreditDeposit(s, asset, wallet, amount, 0).ledger
  }

  /** Deposits what an order sells, and its fee. */
  function Fund(s: Ledger, order: Approval): Ledger {
    Deposit0(Deposit0(s, order.sellAsset, order.owner, order.sell), OAX, order.owner, 1.0)
  }

  function Funded(): Ledger {
    Fund(Fund(Fund(Fund(Joined(), BOBS), DAVES), CAROLS), ALICES)
  }

  /** Nothing is traded yet, and all clients are known. */
  ghost predicate Quiet(s: Ledger) {
    && Reachable(CONFIG, ASSETS, s) && AllInRoundZero(s)
    && s.approvals == [] && s.assets == ASSETS
    && forall w :: w in CLIENTS ==> IsRegistered(s.wallets, w)
  }

  ghost predicate CanOrder(s: Ledger, order: Approval) {
    && IsRegistered(s.wallets, order.owner)
    && order.sell <= Available(s.accounts, order.sellAsset, order.owner, 0)
    && 1.0 <= Available(s.accounts, OAX, order.owner, 0)
  }

  lemma {:induction false} JoinedIsQuiet()
    ensures Quiet(Joined())
  {
    hide Reachable, AddOrder, CreditDeposit, ApproveWithdrawal, Withdraw, CancelWithdrawal, OrderlyOrder, Register;
    var s := Start(ASSETS, OPERATOR);
    StartIsReachable(CONFIG, ASSETS);
    ReachesFurther(CONFIG, ASSETS, s, RegisterWallet(BOB, 0));
    var t := Register(s, BOB, 0);
    ReachesFurther(CONFIG, ASSETS, t, RegisterWallet(DAVE, 0));
    var u := Register(t, DAVE, 0);
    ReachesFurther(CONFIG, ASSETS, u, RegisterWallet(CAROL, 0));
    ReachesFurther(CONFIG, ASSETS, Register(u, CAROL, 0), RegisterWallet(ALICE, 0));
    JoinedTables();
  }

  lemma JoinedTables()
    ensures Joined().accounts == map[] && Joined().cache == map[] && Joined().approvals == [] && Joined().assets == ASSETS
    ensures forall w :: w in CLIENTS ==> IsRegistered(Joined().wallets, w)
  {
    hide IsRegistered;
    var s := Start(ASSETS, OPERATOR);
    StaysRegistered(s, BOB);
    var t := Register(s, BOB, 0);
    StaysRegistered(t, DAVE);
    var u := Register(t, DAVE, 0);
    StaysRegistered(u, CAROL);
    StaysRegistered(Register(u, CAROL, 0), ALICE);
  }

  lemma StaysRegistered(s: Ledger, wallet: Address)
    ensures IsRegistered(Register(s, wallet, 0).wallets, wallet)
    ensures forall w :: IsRegistered(s.wallets, w) ==> IsRegistered(Register(s, wallet, 0).wallets, w)
  {
    var after := Register(s, wallet, 0).wallets;
    assert !IsRegistered(s.wallets, wallet) ==> after[|s.wallets|].wallet == wallet;
    forall w | IsRegistered(s.wallets, w)
      ensures IsRegistered(after, w)
    {
      var i :| 0 <= i < |s.wallets| && s.wallets[i].wallet == w;
      assert after[i].wallet == w;
    }
  }

  /** A deposit adds to its own account, and the ledger stays quiet. */
  lemma {:induction false} DepositIsQuiet(s: Ledger, asset: Address, wallet: Address, amount: Amount)
    requires Quiet(s) && wallet in CLIENTS && amount > 0.0
    ensures Quiet(Deposit0(s, asset, wallet, amount)) && Deposit0(s, asset, wallet, amount).wallets == s.wallets
    ensures forall a: Address, w: Address ::
      Available(Deposit0(s, asset, wallet, amount).accounts, a, w, 0)
      == Available(s.accounts, a, w, 0) + if a == asset && w == wallet then amount else 0.0
  {
    hide Reachable, Available, IsRegistered, AddOrder, ApproveWithdrawal, Withdraw, CancelWithdrawal, OrderlyOrder, Post;
    var k, d := Key(0, asset, wallet), NO_MOVEMENT.(deposited := amount);
    ReachesFurther(CONFIG, ASSETS, s, CreditDepositOp(asset, wallet, amount, 0));
    assert Net(d) == amount;
    DepositRows(s, asset, wallet, amount);
    forall a: Address, w: Address
      ensures Available(Deposit0(s, asset, wallet, amount).accounts, a, w, 0)
              == Available(s.accounts, a, w, 0) + if a == asset && w == wallet then amount else 0.0
    {
      AvailableAfterPost(s.accounts, k, d, a, w, 0);
    }
  }

  lemma DepositRows(s: Ledger, asset: Address, wallet: Address, amount: Amount)
    requires AllInRoundZero(s)
    ensures AllInRoundZero(Deposit0(s, asset, wallet, amount))
  {
    hide IsRegistered;
  }

  lemma {:induction false} FundKeeps(s: Ledger, order: Approval)
    requires Quiet(s) && order.owner in CLIENTS && order.sell > 0.0 && order.sellAsset != OAX
    ensures Quiet(Fund(s, order)) && CanOrder(Fund(s, order), order)
    ensures forall other :: CanOrder(s, other) ==> CanOrder(Fund(s, order), other)
  {
    hide Reachable, Available, IsRegistered, Deposit0, AllInRoundZero;
    QuietIsCovered(s, order.sellAsset, order.owner);
    QuietIsCovered(s, OAX, order.owner);
    DepositIsQuiet(s, order.sellAsset, order.owner, order.sell);
    DepositIsQuiet(Deposit0(s, order.sellAsset, order.owner, order.sell), OAX, order.owner, 1.0);
  }

  lemma QuietIsCovered(s: Ledger, asset: Address, wallet: Address)
    requires Quiet(s)
    ensures Available(s.accounts, asset, wallet, 0) >= 0.0
  {
    hide Reachable, Sound, Available, IsRegistered, AllInRoundZero;
    ReachableSound(CONFIG, ASSETS, s);
    SoundParts(s);
    AvailableIsNonNegative(s.accounts, Key(0, asset, wallet));
  }

  lemma {:induction false} FundedFacts()
    ensures var s := Funded();
      Quiet(s) && CanOrder(s, BOBS) && CanOrder(s, DAVES) && CanOrder(s, CAROLS) && CanOrder(s, ALICES)
  {
    hide Quiet, CanOrder, Fund, Joined;
    TheOrders();
    JoinedIsQuiet();
    var s := Joined();
    FundKeeps(s, BOBS);
    var t := Fund(s, BOBS);
    FundKeeps(t, DAVES);
    var u := Fund(t, DAVES);
    FundKeeps(u, CAROLS);
    FundKeeps(Fund(u, CAROLS), ALICES);
  }

  // --- Between orders -------------------------------------------------------------------------

  /** A reachable ledger in which the clients in `waiting` still have what they were funded with. */
  ghost predicate Standing(s: Ledger, waiting: set<Address>) {
    && Reachable(CONFIG, ASSETS, s) && Current(s, 0) && waiting <= CLIENTS
    && s.assets == ASSETS && s.wallets == Funded().wallets && SameLater(Funded(), s, 0)
    && forall w :: w in waiting ==> SameRows(Funded(), s, w)
  }

  lemma ClientOrderTerms(s: Ledger, order: Approval, fee: Approval)
    requires ClientOrder(order, fee) && IsRegistered(s.wallets, order.owner)
    ensures FeeAmounts(fee) && fee.sell == 1.0 && fee.owner == order.owner && fee.round == 0 && fee.intent.SellAll?
    ensures fee.buyAsset == fee.sellAsset == OAX && OAX in ASSETS
    ensures CheckOrder(CONFIG, s, 0, order, fee).None? && CoversBoth(s, order, fee)
  {
    hide IsRegistered, Available;
  }

  lemma {:induction false} ClientOrderAccepted(s: Ledger, order: Approval, fee: Approval)
    requires Sound(s) && ClientOrder(order, fee) && CanOrder(s, order) && s.assets == ASSETS
    requires !RepeatsId(s.approvals, order, fee)
    ensures CheckOrder(CONFIG, s, 0, order, fee).None? && CoversBoth(s, order, fee) && InsertOrder(s, order, fee).Ok()
  {
    hide Sound, Available, IsRegistered, InsertOrder, ValidateOrder, RepeatsId, CheckOrder, CacheExact, CoversBoth;
    ClientOrderTerms(s, order, fee);
    SoundParts(s);
    PassesValidation(s, order, fee);
    RepeatedIdRefused(s, order, fee);
  }

  lemma {:induction false} StillCanOrder(s: Ledger, waiting: set<Address>, order: Approval)
    requires Standing(s, waiting) && order.owner in waiting && CanOrder(Funded(), order)
    ensures CanOrder(s, order)
  {
    hide Available, IsRegistered, Funded, Reachable, Current, SameLater, SameRows;
    SameRowsSameBalance(Funded(), s, order.sellAsset, order.owner, 0);
    SameRowsSameBalance(Funded(), s, OAX, order.owner, 0);
  }

  lemma {:induction false} AlwaysTimely(s: Ledger, waiting: set<Address>, a: Approval)
    requires Standing(s, waiting) && Quiet(Funded()) && a.round == 0
    ensures AccountsTimely(s, a)
  {
    hide AccountsTimely, Funded, Reachable, Current, SameLater, SameRows, IsRegistered, AllInRoundZero;
    RoundZeroIsTimely(Funded(), a);
    StillTimely(Funded(), s, a);
  }

  lemma {:induction false} OrderIsAccepted(s: Ledger, waiting: set<Address>, order: Approval, fee: Approval, id: Id)
    requires Standing(s, waiting) && order.owner in waiting && ClientOrder(order, fee)
    requires Quiet(Funded()) && CanOrder(Funded(), order) && FreshIds(s, order, fee, id)
    ensures ExchangeSound(CONFIG, s) && OrderlyButForMatching(CONFIG, s, 0, order, fee, id)
    ensures CheckOrder(CONFIG, s, 0, order, fee).None? && InsertOrder(s, order, fee).Ok()
  {
    hide Sound, IsRegistered, InsertOrder, CheckOrder, CoversBoth, Funded, Reachable, AccountsTimely, CanOrder, Quiet;
    hide FindApproval, ExchangeSound, Current, SameRows, SameLater;
    assert Sound(s) && ExchangeSound(CONFIG, s) by { ReachableSound(CONFIG, ASSETS, s); SoundOnly(s); }
    StillCanOrder(s, waiting, order);
    ClientOrderAccepted(s, order, fee);
    AlwaysTimely(s, waiting, order);
    AlwaysTimely(s, waiting, fee);
    AlwaysTimely(s, waiting, OperatorApprovalForFee(CONFIG, fee, id));
  }

  lemma SoundOnly(s: Ledger)
    requires ExchangeSound(CONFIG, s)
    ensures Sound(s)
  {
  }

  /** The ledger in which the order is matched: its book, and the clients who still wait. */
  ghost predicate Ready(s: Ledger, waiting: set<Address>, ready: Ledger, order: Approval, fee: Approval, id: Id) {
    && ready.approvals == BookedWith(s.approvals, order, fee, OperatorApprovalForFee(CONFIG, fee, id))
    && Sound(ready) && Current(ready, 0) && Conserved(ready.fills) && BookedWithinLimits(ready.approvals)
    && Stored(ready, 0, order)
    && ready.assets == ASSETS && ready.wallets == Funded().wallets && SameLater(Funded(), ready, 0)
    && forall w :: w in waiting && w != order.owner ==> SameRows(Funded(), ready, w)
  }

  lemma {:induction false} OrderGetsReady(s: Ledger, waiting: set<Address>, order: Approval, fee: Approval, id: Id)
    requires Standing(s, waiting) && order.owner in waiting && ClientOrder(order, fee)
    requires Quiet(Funded()) && CanOrder(Funded(), order) && FreshIds(s, order, fee, id)
    ensures Ready(s, waiting, ReadyToMatch(CONFIG, s, order, fee, id), order, fee, id)
    ensures ProcessFeeApproval(CONFIG, InsertOrder(s, order, fee).ledger, fee, id).Ok()
  {
    hide Sound, IsRegistered, InsertOrder, CheckOrder, CoversBoth, Funded, Reachable, AccountsTimely, CanOrder, Quiet, Stored;
    hide FreshIds, ExchangeSound, Current, SameRows, SameLater, Conserved, BookedWithinLimits, ReadyToMatch, ProcessFeeApproval;
    hide BookedWith;
    TheOrders();
    OrderIsAccepted(s, waiting, order, fee, id);
    OrderIsReady(CONFIG, s, 0, order, fee, id);
    var ready := ReadyToMatch(CONFIG, s, order, fee, id);
    ReadyTables(CONFIG, s, 0, order, fee, id, MEDIATOR);
    SameLaterSteps(Funded(), s, ready, 0);
    forall w | w in waiting && w != order.owner
      ensures SameRows(Funded(), ready, w)
    {
      ReadyTables(CONFIG, s, 0, order, fee, id, w);
      RowSteps(Funded(), s, ready, w);
    }
  }

  /** An orderly order that meets at most one maker is accepted, whatever its matching does. */
  lemma {:induction false} OrderReaches(s: Ledger, order: Approval, fee: Approval, id: Id)
    requires Reachable(CONFIG, ASSETS, s) && OrderlyButForMatching(CONFIG, s, 0, order, fee, id)
    requires CheckOrder(CONFIG, s, 0, order, fee).None? && InsertOrder(s, order, fee).Ok()
    requires order.buy > 0.0 && order.sell > 0.0
    requires |SortedMakers(ReadyToMatch(CONFIG, s, order, fee, id), 0, order)| <= 1
    ensures OrderlyOrder(CONFIG, s, 0, order, fee, id)
    ensures Reachable(CONFIG, ASSETS, AddOrder(CONFIG, s, 0, 0, order, fee, id).ledger)
  {
    hide Reachable, AddOrder, CheckOrder, InsertOrder, ReadyToMatch, SortedMakers, Current, AllTimely, FreshIds, CoversBoth;
    hide AlignedMatching;
    FewMakersAlign(CONFIG, ReadyToMatch(CONFIG, s, order, fee, id), 0, order);
    ReachesFurther(CONFIG, ASSETS, s, AddOrderOp(0, 0, order, fee, id));
  }

  lemma FewMakersAlign(cfg: Config, s: Ledger, round: Round, order: Approval)
    requires order.buy > 0.0 && order.sell > 0.0 && |SortedMakers(s, round, order)| <= 1
    ensures AlignedMatching(cfg, s, round, order)
  {
    hide SortedMakers, RawSwaps, ToMatchUnit;
    var sorted := SortedMakers(s, round, order);
    RunLength(Fresh(ToMatchUnit(MkTaker(s, order), cfg.decimalPlaces)), AllToMatchUnit(sorted, cfg.decimalPlaces));
  }

  lemma AddOrderLedger(s: Ledger, order: Approval, fee: Approval, id: Id, trades: seq<Trade>)
    requires order.buy > 0.0 && order.sell > 0.0
    requires CheckOrder(CONFIG, s, 0, order, fee).None? && InsertOrder(s, order, fee).Ok()
    requires ProcessFeeApproval(CONFIG, InsertOrder(s, order, fee).ledger, fee, id).Ok()
    requires CreateTradesForApproval(CONFIG, ReadyToMatch(CONFIG, s, order, fee, id), 0, order) == Success(trades)
    ensures var settled, result := RegisterTrades(ReadyToMatch(CONFIG, s, order, fee, id), trades), AddOrder(CONFIG, s, 0, 0, order, fee, id);
      && result.ledger == settled.ledger && result.error.None?
      && (settled.Ok() ==> result.trades == trades)
  {
    hide CheckOrder, InsertOrder, ProcessFeeApproval, CreateTradesForApproval, RegisterTrades;
  }

  /** An order that meets no maker waits in the book. */
  lemma {:induction false} OrderWaits(s: Ledger, waiting: set<Address>, order: Approval, fee: Approval, id: Id)
    requires Standing(s, waiting) && order.owner in waiting && ClientOrder(order, fee)
    requires Quiet(Funded()) && CanOrder(Funded(), order) && FreshIds(s, order, fee, id)
    requires Makers(s.approvals, |s.approvals|, 0, order) == []
    ensures var after := AddOrder(CONFIG, s, 0, 0, order, fee, id).ledger;
      && Standing(after, waiting - {order.owner})
      && after.approvals == BookedWith(s.approvals, order, fee, OperatorApprovalForFee(CONFIG, fee, id))
  {
    hide Sound, IsRegistered, InsertOrder, CheckOrder, Funded, Reachable, CanOrder, Quiet, Stored, AddOrder;
    hide FreshIds, ExchangeSound, Current, SameRows, SameLater, Conserved, BookedWithinLimits, ReadyToMatch, ProcessFeeApproval;
    hide BookedWith, OrderlyButForMatching, CreateTradesForApproval, SortedMakers, Makers, OrderlyOrder;
    OrderIsAccepted(s, waiting, order, fee, id);
    OrderGetsReady(s, waiting, order, fee, id);
    var ready := ReadyToMatch(CONFIG, s, order, fee, id);
    MakersOfBook(s.approvals, order, fee, OperatorApprovalForFee(CONFIG, fee, id));
    NoMakerNoTrade(ready, order);
    OrderReaches(s, order, fee, id);
    AddOrderLedger(s, order, fee, id, []);
  }

  lemma NoMakerNoTrade(s: Ledger, order: Approval)
    requires order.buy > 0.0 && order.sell > 0.0 && Makers(s.approvals, |s.approvals|, 0, order) == []
    ensures SortedMakers(s, 0, order) == [] && CreateTradesForApproval(CONFIG, s, 0, order) == Success([])
  {
    hide Makers, FindApproval, ShiftedBy;
  }

  lemma {:induction false} SameMakers(approvals: seq<ApprovalRow>, more: seq<ApprovalRow>, n: nat, order: Approval)
    requires n <= |approvals| <= |more| && approvals == more[..|approvals|]
    ensures Makers(more, n, 0, order) == Makers(approvals, n, 0, order)
  {
    hide IsMaker;
    if n > 0 {
      SameMakers(approvals, more, n - 1, order);
      assert more[n - 1] == approvals[n - 1];
    }
  }

  /** An order is not its own maker, and paid fees are no makers. */
  lemma {:induction false} MakersOfBook(approvals: seq<ApprovalRow>, order: Approval, fee: Approval, other: Approval)
    requires order.buyAsset != order.sellAsset
    ensures var rows := BookedWith(approvals, order, fee, other);
      Makers(rows, |rows|, 0, order) == Makers(approvals, |approvals|, 0, order)
  {
    var rows, n := BookedWith(approvals, order, fee, other), |approvals|;
    SameMakers(approvals, rows, n, order);
    assert rows[n].params == order && rows[n + 1].status.Closed? && rows[n + 2].status.Closed?;
    assert Makers(rows, n + 1, 0, order) == Makers(rows, n, 0, order);
    assert Makers(rows, n + 2, 0, order) == Makers(rows, n, 0, order);
  }

  /** The order itself is found where it was put. */
  lemma {:induction false} TakerOfBook(s: Ledger, approvals: seq<ApprovalRow>, order: Approval, fee: Approval, other: Approval)
    requires s.approvals == BookedWith(approvals, order, fee, other) && !HasApproval(approvals, order.approvalId)
    requires order.buy > 0.0 && order.sell > 0.0 && order.intent.SellAll?
    ensures MkTaker(s, order) == MkMatch(order, order.sell, |approvals| + 1)
  {
    hide FindApproval;
    var rows := s.approvals;
    FindAfterAppend(approvals, ApprovalRow(order, 0.0, 0.0, Open), order.approvalId);
    FindAfterAppend(approvals + [ApprovalRow(order, 0.0, 0.0, Open)], rows[|approvals| + 1], order.approvalId);
    FindAfterAppend(approvals + [ApprovalRow(order, 0.0, 0.0, Open)] + [rows[|approvals| + 1]], rows[|approvals| + 2], order.approvalId);
  }

  // --- Bob's order, and Dave's trade with it --------------------------------------------------

  function OthersSide(fee: Approval, id: Id): Approval {
    OperatorApprovalForFee(CONFIG, fee, id)
  }

  function BobsBook(): seq<ApprovalRow> {
    BookedWith([], BOBS, BOBS_FEE, OthersSide(BOBS_FEE, "o1"))
  }

  function AfterBob(): Ledger {
    AddOrder(CONFIG, Funded(), 0, 0, BOBS, BOBS_FEE, "o1").ledger
  }

  lemma {:induction false} FundedStands()
    ensures Standing(Funded(), CLIENTS) && FreshIds(Funded(), BOBS, BOBS_FEE, "o1")
  {
    hide Funded, Reachable, IsRegistered, SameLater;
    FundedFacts();
    var s := Funded();
    SameLaterSteps(s, s, s, 0);
    assert s.approvals == [];
  }

  lemma {:induction false} BobStands()
    ensures Standing(AfterBob(), CLIENTS - {BOB}) && AfterBob().approvals == BobsBook()
  {
    hide Standing, Funded, FreshIds, Quiet, CanOrder, ClientOrder, AddOrder, BookedWith;
    FundedStands();
    FundedFacts();
    TheOrders();
    assert Funded().approvals == [] by { QuietIsEmpty(Funded()); }
    OrderWaits(Funded(), CLIENTS, BOBS, BOBS_FEE, "o1");
  }

  /** Bob's order and fee are stored, and the fee is not yet filled. */
  ghost predicate AwaitsFee(stored: Ledger) {
    && Sound(stored) && Current(stored, 0) && IsRegistered(stored.wallets, OPERATOR) && Conserved(stored.fills)
    && ProperFee(CONFIG, stored, 0, BOBS_FEE) && FreshRow(stored, BOBS_FEE) && FreshRow(stored, BOBS)
    && !HasApproval(stored.approvals, "o1") && AccountsTimely(stored, OperatorApprovalForFee(CONFIG, BOBS_FEE, "o1"))
  }

  lemma {:induction false} BobAwaitsFee()
    ensures Reachable(CONFIG, ASSETS, Funded()) && OrderlyButForMatching(CONFIG, Funded(), 0, BOBS, BOBS_FEE, "o1")
    ensures InsertOrder(Funded(), BOBS, BOBS_FEE).Ok() && AwaitsFee(InsertOrder(Funded(), BOBS, BOBS_FEE).ledger)
  {
    hide Funded, FreshIds, Quiet, CanOrder, ClientOrder, Sound, Current, Conserved, AccountsTimely, InsertOrder, Reachable, CheckOrder;
    hide FreshRow, SameLater, SameRows, CoversBoth, FindApproval, BookedWithinLimits, IsRegistered, Post, PatchCache;
    FundedStands();
    FundedFacts();
    TheOrders();
    var s, other := Funded(), OperatorApprovalForFee(CONFIG, BOBS_FEE, "o1");
    OrderIsAccepted(s, CLIENTS, BOBS, BOBS_FEE, "o1");
    InsertOrderSound(s, 0, BOBS, BOBS_FEE, "o1");
    var stored := InsertOrder(s, BOBS, BOBS_FEE).ledger;
    StillTimely(s, stored, other);
    StoredOrderRows(s, stored);
  }

  /** An order whose fee approval is cancelled before it is filled stays in the book without a paid fee. */
  lemma {:induction false} CancelledFeeLeavesOrder()
    ensures Reachable(CONFIG, ASSETS, Funded()) && OrderlyButForMatching(CONFIG, Funded(), 0, BOBS, BOBS_FEE, "o1")
    ensures var stored := InsertOrder(Funded(), BOBS, BOBS_FEE);
      && stored.Ok()
      && ProcessFeeApproval(CONFIG, stored.ledger, BOBS_FEE, "o1").Ok()
      && var unpaid := PayAround(CONFIG, stored.ledger, 0, BOBS_FEE, "o1", ["f1"], [], []);
         !unpaid.Ok() && FreshRow(unpaid.ledger, BOBS)
  {
    hide Funded, Sound, Current, Conserved, AccountsTimely, InsertOrder, PayAround, ProcessFeeApproval, Reachable, FreshRow, FindApproval, IsRegistered;
    hide OrderlyButForMatching, ProperFee;
    BobAwaitsFee();
    var stored := InsertOrder(Funded(), BOBS, BOBS_FEE).ledger;
    NoCancellations(CONFIG, stored, 0, BOBS_FEE, "o1");
    FeePaidIffNotCancelled(CONFIG, stored, 0, BOBS, BOBS_FEE, "o1", [], [], []);
    FeePaidIffNotCancelled(CONFIG, stored, 0, BOBS, BOBS_FEE, "o1", ["f1"], [], []);
  }

  lemma StoredOrderRows(s: Ledger, stored: Ledger)
    requires FreshIds(s, BOBS, BOBS_FEE, "o1") && stored == LockBoth(s, BOBS, BOBS_FEE).(cache := stored.cache)
    ensures FreshRow(stored, BOBS) && FreshRow(stored, BOBS_FEE) && !HasApproval(stored.approvals, "o1")
  {
    hide FindApproval, Post, PatchCache;
    FreshAfterLock(s, BOBS);
    FreshAfterLock(LockApproval(s, BOBS), BOBS_FEE);
  }

  lemma QuietIsEmpty(s: Ledger)
    requires Quiet(s)
    ensures s.approvals == []
  {
    hide Reachable;
  }

  /** No row has one of these ids. */
  predicate NewIds(approvals: seq<ApprovalRow>, ids: set<Id>) {
    forall i :: 0 <= i < |approvals| ==> approvals[i].params.approvalId !in ids
  }

  lemma {:induction false} NewIdsAreFresh(s: Ledger, order: Approval, fee: Approval, id: Id)
    requires NewIds(s.approvals, {order.approvalId, fee.approvalId, id})
    requires order.approvalId != fee.approvalId && order.approvalId != id && fee.approvalId != id
    ensures FreshIds(s, order, fee, id)
  {
    hide FindApproval;
  }

  lemma DaveIsNew()
    ensures NewIds(BobsBook(), {DAVES.approvalId, DAVES_FEE.approvalId, "o2"})
  {
    assert |BobsBook()| == 3;
  }

  /** The ledger in which Dave's order is matched, his quote, Bob's, and the swap between them. */
  function ReadyForDave(): Ledger {
    ReadyToMatch(CONFIG, AfterBob(), DAVES, DAVES_FEE, "o2")
  }

  const DAVES_QUOTE := MkMatch(DAVES, 8.0, 4)
  const BOBS_QUOTE := MkMatch(BOBS, 15.0, 1)
  const SWAP := Swap(8.0, 1.0)
  const DAVES_TRADE := MkTrade(DAVES_QUOTE, BOBS_QUOTE, SWAP)

  lemma {:induction false} DaveFindsBob(s: Ledger)
    requires s.approvals == BookedWith(BobsBook(), DAVES, DAVES_FEE, OthersSide(DAVES_FEE, "o2"))
    ensures MkTaker(s, DAVES) == DAVES_QUOTE && Makers(s.approvals, |s.approvals|, 0, DAVES) == [BOBS_QUOTE]
    ensures SortQuotes(Filter(DAVES_QUOTE, [BOBS_QUOTE])) == [BOBS_QUOTE] == SortedMakers(s, 0, DAVES)
  {
    hide FindApproval, Price;
    var rows := BobsBook();
    DaveIsNew();
    TakerOfBook(s, rows, DAVES, DAVES_FEE, OthersSide(DAVES_FEE, "o2"));
    MakersOfBook(rows, DAVES, DAVES_FEE, OthersSide(DAVES_FEE, "o2"));
    assert |rows| == 3;
    assert Makers(rows, 1, 0, DAVES) == [BOBS_QUOTE];
    assert Makers(rows, 2, 0, DAVES) == [BOBS_QUOTE];
    assert Makers(rows, 3, 0, DAVES) == [BOBS_QUOTE];
    assert [BOBS_QUOTE][1..] == [];
    assert Filter(DAVES_QUOTE, [BOBS_QUOTE]) == [BOBS_QUOTE];
    SortOfSorted(NotAfter, [BOBS_QUOTE]);
  }

  lemma DavesTradeIsFair()
    ensures FairSwap(1.0, DAVES_QUOTE, BOBS_QUOTE, SWAP) && WholeUnits(BOBS_QUOTE.remaining, 1.0)
    ensures MatchLeftRight(DAVES_QUOTE, BOBS_QUOTE) == Success(SWAP)
  {
    hide MatchLeftRight;
    UnitIsOne(15.0);
    UnitIsOne(8.0);
    UnitIsOne(1.0);
    MatchIffFair(DAVES_QUOTE, BOBS_QUOTE, SWAP);
  }

  lemma {:induction false} SameUnits()
    ensures ToMatchUnit(DAVES_QUOTE, TOKEN_DECIMALS) == DAVES_QUOTE
    ensures AllToMatchUnit([BOBS_QUOTE], TOKEN_DECIMALS) == [BOBS_QUOTE]
    ensures AllToWei([SWAP], TOKEN_DECIMALS) == [SWAP]
  {
    hide ShiftedBy;
    forall n: Amount | n in {1.0, 2.0, 8.0, 15.0}
      ensures ShiftedBy(n, 0) == n
    {
      ShiftByZero(n);
    }
  }

  lemma {:induction false} DaveTrades(s: Ledger)
    requires s.approvals == BookedWith(BobsBook(), DAVES, DAVES_FEE, OthersSide(DAVES_FEE, "o2"))
    ensures CreateTradesForApproval(CONFIG, s, 0, DAVES) == Success([DAVES_TRADE])
  {
    hide RawSwaps, SortQuotes, Filter, ToMatchUnit, ToWei, Makers, MkTaker, MatchLeftRight;
    DaveFindsBob(s);
    DavesTradeIsFair();
    EmptyRun(After(DAVES_QUOTE, SWAP));
    var one: seq<Quote> := [BOBS_QUOTE];
    assert one[1..] == [] && one[0] == BOBS_QUOTE;
    RunStep(DAVES_QUOTE, one, SWAP, []);
    assert [SWAP] + [] == [SWAP] && [SWAP][1..] == [];
    SameUnits();
    assert Positives([SWAP]) == [SWAP];
    assert CreateSwaps(DAVES_QUOTE, one, TOKEN_DECIMALS) == Success([SWAP]);
    assert ZipTrades(DAVES_QUOTE, [SWAP], one) == [DAVES_TRADE];
  }

  /** Dave's order is orderly, and both sides of its one trade are listed in a sound ledger. */
  lemma {:induction false} DaveIsReady()
    ensures var s, ready := AfterBob(), ReadyForDave();
      && Standing(s, CLIENTS - {BOB}) && Ready(s, CLIENTS - {BOB}, ready, DAVES, DAVES_FEE, "o2") && s.approvals == BobsBook()
      && OrderlyOrder(CONFIG, s, 0, DAVES, DAVES_FEE, "o2")
      && CheckOrder(CONFIG, s, 0, DAVES, DAVES_FEE).None? && InsertOrder(s, DAVES, DAVES_FEE).Ok()
      && ProcessFeeApproval(CONFIG, InsertOrder(s, DAVES, DAVES_FEE).ledger, DAVES_FEE, "o2").Ok()
      && Reachable(CONFIG, ASSETS, AddOrder(CONFIG, s, 0, 0, DAVES, DAVES_FEE, "o2").ledger)
      && AlignedMatching(CONFIG, ready, 0, DAVES)
      && CreateTradesForApproval(CONFIG, ready, 0, DAVES) == Success([DAVES_TRADE])
      && Listed(ready, DAVES_QUOTE) && Listed(ready, BOBS_QUOTE)
  {
    hide Sound, Funded, FreshIds, Quiet, CanOrder, AddOrder, BookedWith, BobsBook, AfterBob, Makers, OrderlyOrder;
    hide CheckOrder, InsertOrder, ProcessFeeApproval, Stored, SortedMakers, CreateTradesForApproval, Listed, OrderlyButForMatching;
    hide ReadyToMatch, AlignedMatching, Current, Conserved, BookedWithinLimits, SameLater, SameRows, Reachable, NewIds;
    BobStands();
    FundedFacts();
    TheOrders();
    DaveIsNew();
    var s := AfterBob();
    NewIdsAreFresh(s, DAVES, DAVES_FEE, "o2");
    OrderIsAccepted(s, CLIENTS - {BOB}, DAVES, DAVES_FEE, "o2");
    OrderGetsReady(s, CLIENTS - {BOB}, DAVES, DAVES_FEE, "o2");
    var ready := ReadyForDave();
    DaveFindsBob(ready);
    DaveTrades(ready);
    FewMakersAlign(CONFIG, ready, 0, DAVES);
    OrderReaches(s, DAVES, DAVES_FEE, "o2");
    StoredIsListed(ready, 0, DAVES);
    SoundParts(ready);
    assert BOBS_QUOTE in [BOBS_QUOTE];
    MakersListed(ready, 0, DAVES, BOBS_QUOTE);
  }

  /**
   * A reachable ledger in which an orderly order makes one trade: it settles in full when nobody
   * interferes, is half applied when the maker is cancelled before or between its fills, and does not
   * happen at all when the taker is cancelled before.
   */
  lemma {:induction false} CancelHalvesReachableTrade()
    ensures Reachable(CONFIG, ASSETS, AfterBob()) && OrderlyOrder(CONFIG, AfterBob(), 0, DAVES, DAVES_FEE, "o2")
    ensures CreateTradesForApproval(CONFIG, ReadyForDave(), 0, DAVES) == Success([DAVES_TRADE])
    ensures var (takerFill, makerFill) := CreateFillParams(DAVES_TRADE);
      var alone := SettleAround(ReadyForDave(), 0, [], takerFill, [], makerFill);
      var noMaker := SettleAround(ReadyForDave(), 0, [BOBS.approvalId], takerFill, [], makerFill);
      var noMakerLater := SettleAround(ReadyForDave(), 0, [], takerFill, [BOBS.approvalId], makerFill);
      var noTaker := SettleAround(ReadyForDave(), 0, [DAVES.approvalId], takerFill, [], makerFill);
      && alone.Ok() && Conserved(alone.ledger.fills)
      && !noMaker.Ok() && !Conserved(noMaker.ledger.fills)
      && !noMakerLater.Ok() && !Conserved(noMakerLater.ledger.fills)
      && !noTaker.Ok() && Conserved(noTaker.ledger.fills)
  {
    hide Sound, Conserved, Reachable, Listed, Current, ReadyForDave, AfterBob, OrderlyOrder, CreateTradesForApproval, SettleAround;
    hide FairSwap, WholeUnits, Stored, BookedWith, CheckOrder, InsertOrder, ProcessFeeApproval, AddOrder, AlignedMatching;
    hide SameLater, SameRows, BookedWithinLimits, Funded;
    DaveIsReady();
    DavesTradeIsFair();
    var s := ReadyForDave();
    SettlementUnderCancellation(1.0, s, DAVES_QUOTE, BOBS_QUOTE, SWAP, [], []);
    SettlementUnderCancellation(1.0, s, DAVES_QUOTE, BOBS_QUOTE, SWAP, ["m1"], []);
    SettlementUnderCancellation(1.0, s, DAVES_QUOTE, BOBS_QUOTE, SWAP, [], ["m1"]);
    SettlementUnderCancellation(1.0, s, DAVES_QUOTE, BOBS_QUOTE, SWAP, ["d1"], []);
  }

  // --- After the trade: Carol's order and Alice's ---------------------------------------------

  /** Dave's order is filled, and Bob's is filled for 8 of its 15 USD. */
  function DavesBook(): seq<ApprovalRow> {
    BookedWith(BobsBook(), DAVES, DAVES_FEE, OthersSide(DAVES_FEE, "o2"))
      [3 := ApprovalRow(DAVES, 1.0, 8.0, Closed)][0 := ApprovalRow(BOBS, 8.0, 1.0, Open)]
  }

  function AfterDave(): Ledger {
    AddOrder(CONFIG, AfterBob(), 0, 0, DAVES, DAVES_FEE, "o2").ledger
  }

  lemma {:induction false} DavesFills(s: Ledger)
    requires s.approvals == BookedWith(BobsBook(), DAVES, DAVES_FEE, OthersSide(DAVES_FEE, "o2"))
    requires var (takerFill, makerFill) := CreateFillParams(DAVES_TRADE); AddFills(s, takerFill, makerFill).Ok()
    ensures var (takerFill, makerFill) := CreateFillParams(DAVES_TRADE);
      var after := AddFills(s, takerFill, makerFill).ledger;
      && after.approvals == DavesBook() && after.assets == s.assets && after.wallets == s.wallets && SameLater(s, after, 0)
      && forall w :: w != BOB && w != DAVE ==> SameRows(s, after, w)
  {
    hide FindApproval, AddFill, SameRows, SameLater;
    var (takerFill, makerFill) := CreateFillParams(DAVES_TRADE);
    var rows, middle := s.approvals, AddFill(s, takerFill).ledger;
    assert |BobsBook()| == 3 && |rows| == 6;
    assert rows[0] == ApprovalRow(BOBS, 0.0, 0.0, Open) && rows[1].params.approvalId == "f1" && rows[2].params.approvalId == "o1";
    assert rows[3] == ApprovalRow(DAVES, 0.0, 0.0, Open);
    assert FindApproval(rows, "d1") == 3 && FindApproval(rows, "m1") == 0;
    OneFill(s, takerFill);
    assert middle.approvals[0].params.approvalId == "m1";
    OneFill(middle, makerFill);
    WalletsThroughFills(s, takerFill, makerFill);
    AddFillAssets(s, takerFill);
    AddFillAssets(middle, makerFill);
    AddFillSameLater(s, takerFill, 0);
    AddFillSameLater(middle, makerFill, 0);
    SameLaterSteps(s, middle, AddFill(middle, makerFill).ledger, 0);
    forall w | w != BOB && w != DAVE
      ensures SameRows(s, AddFill(middle, makerFill).ledger, w)
    {
      AddFillSameRows(s, takerFill, w);
      AddFillSameRows(middle, makerFill, w);
      RowSteps(s, middle, AddFill(middle, makerFill).ledger, w);
    }
  }

  lemma OneFill(s: Ledger, params: FillParams)
    requires AddFill(s, params).Ok()
    ensures var i := FindApproval(s.approvals, params.approvalId);
      i < |s.approvals| && AddFill(s, params).ledger.approvals == s.approvals[i := FillRow(s.approvals[i], params.buy, params.sell)]
  {
    hide FindApproval, PostFill, PatchCache;
  }

  lemma {:induction false} DaveStands()
    ensures Standing(AfterDave(), {CAROL, ALICE}) && AfterDave().approvals == DavesBook()
  {
    hide Sound, Conserved, Reachable, Listed, Current, ReadyToMatch, AfterBob, OrderlyOrder, CreateTradesForApproval, AddFills;
    hide Stored, BookedWith, CheckOrder, InsertOrder, ProcessFeeApproval, AddOrder, AlignedMatching, BookedWithinLimits;
    hide SameLater, SameRows, Funded, BobsBook, DavesBook;
    DaveIsReady();
    TheOrders();
    var s, ready, after := AfterBob(), ReadyForDave(), AfterDave();
    AddOrderLedger(s, DAVES, DAVES_FEE, "o2", [DAVES_TRADE]);
    OrderSettles(CONFIG, ready, 0, DAVES);
    var (takerFill, makerFill) := CreateFillParams(DAVES_TRADE);
    assert [DAVES_TRADE][1..] == [];
    assert RegisterTrades(AddFills(ready, takerFill, makerFill).ledger, []) == Outcome(AddFills(ready, takerFill, makerFill).ledger, None);
    assert AddFills(ready, takerFill, makerFill).Ok() && after == AddFills(ready, takerFill, makerFill).ledger;
    DavesFills(ready);
    SameLaterSteps(Funded(), ready, after, 0);
    forall w | w in {CAROL, ALICE}
      ensures SameRows(Funded(), after, w)
    {
      RowSteps(Funded(), ready, after, w);
    }
  }

  function CarolsBook(): seq<ApprovalRow> {
    BookedWith(DavesBook(), CAROLS, CAROLS_FEE, OthersSide(CAROLS_FEE, "o3"))
  }

  function AfterCarol(): Ledger {
    AddOrder(CONFIG, AfterDave(), 0, 0, CAROLS, CAROLS_FEE, "o3").ledger
  }

  lemma {:induction false} DavesRows()
    ensures var rows := DavesBook();
      && |rows| == 6 && rows[0] == ApprovalRow(BOBS, 8.0, 1.0, Open)
      && (forall i :: 0 < i < 6 ==> rows[i].status.Closed?)
      && NewIds(rows, {"m2", "f3", "o3", "taker", "f4", "o4"})
  {
    assert |BobsBook()| == 3;
  }

  lemma {:induction false} OnlyOpenMakers(rows: seq<ApprovalRow>, n: nat, order: Approval)
    requires n <= |rows| && forall i :: 0 <= i < n ==> !rows[i].status.Open? || rows[i].params.buyAsset != order.sellAsset
    ensures Makers(rows, n, 0, order) == []
  {
    if n > 0 {
      OnlyOpenMakers(rows, n - 1, order);
    }
  }

  lemma {:induction false} CarolStands()
    ensures Standing(AfterCarol(), {ALICE}) && AfterCarol().approvals == CarolsBook()
  {
    hide Standing, Funded, FreshIds, Quiet, CanOrder, ClientOrder, AddOrder, BookedWith, AfterDave, DavesBook;
    DaveStands();
    FundedFacts();
    TheOrders();
    DavesRows();
    NewIdsAreFresh(AfterDave(), CAROLS, CAROLS_FEE, "o3");
    OnlyOpenMakers(DavesBook(), 6, CAROLS);
    OrderWaits(AfterDave(), {CAROL, ALICE}, CAROLS, CAROLS_FEE, "o3");
    assert {CAROL, ALICE} - {CAROL} == {ALICE};
  }

  /** The ledger in which Alice's order is matched. */
  function ReadyForAlice(): Ledger {
    ReadyToMatch(CONFIG, AfterCarol(), ALICES, ALICES_FEE, "o4")
  }

  lemma {:induction false} CarolsRows()
    ensures var rows := CarolsBook();
      && |rows| == 9 && rows[0] == ApprovalRow(BOBS, 8.0, 1.0, Open) && rows[6] == ApprovalRow(CAROLS, 0.0, 0.0, Open)
      && (forall i :: 0 < i < 9 && i != 6 ==> rows[i].status.Closed?)
      && NewIds(rows, {"taker", "f4", "o4"})
  {
    hide DavesBook;
    DavesRows();
  }

  lemma {:induction false} AliceFindsBoth(s: Ledger)
    requires s.approvals == BookedWith(CarolsBook(), ALICES, ALICES_FEE, OthersSide(ALICES_FEE, "o4"))
    ensures MkTaker(s, ALICES) == TAKER && Makers(s.approvals, |s.approvals|, 0, ALICES) == MAKERS
  {
    hide FindApproval, CarolsBook, BookedWith;
    var rows := CarolsBook();
    CarolsRows();
    TakerOfBook(s, rows, ALICES, ALICES_FEE, OthersSide(ALICES_FEE, "o4"));
    MakersOfBook(rows, ALICES, ALICES_FEE, OthersSide(ALICES_FEE, "o4"));
    assert Makers(rows, 1, 0, ALICES) == [PARTLY_FILLED];
    ClosedAreNoMakers(rows, 1, 6, ALICES);
    assert Makers(rows, 7, 0, ALICES) == [PARTLY_FILLED] + [UNTOUCHED];
    ClosedAreNoMakers(rows, 7, 9, ALICES);
  }

  lemma {:induction false} ClosedAreNoMakers(rows: seq<ApprovalRow>, n: nat, m: nat, order: Approval)
    requires n <= m <= |rows| && forall i :: n <= i < m ==> rows[i].status.Closed?
    ensures Makers(rows, m, 0, order) == Makers(rows, n, 0, order)
  {
    if n < m {
      ClosedAreNoMakers(rows, n, m - 1, order);
    }
  }

  lemma {:induction false} AliceIsReady()
    ensures var s, ready := AfterCarol(), ReadyForAlice();
      && Reachable(CONFIG, ASSETS, s) && OrderlyButForMatching(CONFIG, s, 0, ALICES, ALICES_FEE, "o4")
      && Ready(s, {ALICE}, ready, ALICES, ALICES_FEE, "o4") && s.approvals == CarolsBook()
      && CheckOrder(CONFIG, s, 0, ALICES, ALICES_FEE).None? && InsertOrder(s, ALICES, ALICES_FEE).Ok()
      && ProcessFeeApproval(CONFIG, InsertOrder(s, ALICES, ALICES_FEE).ledger, ALICES_FEE, "o4").Ok()
      && CreateTradesForApproval(CONFIG, ready, 0, ALICES) == Success([MkTrade(TAKER, PARTLY_FILLED, SWAP)])
      && Listed(ready, TAKER) && Listed(ready, PARTLY_FILLED)
  {
    hide Sound, Funded, FreshIds, Quiet, CanOrder, AddOrder, BookedWith, CarolsBook, AfterCarol, Makers, CreateTrades;
    hide CheckOrder, InsertOrder, ProcessFeeApproval, Stored, Listed, OrderlyButForMatching;
    hide ReadyToMatch, Current, Conserved, BookedWithinLimits, SameLater, SameRows, Reachable, NewIds;
    CarolStands();
    FundedFacts();
    TheOrders();
    CarolsRows();
    var s := AfterCarol();
    NewIdsAreFresh(s, ALICES, ALICES_FEE, "o4");
    OrderIsAccepted(s, {ALICE}, ALICES, ALICES_FEE, "o4");
    OrderGetsReady(s, {ALICE}, ALICES, ALICES_FEE, "o4");
    var ready := ReadyForAlice();
    AliceFindsBoth(ready);
    MisalignedTradeOverfills();
    StoredIsListed(ready, 0, ALICES);
    SoundParts(ready);
    assert MAKERS[0] == PARTLY_FILLED;
    MakersListed(ready, 0, ALICES, PARTLY_FILLED);
  }

  /** A fill within the lock is accepted even when it overfills its approval. */
  lemma {:induction false} OverfillAccepted(s: Ledger)
    requires Sound(s) && FindApproval(s.approvals, "m1") == 0 < |s.approvals|
    requires s.approvals[0] == ApprovalRow(BOBS, 8.0, 1.0, Open)
    ensures var after := AddFill(s, FillParams("m1", 0, 8.0, 1.0));
      && after.Ok() && 0 < |after.ledger.approvals|
      && after.ledger.approvals[0] == ApprovalRow(BOBS, 16.0, 2.0, Closed)
  {
    hide Times, FindApproval, Represented, PatchCache;
    LockCoversRow(s, 0);
    assert SellKey(BOBS) in s.accounts by { assert SellKey(s.approvals[0].params) in s.accounts; }
    assert !HasFill(s.fills, NextFillId(s));
  }

  /** Alice's own fill goes through, and Bob's row is as before. */
  lemma {:induction false} AlicesFill(s: Ledger)
    requires Sound(s) && Current(s, 0) && Listed(s, TAKER)
    requires s.approvals == BookedWith(CarolsBook(), ALICES, ALICES_FEE, OthersSide(ALICES_FEE, "o4"))
    ensures var after := AddFill(s, FillParams("taker", 0, 1.0, 8.0));
      && after.Ok() && Sound(after.ledger)
      && FindApproval(after.ledger.approvals, "m1") == 0 < |after.ledger.approvals|
      && after.ledger.approvals[0] == ApprovalRow(BOBS, 8.0, 1.0, Open)
  {
    hide Sound, Current, Listed, FindApproval, AddFill, CarolsBook;
    CarolsRows();
    var params := FillParams("taker", 0, 1.0, 8.0);
    FillListed(s, TAKER, 1.0, 8.0);
    OneFill(s, params);
    assert s.approvals[0] == ApprovalRow(BOBS, 8.0, 1.0, Open);
    assert FindApproval(s.approvals, "taker") != 0;
    assert AddFill(s, params).ledger.approvals[0].params.approvalId == "m1";
  }

  lemma OverfilledIsUnbalanced(s: Ledger)
    requires 0 < |s.approvals| && s.approvals[0].params == BOBS && s.approvals[0].filledBuy > BOBS.buy
    ensures !BooksBalance(s)
  {
    assert !NotOverfilled(s.approvals[0]);
  }

  /**
   * From a reachable ledger, an order that is orderly in all but the alignment of its matching: it is
   * accepted, its one trade is Carol's swap in Bob's name, and Bob, who asked for 15 USD, has bought 16.
   */
  lemma {:induction false} MisalignedOrderOverfills()
    ensures var s := AfterCarol();
      && Reachable(CONFIG, ASSETS, s) && BooksBalance(s)
      && OrderlyButForMatching(CONFIG, s, 0, ALICES, ALICES_FEE, "o4")
      && var result := AddOrder(CONFIG, s, 0, 0, ALICES, ALICES_FEE, "o4");
         && result.error.None? && result.trades == [MkTrade(TAKER, PARTLY_FILLED, SWAP)]
         && 0 < |result.ledger.approvals| && result.ledger.approvals[0] == ApprovalRow(BOBS, 16.0, 2.0, Closed)
         && !BooksBalance(result.ledger)
  {
    hide Sound, Funded, AddOrder, BookedWith, CarolsBook, AfterCarol, CreateTradesForApproval, BooksBalance, AddFill;
    hide CheckOrder, InsertOrder, ProcessFeeApproval, Stored, Listed, OrderlyButForMatching, FindApproval;
    hide ReadyToMatch, Current, Conserved, BookedWithinLimits, SameLater, SameRows, Reachable;
    AliceIsReady();
    var s, ready, trade := AfterCarol(), ReadyForAlice(), MkTrade(TAKER, PARTLY_FILLED, SWAP);
    assert BooksBalance(s) by { ReachableBalances(s); }
    AddOrderLedger(s, ALICES, ALICES_FEE, "o4", [trade]);
    AlicesFill(ready);
    var middle := AddFill(ready, FillParams("taker", 0, 1.0, 8.0)).ledger;
    OverfillAccepted(middle);
    var last := AddFill(middle, FillParams("m1", 0, 8.0, 1.0)).ledger;
    assert [trade][1..] == [];
    assert RegisterTrades(last, []) == Outcome(last, None);
    assert RegisterTrades(ready, [trade]) == Outcome(last, None);
    OverfilledIsUnbalanced(last);
  }

  lemma ReachableBalances(s: Ledger)
    requires Reachable(CONFIG, ASSETS, s)
    ensures BooksBalance(s)
  {
    hide Reachable, Represented, BooksBalance, IsRegistered;
    ReachableSound(CONFIG, ASSETS, s);
  }
}
