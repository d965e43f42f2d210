// An order that is checked in one round and matched in another: the operator's round is read twice, and block
// processing can move it in between (src/server/exchange/Exchange.ts, checkApprovalRound and
// createTradesForApproval).
module RoundChanges {
  import opened BasicTypes
  import opened BigNumbers
  import opened Wrappers
  import opened Sorting
  import opened Matching
  import opened MatchingFacts
  import opened MatchingProofs
  import opened MatchingRuns
  import opened Ledgers
  import opened LedgerBalances
  import opened LedgerBooks
  import opened LedgerSound
  import opened Exchanges
  import opened Settlement
  import opened OrderFlow
  import opened Interleavings
  import opened FaultExamples

  /** A fill of another round than its approval's is refused. */
  lemma {:induction false} WrongRoundRefused(s: Ledger, params: FillParams)
    requires HasApproval(s.approvals, params.approvalId)
    requires s.approvals[FindApproval(s.approvals, params.approvalId)].params.round != params.round
    ensures !AddFill(s, params).Ok() && AddFill(s, params).ledger == s
  {
    hide FindApproval, HasFill, PostFill, PatchCache;
  }

  /** The first positive swap of a fair run is fair to the untouched taker. */
  lemma {:induction false} FirstPositiveIsFair(u: Amount, left: Quote, rights: seq<Quote>, raw: seq<Swap>) returns (right: Quote)
    requires u > 0.0 && FairRun(u, left, rights, raw) && Positives(raw) != []
    ensures FairSwap(u, left, right, Positives(raw)[0]) && left.remaining > 0.0
    decreases |raw|
  {
    hide FairSwap;
    if Positive(raw[0]) {
      right := rights[0];
    } else {
      ZeroSwap(u, left, rights[0], raw[0]);
      assert After(left, raw[0]) == left;
      right := FirstPositiveIsFair(u, left, rights[1..], raw[1..]);
    }
  }

  lemma FairForTaker(u: Amount, left: Quote, right: Quote, swap: Swap)
    requires u > 0.0 && FairSwap(u, left, right, swap)
    ensures Acceptable(left, swap.fromRight, swap.fromLeft)
  {
    hide Times, WholeUnits, AtMakerPrice, ExhaustsMaker;
  }

  /** The first trade's swap is acceptable to the taker, and its maker is of the round of the matching. */
  lemma {:induction false} FirstTrade(cfg: Config, s: Ledger, later: Round, order: Approval)
    requires BooksBalance(s) && BookedWithinLimits(s.approvals) && Stored(s, order.round, order)
    requires cfg.decimalPlaces <= TOKEN_DECIMALS
    requires CreateTradesForApproval(cfg, s, later, order).Success?
    requires CreateTradesForApproval(cfg, s, later, order).value != []
    ensures var t := CreateTradesForApproval(cfg, s, later, order).value[0];
      && t.leftId == order.approvalId && t.round == order.round
      && MkTaker(s, order).remaining > 0.0 && Acceptable(MkTaker(s, order), t.rightSell, t.leftSell)
      && HasApproval(s.approvals, t.rightId)
      && s.approvals[FindApproval(s.approvals, t.rightId)].params.round == later
  {
    hide BooksBalance, BookedWithinLimits, Stored, FindApproval, SortQuotes, Filter, RunInWei, FairRun, Makers, CreateSwaps, Acceptable;
    hide WithinSupply;
    StoredPositive(s, order.round, order);
    var taker := MkTaker(s, order);
    var makers := Makers(s.approvals, |s.approvals|, later, order);
    var sorted := SortedMakers(s, later, order);
    MakersBestFirst(taker, makers);
    SwapsArePositives(taker, sorted, cfg.decimalPlaces);
    var raw := RunInWei(taker, sorted, cfg.decimalPlaces).value;
    forall q | q in sorted
      ensures WithinSupply(q)
    {
      MakersListed(s, later, order, q);
    }
    TakerWithinSupply(s, order.round, order);
    RunInWeiIsFair(taker, sorted, cfg.decimalPlaces, raw);
    var right := FirstPositiveIsFair(Unit(cfg.decimalPlaces), taker, sorted, raw);
    FairForTaker(Unit(cfg.decimalPlaces), taker, right, Positives(raw)[0]);
    MakersListed(s, later, order, sorted[0]);
    ListedRound(s, sorted[0]);
  }

  lemma ListedRound(s: Ledger, q: Quote)
    requires Listed(s, q)
    ensures HasApproval(s.approvals, q.approvalId)
    ensures s.approvals[FindApproval(s.approvals, q.approvalId)].params.round == q.round
  {
    hide FindApproval;
  }

  /** Of a trade with makers of another round only the taker's fill is stored. */
  lemma {:induction false} OtherRoundHalvesTrade(s: Ledger, taker: Quote, t: Trade)
    requires Sound(s) && Conserved(s.fills) && Current(s, taker.round) && Listed(s, taker) && taker.remaining > 0.0
    requires taker.buyAsset != taker.sellAsset
    requires t.leftId == taker.approvalId && t.round == taker.round && Acceptable(taker, t.rightSell, t.leftSell)
    requires HasApproval(s.approvals, t.rightId) && s.approvals[FindApproval(s.approvals, t.rightId)].params.round != taker.round
    ensures var (takerFill, makerFill) := CreateFillParams(t);
      var after := AddFills(s, takerFill, makerFill);
      !after.Ok() && !Conserved(after.ledger.fills)
  {
    hide Sound, Conserved, Current, FindApproval, AddFill, Listed;
    var (takerFill, makerFill) := CreateFillParams(t);
    FillListed(s, taker, t.rightSell, t.leftSell);
    AddFillAppends(s, takerFill);
    WrongRoundRefused(AddFill(s, takerFill).ledger, makerFill);
    ListedIsBookedAndOpen(s, taker);
    TakerFillAlone(s, taker, Swap(t.leftSell, t.rightSell));
  }

  /**
   * The trades of a stored order, matched when the operator's round is `later`, are applied in full if and
   * only if that is still the order's round or there is no trade; otherwise the first trade is half
   * applied, and conservation is lost.
   */
  lemma {:induction false} TradesSettleIffRoundHolds(cfg: Config, s: Ledger, later: Round, order: Approval)
    requires Sound(s) && Conserved(s.fills) && BookedWithinLimits(s.approvals)
    requires Current(s, order.round) && cfg.decimalPlaces <= TOKEN_DECIMALS && Stored(s, order.round, order)
    requires later == order.round ==> AlignedMatching(cfg, s, later, order)
    requires CreateTradesForApproval(cfg, s, later, order).Success?
    ensures var trades := CreateTradesForApproval(cfg, s, later, order).value;
      var after := RegisterTrades(s, trades);
      && (after.Ok() <==> later == order.round || trades == [])
      && (Conserved(after.ledger.fills) <==> later == order.round || trades == [])
  {
    hide Sound, Conserved, Current, BookedWithinLimits, Stored, AlignedMatching, CreateTradesForApproval, AddFills, Listed, Acceptable;
    hide FindApproval;
    StoredTaker(s, order.round, order);
    var trades := CreateTradesForApproval(cfg, s, later, order).value;
    if later == order.round {
      OrderSettles(cfg, s, later, order);
    } else if trades != [] {
      SoundParts(s);
      FirstTrade(cfg, s, later, order);
      StoredIsListed(s, order.round, order);
      OtherRoundHalvesTrade(s, MkTaker(s, order), trades[0]);
    }
  }

  lemma StoredTaker(s: Ledger, round: Round, order: Approval)
    requires Stored(s, round, order)
    ensures order.buy > 0.0 && order.sell > 0.0
    ensures var taker := MkTaker(s, order);
      taker.round == round && taker.approvalId == order.approvalId && taker.buyAsset != taker.sellAsset
  {
    hide FindApproval;
  }

  // --- An input -------------------------------------------------------------------------------

  const CONFIG := Config(OPERATOR, MEDIATOR, OAX, 1.0, TOKEN_DECIMALS, {(OAX, WETH)})

  /** One side of a market in round 1, and the other side in round 0. */
  const LATE_ASK := Approval("m1", 1, SellAll, OAX, 8.0, WETH, 1.0, ALICE, MEDIATOR)
  const EARLY_BID := Approval("t1", 0, SellAll, WETH, 1.0, OAX, 8.0, ALICE, MEDIATOR)

  function WithWeth(): Ledger {
    CreditDeposit(FaultExamples.Funded(0, 10.0, 0), WETH, ALICE, 1.0, 0).ledger
  }

  /** Both are in the book: the operator was in round 1, restarted in round 0, and moves on to round 1 again. */
  function TwoRounds(): Ledger {
    LockApproval(LockApproval(WithWeth(), LATE_ASK), EARLY_BID)
  }

  lemma {:induction false} WithWethFacts()
    ensures var s := WithWeth();
      && Sound(s) && s.approvals == [] && s.fills == [] && s.cache == map[] && IsRegistered(s.wallets, ALICE)
      && Available(s.accounts, WETH, ALICE, 1) == 1.0 && Available(s.accounts, OAX, ALICE, 0) == 10.0
      && (forall k :: k in s.accounts ==> k.round == 0)
  {
    hide Sound, Available, FaultExamples.Funded, IsRegistered, Post, PatchCache;
    var s := FaultExamples.Funded(0, 10.0, 0);
    FundedTables(0, 10.0, 0);
    FundedSound(0, 10.0, 0);
    assert NotCachedLater(s.cache, WETH, ALICE, 0);
    DepositSound(s, WETH, ALICE, 1.0, 0);
    assert WithWeth().cache == map[] by { NothingPatched(WETH, ALICE, 0, 1.0); }
    var d := NO_MOVEMENT.(deposited := 1.0);
    assert Net(d) == 1.0 && Net(Deposited(10.0)) == 10.0;
    assert OAX != WETH;
    AvailableAfterPost(s.accounts, Key(0, WETH, ALICE), d, WETH, ALICE, 1);
    AvailableAfterPost(s.accounts, Key(0, WETH, ALICE), d, OAX, ALICE, 0);
    AvailableAfterPost(map[], Key(0, OAX, ALICE), Deposited(10.0), WETH, ALICE, 1);
    NothingAvailable(WETH, ALICE, 1);
    RoundZeroRows(map[], Key(0, OAX, ALICE), Deposited(10.0));
    RoundZeroRows(s.accounts, Key(0, WETH, ALICE), d);
  }

  lemma NothingPatched(asset: Address, wallet: Address, round: Round, delta: Amount)
    ensures PatchCache(map[], asset, wallet, round, delta) == map[]
  {
  }

  lemma RoundZeroRows(accounts: map<Key, Account>, k: Key, d: Account)
    requires k.round == 0 && forall other :: other in accounts ==> other.round == 0
    ensures forall other :: other in Post(accounts, k, d) ==> other.round == 0
  {
  }

  lemma {:induction false} TwoRoundsFacts()
    ensures var s := TwoRounds();
      && Sound(s) && s.fills == [] && Conserved(s.fills) && Current(s, 0)
      && s.approvals == [ApprovalRow(LATE_ASK, 0.0, 0.0, Open), ApprovalRow(EARLY_BID, 0.0, 0.0, Open)]
  {
    hide Sound, Available, IsRegistered, FindApproval;
    WithWethFacts();
    var s := WithWeth();
    NoApprovalYet("m1");
    LockSound(s, LATE_ASK);
    var t := LockApproval(s, LATE_ASK);
    AvailableAfterPost(s.accounts, SellKey(LATE_ASK), NO_MOVEMENT.(locked := 1.0), OAX, ALICE, 0);
    assert Net(NO_MOVEMENT.(locked := 1.0)) == 0.0;
    FindAfterAppend([], ApprovalRow(LATE_ASK, 0.0, 0.0, Open), "t1");
    assert [] + [ApprovalRow(LATE_ASK, 0.0, 0.0, Open)] == [ApprovalRow(LATE_ASK, 0.0, 0.0, Open)];
    NoApprovalYet("t1");
    LockSound(t, EARLY_BID);
    assert AccountsTimely(TwoRounds(), EARLY_BID);
    NothingTraded();
  }

  const TAKER_QUOTE := MkMatch(EARLY_BID, 8.0, 2)
  const MAKER_QUOTE := MkMatch(LATE_ASK, 1.0, 1)
  const SWAP := Swap(8.0, 1.0)

  lemma {:induction false} LateAskIsFound(s: Ledger)
    requires s.approvals == [ApprovalRow(LATE_ASK, 0.0, 0.0, Open), ApprovalRow(EARLY_BID, 0.0, 0.0, Open)]
    ensures Stored(s, 0, EARLY_BID) && MkTaker(s, EARLY_BID) == TAKER_QUOTE
    ensures Makers(s.approvals, |s.approvals|, 1, EARLY_BID) == [MAKER_QUOTE]
    ensures SortQuotes(Filter(TAKER_QUOTE, [MAKER_QUOTE])) == [MAKER_QUOTE]
  {
    hide FindApproval, Price;
    var rows := s.approvals;
    assert rows[0].params.approvalId == "m1" && rows[1].params.approvalId == "t1";
    assert FindApproval(rows, "t1") == 1;
    assert Makers(rows, 1, 1, EARLY_BID) == [MAKER_QUOTE];
    assert Makers(rows, 2, 1, EARLY_BID) == [MAKER_QUOTE];
    assert [MAKER_QUOTE][1..] == [];
    assert Filter(TAKER_QUOTE, [MAKER_QUOTE]) == [MAKER_QUOTE];
    SortOfSorted(NotAfter, [MAKER_QUOTE]);
  }

  lemma {:induction false} LateSwap()
    ensures MatchLeftRight(TAKER_QUOTE, MAKER_QUOTE) == Success(SWAP)
    ensures ToMatchUnit(TAKER_QUOTE, TOKEN_DECIMALS) == TAKER_QUOTE
    ensures AllToMatchUnit([MAKER_QUOTE], TOKEN_DECIMALS) == [MAKER_QUOTE]
    ensures AllToWei([SWAP], TOKEN_DECIMALS) == [SWAP]
  {
    hide MatchLeftRight, ShiftedBy;
    UnitIsOne(8.0);
    UnitIsOne(1.0);
    MatchIffFair(TAKER_QUOTE, MAKER_QUOTE, SWAP);
    ShiftByZero(8.0);
    ShiftByZero(1.0);
  }

  lemma {:induction false} LateTrade(s: Ledger)
    requires s.approvals == [ApprovalRow(LATE_ASK, 0.0, 0.0, Open), ApprovalRow(EARLY_BID, 0.0, 0.0, Open)]
    ensures CreateTradesForApproval(CONFIG, s, 1, EARLY_BID) == Success([MkTrade(TAKER_QUOTE, MAKER_QUOTE, SWAP)])
  {
    hide RawSwaps, SortQuotes, Filter, ToMatchUnit, ToWei, Makers, MkTaker, MatchLeftRight;
    LateAskIsFound(s);
    LateSwap();
    EmptyRun(After(TAKER_QUOTE, SWAP));
    var one: seq<Quote> := [MAKER_QUOTE];
    assert one[1..] == [] && one[0] == MAKER_QUOTE;
    RunStep(TAKER_QUOTE, one, SWAP, []);
    assert [SWAP] + [] == [SWAP] && [SWAP][1..] == [];
    assert Positives([SWAP]) == [SWAP];
    assert CreateSwaps(TAKER_QUOTE, one, TOKEN_DECIMALS) == Success([SWAP]);
    assert ZipTrades(TAKER_QUOTE, [SWAP], one) == [MkTrade(TAKER_QUOTE, MAKER_QUOTE, SWAP)];
  }

  /** An order of round 0, matched in round 1, makes a trade of which only its own half is stored. */
  lemma {:induction false} MovedRoundHalvesTrade()
    ensures var s := TwoRounds();
      var trades := CreateTradesForApproval(CONFIG, s, 1, EARLY_BID);
      && Sound(s) && Conserved(s.fills) && trades.Success? && |trades.value| == 1
      && !RegisterTrades(s, trades.value).Ok() && !Conserved(RegisterTrades(s, trades.value).ledger.fills)
  {
    hide Sound, Conserved, Current, CreateTradesForApproval, TwoRounds, RegisterTrades, FindApproval;
    TwoRoundsFacts();
    var s := TwoRounds();
    LateAskIsFound(s);
    LateTrade(s);
    TradesSettleIffRoundHolds(CONFIG, s, 1, EARLY_BID);
  }
}
