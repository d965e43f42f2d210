// One order from arrival to settlement.
module OrderFlow {
  import opened BasicTypes
  import opened BigNumbers
  import opened Wrappers
  import opened Matching
  import opened MatchingProofs
  import opened MatchingRuns
  import opened MatchingFacts
  import opened MatchingConditions
  import opened Ledgers
  import opened LedgerBalances
  import opened LedgerBooks
  import opened LedgerSound
  import opened Exchanges
  import opened Settlement

  /** Approved amounts respect the supply limit, and every open approval has a price. */
  ghost predicate BookedWithinLimits(approvals: seq<ApprovalRow>) {
    forall i :: 0 <= i < |approvals| ==>
      && approvals[i].params.buy <= MAX_AMOUNT as real && approvals[i].params.sell <= MAX_AMOUNT as real
      && (approvals[i].status.Open? ==> approvals[i].params.buy > 0.0 && approvals[i].params.sell > 0.0)
  }

  /** The exchange between orders. */
  ghost predicate ExchangeSound(cfg: Config, s: Ledger) {
    && Sound(s)
    && Conserved(s.fills)
    && BookedWithinLimits(s.approvals)
    && IsRegistered(s.wallets, cfg.operator)
    && s.wallets[0] == WalletEntry(cfg.operator, 0)
  }

  // --- Makers out of the book -----------------------------------------------------------------

  lemma {:induction false} MakersAreRows(approvals: seq<ApprovalRow>, n: nat, round: Round, taker: Approval)
    requires n <= |approvals|
    ensures forall q :: q in Makers(approvals, n, round, taker) ==>
      exists i :: 0 <= i < n && IsMaker(approvals[i], round, taker)
                  && q == MkMatch(approvals[i].params, RemainingOf(approvals[i]), i + 1)
  {
    if n > 0 {
      MakersAreRows(approvals, n - 1, round, taker);
      forall q | q in Makers(approvals, n, round, taker)
        ensures exists i :: 0 <= i < n && IsMaker(approvals[i], round, taker)
                            && q == MkMatch(approvals[i].params, RemainingOf(approvals[i]), i + 1)
      {
        if q !in Makers(approvals, n - 1, round, taker) {
          var i := n - 1;
          assert IsMaker(approvals[i], round, taker) && q == MkMatch(approvals[i].params, RemainingOf(approvals[i]), i + 1);
        }
      }
    }
  }

  lemma {:induction false} MakersComplete(approvals: seq<ApprovalRow>, n: nat, round: Round, taker: Approval, i: nat)
    requires n <= |approvals| && i < n && IsMaker(approvals[i], round, taker)
    ensures MkMatch(approvals[i].params, RemainingOf(approvals[i]), i + 1) in Makers(approvals, n, round, taker)
  {
    if i < n - 1 {
      MakersComplete(approvals, n - 1, round, taker, i);
    }
  }

  lemma {:induction false} MakersDistinct(approvals: seq<ApprovalRow>, n: nat, round: Round, taker: Approval)
    requires UniqueIds(approvals) && n <= |approvals|
    ensures DistinctIds(Makers(approvals, n, round, taker))
  {
    hide IsMaker;
    if n > 0 {
      MakersDistinct(approvals, n - 1, round, taker);
      MakersAreRows(approvals, n - 1, round, taker);
      var earlier := Makers(approvals, n - 1, round, taker);
      forall i | 0 <= i < |earlier|
        ensures earlier[i].approvalId != approvals[n - 1].params.approvalId
      {
        assert earlier[i] in earlier;
      }
    }
  }

  /** Every maker that the engine sees is listed in the book, opposed to the taker, and within limits. */
  lemma {:induction false} MakersListed(s: Ledger, round: Round, order: Approval, q: Quote)
    requires BooksBalance(s) && BookedWithinLimits(s.approvals)
    requires q in Makers(s.approvals, |s.approvals|, round, order)
    ensures Listed(s, q) && WithinSupply(q)
    ensures q.round == round && q.buyAsset == order.sellAsset && q.sellAsset == order.buyAsset
    ensures HasApproval(s.approvals, q.approvalId)
  {
    hide FindApproval, Times, FilledExactly, FillsBacked, RowsExist;
    MakersAreRows(s.approvals, |s.approvals|, round, order);
    var i :| 0 <= i < |s.approvals| && IsMaker(s.approvals[i], round, order)
             && q == MkMatch(s.approvals[i].params, RemainingOf(s.approvals[i]), i + 1);
    FindUnique(s.approvals, i);
    assert NotOverfilled(s.approvals[i]);
  }

  // --- A returned run visits only makers with whole units -------------------------------------

  lemma {:induction false} VisitedAreInteger(left: Quote, rights: seq<Quote>, raw: seq<Swap>)
    requires RawSwaps(left, rights) == Success(raw)
    ensures |raw| <= |rights|
    ensures forall i :: 0 <= i < |raw| ==> IsInteger(rights[i].remaining)
    decreases |rights|
  {
    hide MatchLeftRight;
    if rights != [] && left.remaining > 0.0 {
      var swap := MatchLeftRight(left, rights[0]).value;
      VisitedAreInteger(After(left, swap), rights[1..], raw[1..]);
      MatchedIsInteger(left, rights[0]);
      assert forall i :: 0 < i < |raw| ==> rights[i] == rights[1..][i - 1];
    }
  }

  lemma MatchedIsInteger(left: Quote, right: Quote)
    requires MatchLeftRight(left, right).Success?
    ensures IsInteger(right.remaining)
  {
    hide Representable, ProposeSwap, Times;
    RepresentableIsInteger(right.remaining);
  }

  lemma {:induction false} VisitedAreWhole(left: Quote, rights: seq<Quote>, decimalPlaces: int, raw: seq<Swap>)
    requires RunInWei(left, rights, decimalPlaces) == Success(raw)
    ensures |raw| <= |rights|
    ensures forall i :: 0 <= i < |raw| ==> WholeUnits(rights[i].remaining, Unit(decimalPlaces))
  {
    hide RawSwaps, ShiftedBy, Times;
    var small := AllToMatchUnit(rights, decimalPlaces);
    VisitedAreInteger(Fresh(ToMatchUnit(left, decimalPlaces)), small,
                      RawSwaps(Fresh(ToMatchUnit(left, decimalPlaces)), small).value);
    forall i | 0 <= i < |raw|
      ensures WholeUnits(rights[i].remaining, Unit(decimalPlaces))
    {
      ShiftIsScale(rights[i].remaining, decimalPlaces);
    }
  }

  // --- Matching and settling a stored order ---------------------------------------------------

  /** The makers for an order, best first. */
  function SortedMakers(s: Ledger, round: Round, order: Approval): seq<Quote>
    requires order.buy > 0.0 && order.sell > 0.0
  {
    SortQuotes(Filter(MkTaker(s, order), Makers(s.approvals, |s.approvals|, round, order)))
  }

  /** The matching of this order drops no zero swap in front of a positive one. */
  ghost predicate AlignedMatching(cfg: Config, s: Ledger, round: Round, order: Approval)
    requires order.buy > 0.0 && order.sell > 0.0
  {
    var run := RunInWei(MkTaker(s, order), SortedMakers(s, round, order), cfg.decimalPlaces);
    run.Success? ==> Aligned(run.value)
  }

  /** The order just stored: open, unfilled, of the current round, between two assets. */
  ghost predicate Stored(s: Ledger, round: Round, order: Approval) {
    && order.round == round && order.buyAsset != order.sellAsset
    && order.buy > 0.0 && order.sell > 0.0
    && HasApproval(s.approvals, order.approvalId)
    && s.approvals[FindApproval(s.approvals, order.approvalId)] == ApprovalRow(order, 0.0, 0.0, Open)
  }

  lemma StoredIsListed(s: Ledger, round: Round, order: Approval)
    requires Stored(s, round, order)
    ensures Listed(s, MkTaker(s, order))
  {
    hide FindApproval;
  }

  /** The taker is never among its own makers. */
  lemma {:induction false} SortedMakersReady(s: Ledger, round: Round, order: Approval)
    requires BooksBalance(s) && BookedWithinLimits(s.approvals) && Stored(s, round, order)
    ensures DistinctIds(SortedMakers(s, round, order))
    ensures forall i :: 0 <= i < |SortedMakers(s, round, order)| ==>
      var q := SortedMakers(s, round, order)[i];
      Listed(s, q) && WithinSupply(q) && Opposed(MkTaker(s, order), q) && q.remaining > 0.0
  {
    hide SortQuotes, Filter, FindApproval, BooksBalance, Listed, Times;
    var makers := Makers(s.approvals, |s.approvals|, round, order);
    var taker := MkTaker(s, order);
    MakersDistinct(s.approvals, |s.approvals|, round, order) by { BooksUnique(s); }
    SortedDistinct(taker, makers);
    MakersBestFirst(taker, makers);
    var sorted := SortedMakers(s, round, order);
    forall i | 0 <= i < |sorted|
      ensures Listed(s, sorted[i]) && WithinSupply(sorted[i]) && Opposed(taker, sorted[i]) && sorted[i].remaining > 0.0
    {
      var q := sorted[i];
      assert q in sorted && q in makers && Selected(taker, q);
      MakersListed(s, round, order, q);
      OwnIdDiffers(s, q, order);
    }
  }

  /** An open approval of the round that offers what the order asks for, at a price it accepts, with something left on both sides. */
  predicate Offers(row: ApprovalRow, round: Round, order: Approval) {
    && row.status == Open && row.params.round == round && row.params.buy > 0.0 && row.params.sell > 0.0
    && row.params.buyAsset == order.sellAsset && row.params.sellAsset == order.buyAsset
    && Times(order.buy, row.params.buy) <= Times(order.sell, row.params.sell)
    && (if order.intent.BuyAll? then order.buy >= 1.0 else order.sell >= 1.0)
    && (if row.params.intent.BuyAll? then row.params.buy - row.filledBuy >= 1.0 else row.params.sell - row.filledSell >= 1.0)
  }

  /** What the matching engine sees of a row: its terms, what its intent still has to fill, and how early it came. */
  predicate SeenAs(row: ApprovalRow, i: nat, q: Quote) {
    var a := row.params;
    q == MatchParams(a.approvalId, a.owner, a.round, a.intent, a.buyAsset, a.buy, a.sellAsset, a.sell,
                     if a.intent.BuyAll? then a.buy - row.filledBuy else a.sell - row.filledSell, i + 1)
  }

  /** The makers tried for an order are all the rows that offer what it asks for, and no others. */
  lemma {:induction false} MakersTriedIff(s: Ledger, round: Round, order: Approval, q: Quote)
    requires order.buy > 0.0 && order.sell > 0.0
    ensures q in SortedMakers(s, round, order) <==>
      exists i :: 0 <= i < |s.approvals| && Offers(s.approvals[i], round, order) && SeenAs(s.approvals[i], i, q)
  {
    hide SortQuotes, Filter, FindApproval, Times, Makers;
    var taker, makers := MkTaker(s, order), Makers(s.approvals, |s.approvals|, round, order);
    MakersBestFirst(taker, makers);
    MakersAreRows(s.approvals, |s.approvals|, round, order);
    if q in SortedMakers(s, round, order) {
      var i :| 0 <= i < |s.approvals| && IsMaker(s.approvals[i], round, order)
        && q == MkMatch(s.approvals[i].params, RemainingOf(s.approvals[i]), i + 1);
      assert Offers(s.approvals[i], round, order) && SeenAs(s.approvals[i], i, q);
    }
    if i :| 0 <= i < |s.approvals| && Offers(s.approvals[i], round, order) && SeenAs(s.approvals[i], i, q) {
      MakersComplete(s.approvals, |s.approvals|, round, order, i);
    }
  }

  /** The makers for an order are tried cheapest first, exactly, if and only if ties of rounded prices are in order. */
  lemma {:induction false} CheapestMakersFirstIff(s: Ledger, round: Round, order: Approval)
    requires UniqueIds(s.approvals) && order.buy > 0.0 && order.sell > 0.0
    ensures CheapestFirst(SortedMakers(s, round, order))
            <==> TiesInOrder(MkTaker(s, order), Makers(s.approvals, |s.approvals|, round, order))
  {
    hide MkTaker, Filter, SortQuotes, CheapestFirst, TiesInOrder, IsMaker;
    var makers := Makers(s.approvals, |s.approvals|, round, order);
    MakersDistinct(s.approvals, |s.approvals|, round, order);
    MakersAreRows(s.approvals, |s.approvals|, round, order);
    CheapestFirstIff(MkTaker(s, order), makers);
  }

  lemma BooksUnique(s: Ledger)
    requires BooksBalance(s)
    ensures UniqueIds(s.approvals)
  {
  }

  lemma OwnIdDiffers(s: Ledger, q: Quote, order: Approval)
    requires Listed(s, q) && q.sellAsset == order.buyAsset && order.buyAsset != order.sellAsset
    requires HasApproval(s.approvals, order.approvalId)
    requires s.approvals[FindApproval(s.approvals, order.approvalId)].params == order
    ensures q.approvalId != order.approvalId
  {
    hide FindApproval;
  }

  lemma TakerWithinSupply(s: Ledger, round: Round, order: Approval)
    requires BookedWithinLimits(s.approvals) && Stored(s, round, order)
    ensures WithinSupply(MkTaker(s, order)) && Fresh(MkTaker(s, order)) == MkTaker(s, order)
  {
    hide FindApproval;
  }

  /**
   * When matching returns normally and its run is aligned, every fill of every trade is accepted,
   * and the exchange stays sound.
   */
  lemma {:induction false} OrderSettles(cfg: Config, s: Ledger, round: Round, order: Approval)
    requires Sound(s) && Conserved(s.fills) && BookedWithinLimits(s.approvals)
    requires Current(s, round) && cfg.decimalPlaces <= TOKEN_DECIMALS
    requires Stored(s, round, order) && AlignedMatching(cfg, s, round, order)
    ensures var trades := CreateTradesForApproval(cfg, s, round, order);
      trades.Success? ==>
        var after := RegisterTrades(s, trades.value);
        after.Ok() && Sound(after.ledger) && Current(after.ledger, round) && Conserved(after.ledger.fills)
  {
    hide Sound, Current, Listed, Conserved, FindApproval, BookedWithinLimits, FairRun, RunInWei, SortQuotes, Filter;
    hide WithinSupply, Opposed, Makers, OwnTrades, RegisterTrades, CreateSwaps, Stored, WholeUnits;
    var taker := MkTaker(s, order) by { StoredPositive(s, round, order); }
    var makers := Makers(s.approvals, |s.approvals|, round, order);
    var sorted := SortedMakers(s, round, order);
    var run := RunInWei(taker, sorted, cfg.decimalPlaces);
    SwapsArePositives(taker, sorted, cfg.decimalPlaces);
    if run.Success? {
      SoundParts(s);
      SortedMakersReady(s, round, order);
      TakerWithinSupply(s, round, order);
      StoredIsListed(s, round, order);
      assert forall q :: q in sorted ==> WithinSupply(q);
      RunInWeiIsFair(taker, sorted, cfg.decimalPlaces, run.value);
      VisitedAreWhole(taker, sorted, cfg.decimalPlaces, run.value);
      MakersDistinct(s.approvals, |s.approvals|, round, order) by { BooksUnique(s); }
      TradesPairedIffAligned(taker, makers, cfg.decimalPlaces, run.value);
      StoredRound(s, round, order);
      FairRunSettles(Unit(cfg.decimalPlaces), s, taker, sorted, run.value);
    }
  }

  lemma StoredPositive(s: Ledger, round: Round, order: Approval)
    requires Stored(s, round, order)
    ensures order.buy > 0.0 && order.sell > 0.0
  {
  }

  lemma StoredRound(s: Ledger, round: Round, order: Approval)
    requires Stored(s, round, order)
    ensures order.buy > 0.0 && order.sell > 0.0 && MkTaker(s, order).round == round
  {
  }

  // --- Storing the order and paying the fee ---------------------------------------------------

  /** The balance read by a backing check is the full sum, and the tables are untouched. */
  lemma {:induction false} BackingExact(s: Ledger, a: Approval)
    requires Sound(s)
    ensures var backed := ValidateBacking(s, a);
      && backed.ledger == s.(cache := backed.ledger.cache) && Sound(backed.ledger)
      && (backed.Ok() ==> a.sell <= Available(s.accounts, a.sellAsset, a.owner, a.round)
                          && IsRegistered(s.wallets, a.owner) && a.sellAsset in s.assets && a.buyAsset in s.assets)
  {
    hide Sound, Available, IsRegistered, ReadBalance;
    SoundParts(s);
    ReadBalanceExact(s, a.sellAsset, a.owner, a.round);
    ReadSound(s, a.sellAsset, a.owner, a.round);
  }

  lemma BackingSameLater(s: Ledger, a: Approval, round: Round)
    requires a.round <= round
    ensures SameLater(s, ValidateBacking(s, a).ledger, round)
  {
    hide Available, IsRegistered, AccountAt;
  }

  lemma LockSameLater(s: Ledger, a: Approval, round: Round)
    requires a.round <= round
    ensures SameLater(s, LockApproval(s, a), round)
  {
    hide Post;
    PostsSameLater(s, LockApproval(s, a), SellKey(a), NO_MOVEMENT.(locked := a.sell), round);
  }

  lemma BackingStaysCurrent(s: Ledger, a: Approval, round: Round)
    requires Current(s, round) && a.round <= round
    ensures Current(ValidateBacking(s, a).ledger, round)
  {
    hide Current, SameLater, ReadBalance, IsRegistered;
    BackingSameLater(s, a, round);
    BackingKeepsApprovals(s, a);
    StaysCurrent(s, ValidateBacking(s, a).ledger, round);
  }

  lemma BackingKeepsApprovals(s: Ledger, a: Approval)
    ensures ValidateBacking(s, a).ledger.approvals == s.approvals
  {
    hide Available, IsRegistered;
  }

  lemma LockStaysCurrent(s: Ledger, a: Approval, round: Round)
    requires Current(s, round) && a.round == round && AccountsTimely(s, a)
    ensures Current(LockApproval(s, a), round)
  {
    hide Current, SameLater, AccountsTimely, Post, PatchCache;
    LockSameLater(s, a, round);
    StillTimely(s, LockApproval(s, a), a);
    StaysCurrent(s, LockApproval(s, a), round);
  }

  /** The order and its fee, together, are covered by what their owner has free. */
  ghost predicate CoversBoth(s: Ledger, order: Approval, fee: Approval) {
    SellKey(order) == SellKey(fee) ==>
      order.sell + fee.sell <= Available(s.accounts, order.sellAsset, order.owner, order.round)
  }

  /** The ids of an order, its fee and the operator's side of the fee are new. */
  ghost predicate FreshIds(s: Ledger, order: Approval, fee: Approval, operatorApprovalId: Id) {
    && !HasApproval(s.approvals, order.approvalId)
    && !HasApproval(s.approvals, fee.approvalId)
    && !HasApproval(s.approvals, operatorApprovalId)
    && order.approvalId != fee.approvalId
    && order.approvalId != operatorApprovalId && fee.approvalId != operatorApprovalId
  }

  /** The ledger with both approvals locked. */
  function LockBoth(s: Ledger, order: Approval, fee: Approval): Ledger {
    LockApproval(LockApproval(s, order), fee)
  }

  lemma SameLaterSteps(s: Ledger, t: Ledger, u: Ledger, round: Round)
    ensures SameLater(s, s, round)
    ensures SameLater(s, t, round) && SameLater(t, u, round) ==> SameLater(s, u, round)
  {
    hide AccountAt;
  }

  /** A stored order leaves its own lock and its fee's, and a sound ledger when both are covered. */
  lemma {:induction false} InsertOrderSound(s: Ledger, round: Round, order: Approval, fee: Approval, operatorApprovalId: Id)
    requires Sound(s) && Current(s, round) && order.round == round && fee.round == round && fee.intent.SellAll?
    requires AccountsTimely(s, order) && AccountsTimely(s, fee)
    requires FreshIds(s, order, fee, operatorApprovalId) && CoversBoth(s, order, fee)
    ensures var stored := InsertOrder(s, order, fee);
      && Sound(stored.ledger) && Current(stored.ledger, round) && SameLater(s, stored.ledger, round)
      && (stored.Ok() ==>
            && OrderAmounts(order) && FeeAmounts(fee) && fee.sellAsset in s.assets
            && stored.ledger == LockBoth(s, order, fee).(cache := stored.ledger.cache))
      && (!stored.Ok() ==> stored.ledger == s.(cache := stored.ledger.cache))
  {
    hide Sound, Current, Available, FindApproval, ValidateBacking, IsRegistered, PatchCache, Post, AccountsTimely, SameLater;
    SameLaterSteps(s, s, s, round);
    if OrderAmounts(order) && FeeAmounts(fee) {
      BackingExact(s, order);
      BackingStaysCurrent(s, order, round);
      BackingSameLater(s, order, round);
      var first := ValidateBacking(s, order);
      if first.Ok() {
        BackingExact(first.ledger, fee);
        BackingStaysCurrent(first.ledger, fee, round);
        BackingSameLater(first.ledger, fee, round);
        var second := ValidateBacking(first.ledger, fee);
        SameLaterSteps(s, first.ledger, second.ledger, round);
        if second.Ok() {
          StillTimely(s, second.ledger, order);
          StillTimely(s, second.ledger, fee);
          LockBothSound(second.ledger, round, order, fee);
          SameLaterSteps(s, second.ledger, LockBoth(second.ledger, order, fee), round);
        }
      }
    }
  }

  lemma {:induction false} LockBothSound(s: Ledger, round: Round, order: Approval, fee: Approval)
    requires Sound(s) && Current(s, round) && order.round == round && fee.round == round && fee.intent.SellAll?
    requires OrderAmounts(order) && FeeAmounts(fee) && order.approvalId != fee.approvalId
    requires !HasApproval(s.approvals, order.approvalId) && !HasApproval(s.approvals, fee.approvalId)
    requires IsRegistered(s.wallets, order.owner) && IsRegistered(s.wallets, fee.owner)
    requires order.sell <= Available(s.accounts, order.sellAsset, order.owner, round)
    requires fee.sell <= Available(s.accounts, fee.sellAsset, fee.owner, round)
    requires CoversBoth(s, order, fee) && AccountsTimely(s, order) && AccountsTimely(s, fee)
    ensures !HasApproval(LockApproval(s, order).approvals, fee.approvalId)
    ensures Sound(LockBoth(s, order, fee)) && Current(LockBoth(s, order, fee), round)
    ensures SameLater(s, LockBoth(s, order, fee), round)
  {
    hide Sound, Current, Available, FindApproval, IsRegistered, PatchCache, Post, AccountsTimely, SameLater;
    LockSameLater(s, order, round);
    LockSameLater(LockApproval(s, order), fee, round);
    SameLaterSteps(s, LockApproval(s, order), LockBoth(s, order, fee), round);
    StillTimely(s, LockApproval(s, order), fee);
    LockSound(s, order);
    LockStaysCurrent(s, order, round);
    var middle := LockApproval(s, order);
    FindAfterAppend(s.approvals, ApprovalRow(order, 0.0, 0.0, Open), fee.approvalId);
    AvailableAfterPost(s.accounts, SellKey(order), NO_MOVEMENT.(locked := order.sell), fee.sellAsset, fee.owner, round);
    LockSound(middle, fee);
    LockStaysCurrent(middle, fee, round);
  }

  /** Fees are whole: a fill for exactly what a fresh fee approval says. */
  predicate FreshRow(s: Ledger, a: Approval) {
    var i := FindApproval(s.approvals, a.approvalId);
    i < |s.approvals| && s.approvals[i] == ApprovalRow(a, 0.0, 0.0, Open)
  }

  /** One side of a fee: it moves one amount one way and nothing the other way. */
  predicate OneSided(a: Approval) {
    if a.intent.BuyAll? then a.sell == 0.0 && a.buy > 0.0 else a.buy == 0.0 && a.sell > 0.0
  }

  lemma {:induction false} FeeFillSound(s: Ledger, a: Approval, round: Round)
    requires Sound(s) && Current(s, round) && a.round == round && FreshRow(s, a) && OneSided(a)
    ensures var after := AddFill(s, FeeToFill(a));
      && after.Ok() && Sound(after.ledger) && Current(after.ledger, round)
      && after.ledger.approvals
         == s.approvals[FindApproval(s.approvals, a.approvalId) := ApprovalRow(a, a.buy, a.sell, Closed)]
  {
    hide Sound, Current, FindApproval, Times, PostFill, PatchCache;
    var f := MkFill(s, a, FeeToFill(a));
    OpenIsTimely(s, FindApproval(s.approvals, a.approvalId), f);
    TimesUnits(a.sell);
    TimesUnits(a.buy);
    assert FillFits(s, f);
    FillSound(s, f);
    InsertFillStaysCurrent(s, f, round);
  }

  lemma {:induction false} FeeFillKeepsRow(s: Ledger, a: Approval, b: Approval)
    requires FreshRow(s, a) && FreshRow(s, b) && a.approvalId != b.approvalId
    ensures var approvals := s.approvals[FindApproval(s.approvals, a.approvalId) := ApprovalRow(a, a.buy, a.sell, Closed)];
      var i := FindApproval(approvals, b.approvalId);
      i == FindApproval(s.approvals, b.approvalId) && i < |approvals| && approvals[i] == ApprovalRow(b, 0.0, 0.0, Open)
  {
    hide FindApproval;
    FindAfterUpdate(s.approvals, FindApproval(s.approvals, a.approvalId), ApprovalRow(a, a.buy, a.sell, Closed), b.approvalId);
  }

  lemma FreshAfterLock(s: Ledger, a: Approval)
    requires !HasApproval(s.approvals, a.approvalId)
    ensures FreshRow(LockApproval(s, a), a)
    ensures forall b :: FreshRow(s, b) ==> FreshRow(LockApproval(s, a), b)
    ensures forall id :: id != a.approvalId && !HasApproval(s.approvals, id) ==> !HasApproval(LockApproval(s, a).approvals, id)
  {
    hide FindApproval, Post, PatchCache;
    forall id
      ensures FindApproval(s.approvals + [ApprovalRow(a, 0.0, 0.0, Open)], id)
              == if HasApproval(s.approvals, id) then FindApproval(s.approvals, id)
                 else if a.approvalId == id then |s.approvals| else |s.approvals| + 1
    {
      FindAfterAppend(s.approvals, ApprovalRow(a, 0.0, 0.0, Open), id);
    }
  }

  /** Storing the operator's side of a fee cannot fail: it offers nothing. */
  lemma {:induction false} OperatorSideStored(cfg: Config, s: Ledger, round: Round, fee: Approval, id: Id)
    requires Sound(s) && Current(s, round) && fee.round == round && IsRegistered(s.wallets, cfg.operator)
    requires fee.intent.SellAll? && FeeAmounts(fee) && fee.buyAsset == fee.sellAsset && fee.sellAsset in s.assets
    requires !HasApproval(s.approvals, id) && AccountsTimely(s, OperatorApprovalForFee(cfg, fee, id))
    ensures var operatorApproval := OperatorApprovalForFee(cfg, fee, id);
      var stored := InsertApproval(s, operatorApproval);
      && stored.Ok() && Sound(stored.ledger) && Current(stored.ledger, round)
      && stored.ledger == LockApproval(s, operatorApproval).(cache := stored.ledger.cache)
  {
    hide Sound, Current, Available, FindApproval, IsRegistered, Post, PatchCache, AccountsTimely, SameLater;
    var a := OperatorApprovalForFee(cfg, fee, id);
    BackingSameLater(s, a, round);
    StillTimely(s, ValidateBacking(s, a).ledger, a);
    SoundParts(s);
    AvailableIsNonNegative(s.accounts, SellKey(a));
    ReadBalanceExact(s, a.sellAsset, a.owner, a.round);
    BackingExact(s, a);
    BackingStaysCurrent(s, a, round);
    LockSound(ValidateBacking(s, a).ledger, a);
    LockStaysCurrent(ValidateBacking(s, a).ledger, a, round);
  }

  /** The book while a fee is being paid: only the fee's own approval may be open without a price. */
  ghost predicate BookedButFor(approvals: seq<ApprovalRow>, feeId: Id) {
    forall i :: 0 <= i < |approvals| ==>
      && approvals[i].params.buy <= MAX_AMOUNT as real && approvals[i].params.sell <= MAX_AMOUNT as real
      && (approvals[i].status.Open? && approvals[i].params.approvalId != feeId ==>
            approvals[i].params.buy > 0.0 && approvals[i].params.sell > 0.0)
  }

  lemma {:induction false} PaidFeesAreBooked(s: Ledger, fee: Approval, other: Approval)
    requires UniqueIds(s.approvals) && BookedButFor(s.approvals, fee.approvalId)
    requires FreshRow(s, fee) && !HasApproval(s.approvals, other.approvalId)
    requires other.buy <= MAX_AMOUNT as real && other.sell <= MAX_AMOUNT as real
    ensures var i := FindApproval(s.approvals, fee.approvalId);
      BookedWithinLimits((s.approvals + [ApprovalRow(other, 0.0, 0.0, Open)])
                           [i := ApprovalRow(fee, fee.buy, fee.sell, Closed)]
                           [|s.approvals| := ApprovalRow(other, other.buy, other.sell, Closed)])
  {
    hide FindApproval;
    var i := FindApproval(s.approvals, fee.approvalId);
    assert forall j :: 0 <= j < |s.approvals| && j != i ==> s.approvals[j].params.approvalId != fee.approvalId;
  }

  /** A fee approval that the checks let through: exact, one-sided, in one asset. */
  predicate ProperFee(cfg: Config, s: Ledger, round: Round, fee: Approval) {
    && fee.intent.SellAll? && FeeAmounts(fee) && fee.buyAsset == fee.sellAsset && fee.sellAsset in s.assets
    && fee.round == round
  }

  /** Both sides of a fee are filled in full, whoever pays, and the order itself is left alone. */
  lemma {:induction false} FeeIsPaid(cfg: Config, s: Ledger, round: Round, order: Approval, fee: Approval, id: Id)
    requires Sound(s) && Current(s, round) && IsRegistered(s.wallets, cfg.operator)
    requires Conserved(s.fills) && BookedButFor(s.approvals, fee.approvalId)
    requires ProperFee(cfg, s, round, fee) && FreshRow(s, fee) && FreshRow(s, order)
    requires !HasApproval(s.approvals, id) && order.approvalId != fee.approvalId
    requires AccountsTimely(s, OperatorApprovalForFee(cfg, fee, id))
    ensures var paid := ProcessFeeApproval(cfg, s, fee, id);
      && paid.Ok() && Sound(paid.ledger) && Current(paid.ledger, round) && Conserved(paid.ledger.fills)
      && BookedWithinLimits(paid.ledger.approvals) && FreshRow(paid.ledger, order)
      && paid.ledger.wallets == s.wallets
  {
    hide Sound, Current, FindApproval, IsRegistered, Conserved, InsertApproval, AddFill, BookedWithinLimits, BookedButFor, UniqueIds;
    hide Post, PatchCache, AccountsTimely;
    var other := OperatorApprovalForFee(cfg, fee, id);
    OperatorSideStored(cfg, s, round, fee, id);
    FreshAfterLock(s, other);
    var stored := InsertApproval(s, other).ledger;
    assert FreshRow(stored, fee) && FreshRow(stored, other) && FreshRow(stored, order);
    FeeFillSound(stored, fee, round);
    FeeFillKeepsRow(stored, fee, other);
    FeeFillKeepsRow(stored, fee, order);
    var half := AddFill(stored, FeeToFill(fee)).ledger;
    FeeFillSound(half, other, round);
    FeeFillKeepsRow(half, other, order);
    TradeConserves(stored, FeeToFill(fee), FeeToFill(other));
    FindAfterAppend(s.approvals, ApprovalRow(other, 0.0, 0.0, Open), fee.approvalId);
    FindAfterAppend(s.approvals, ApprovalRow(other, 0.0, 0.0, Open), id);
    PaidFeesAreBooked(s, fee, other) by { SoundParts(s); BooksUnique(s); }
    WalletsThroughFills(stored, FeeToFill(fee), FeeToFill(other));
  }

  /** A paid fee is two fills: the client gives the fee for nothing, and the operator takes it. */
  lemma {:induction false} FeeFills(cfg: Config, s: Ledger, round: Round, fee: Approval, id: Id)
    requires Sound(s) && Current(s, round) && IsRegistered(s.wallets, cfg.operator)
    requires ProperFee(cfg, s, round, fee) && FreshRow(s, fee) && !HasApproval(s.approvals, id)
    requires AccountsTimely(s, OperatorApprovalForFee(cfg, fee, id))
    ensures ProcessFeeApproval(cfg, s, fee, id).ledger.fills
            == s.fills
               + [Fill(|s.fills| + 1, fee.approvalId, round, fee.buyAsset, 0.0, fee.sellAsset, fee.sell, fee.owner, fee.instanceId),
                  Fill(|s.fills| + 2, id, round, fee.sellAsset, fee.sell, fee.buyAsset, 0.0, cfg.operator, fee.instanceId)]
  {
    hide Sound, Current, FindApproval, IsRegistered, InsertApproval, InsertFill, Post, PatchCache, AccountsTimely;
    var other := OperatorApprovalForFee(cfg, fee, id);
    OperatorSideStored(cfg, s, round, fee, id);
    FreshAfterLock(s, other);
    var stored := InsertApproval(s, other).ledger;
    FeeFillSound(stored, fee, round);
    FeeFillKeepsRow(stored, fee, other);
    var half := AddFill(stored, FeeToFill(fee)).ledger;
    FeeFillSound(half, other, round);
    AddedFill(stored, FeeToFill(fee));
    AddedFill(half, FeeToFill(other));
  }

  lemma AddedFill(s: Ledger, params: FillParams)
    requires AddFill(s, params).Ok()
    ensures HasApproval(s.approvals, params.approvalId)
    ensures AddFill(s, params).ledger.fills
            == s.fills + [MkFill(s, s.approvals[FindApproval(s.approvals, params.approvalId)].params, params)]
  {
    hide FindApproval, PostFill, PatchCache;
  }

  lemma WalletsThroughFills(s: Ledger, first: FillParams, second: FillParams)
    ensures AddFills(s, first, second).ledger.wallets == s.wallets
  {
    hide FindApproval, ValidateFill, PostFill, PatchCache;
  }

  lemma {:induction false} TradesKeepBook(s: Ledger, trades: seq<Trade>)
    requires BookedWithinLimits(s.approvals)
    ensures BookedWithinLimits(RegisterTrades(s, trades).ledger.approvals)
    ensures RegisterTrades(s, trades).ledger.wallets == s.wallets
    decreases |trades|
  {
    hide AddFills, BookedWithinLimits;
    if trades != [] {
      var (takerFill, makerFill) := CreateFillParams(trades[0]);
      WalletsThroughFills(s, takerFill, makerFill);
      FillsKeepBook(s, takerFill, makerFill);
      TradesKeepBook(AddFills(s, takerFill, makerFill).ledger, trades[1..]);
    }
  }

  lemma FillsKeepBook(s: Ledger, first: FillParams, second: FillParams)
    requires BookedWithinLimits(s.approvals)
    ensures BookedWithinLimits(AddFills(s, first, second).ledger.approvals)
  {
    hide AddFill, BookedWithinLimits;
    FillKeepsBook(s, first);
    FillKeepsBook(AddFill(s, first).ledger, second);
  }

  lemma FillKeepsBook(s: Ledger, params: FillParams)
    requires BookedWithinLimits(s.approvals)
    ensures BookedWithinLimits(AddFill(s, params).ledger.approvals)
  {
    hide FindApproval, PostFill, PatchCache;
  }

  // --- The whole order ------------------------------------------------------------------------

  /** The ledger in which an accepted order is matched. */
  function ReadyToMatch(cfg: Config, s: Ledger, order: Approval, fee: Approval, operatorApprovalId: Id): Ledger {
    ProcessFeeApproval(cfg, InsertOrder(s, order, fee).ledger, fee, operatorApprovalId).ledger
  }

  /** The accounts that an order, its fee and the operator's side of the fee touch. */
  ghost predicate AllTimely(cfg: Config, s: Ledger, order: Approval, fee: Approval, operatorApprovalId: Id) {
    && AccountsTimely(s, order) && AccountsTimely(s, fee)
    && AccountsTimely(s, OperatorApprovalForFee(cfg, fee, operatorApprovalId))
  }

  /** What a well-behaved client and operator guarantee before an order is added. */
  ghost predicate OrderlyOrder(cfg: Config, s: Ledger, round: Round, order: Approval, fee: Approval, operatorApprovalId: Id) {
    && Current(s, round) && cfg.decimalPlaces <= TOKEN_DECIMALS
    && AllTimely(cfg, s, order, fee, operatorApprovalId)
    && order.buyAsset != order.sellAsset
    && FreshIds(s, order, fee, operatorApprovalId)
    && CoversBoth(s, order, fee)
    && (CheckOrder(cfg, s, round, order, fee).None? && InsertOrder(s, order, fee).Ok() ==>
          AlignedMatching(cfg, ReadyToMatch(cfg, s, order, fee, operatorApprovalId), round, order))
  }

  lemma {:induction false} OrderIsReady(cfg: Config, s: Ledger, round: Round, order: Approval, fee: Approval, id: Id)
    requires ExchangeSound(cfg, s) && Current(s, round) && FreshIds(s, order, fee, id) && CoversBoth(s, order, fee)
    requires CheckOrder(cfg, s, round, order, fee).None? && InsertOrder(s, order, fee).Ok()
    requires order.buyAsset != order.sellAsset && AllTimely(cfg, s, order, fee, id)
    ensures var ready := ReadyToMatch(cfg, s, order, fee, id);
      && ProcessFeeApproval(cfg, InsertOrder(s, order, fee).ledger, fee, id).Ok()
      && Sound(ready) && Current(ready, round) && Conserved(ready.fills) && BookedWithinLimits(ready.approvals)
      && Stored(ready, round, order) && ready.wallets == s.wallets
  {
    hide Sound, Current, FindApproval, IsRegistered, Conserved, InsertOrder, ProcessFeeApproval, Available, Post, PatchCache;
    hide BookedWithinLimits, BookedButFor, AccountsTimely, SameLater;
    InsertOrderSound(s, round, order, fee, id);
    var stored := InsertOrder(s, order, fee).ledger;
    StillTimely(s, stored, OperatorApprovalForFee(cfg, fee, id));
    FreshAfterLock(s, order);
    FreshAfterLock(LockApproval(s, order), fee);
    assert FreshRow(stored, order) && FreshRow(stored, fee) && !HasApproval(stored.approvals, id);
    assert BookedButFor(stored.approvals, fee.approvalId) by { BookTwoMore(s.approvals, order, fee); }
    FeeIsPaid(cfg, stored, round, order, fee, id);
  }

  lemma BookTwoMore(approvals: seq<ApprovalRow>, order: Approval, fee: Approval)
    requires BookedWithinLimits(approvals) && OrderAmounts(order) && FeeAmounts(fee)
    ensures BookedButFor(approvals + [ApprovalRow(order, 0.0, 0.0, Open)] + [ApprovalRow(fee, 0.0, 0.0, Open)], fee.approvalId)
  {
  }

  /**
   * An orderly order either leaves no trace beyond what was remembered, or pays its fee in full and
   * settles every trade it makes; either way the exchange stays sound.
   */
  lemma {:induction false} AddOrderSound(cfg: Config, s: Ledger, round: Round, order: Approval, fee: Approval, id: Id)
    requires ExchangeSound(cfg, s) && OrderlyOrder(cfg, s, round, order, fee, id)
    ensures var result := AddOrder(cfg, s, round, round, order, fee, id);
      && ExchangeSound(cfg, result.ledger) && Current(result.ledger, round)
      && (result.error.None? <==> CheckOrder(cfg, s, round, order, fee).None? && InsertOrder(s, order, fee).Ok())
      && (result.error.Some? ==> result.ledger == s.(cache := result.ledger.cache) && result.trades == [])
      && (result.error.None? ==>
            var matched := CreateTradesForApproval(cfg, ReadyToMatch(cfg, s, order, fee, id), round, order);
            result.trades == if matched.Success? then matched.value else [])
  {
    hide Sound, Current, FindApproval, IsRegistered, Conserved, InsertOrder, ProcessFeeApproval, BookedWithinLimits;
    hide CreateTradesForApproval, RegisterTrades, AlignedMatching, FreshIds, CoversBoth, Stored, AccountsTimely, SameLater;
    if CheckOrder(cfg, s, round, order, fee).None? {
      InsertOrderSound(s, round, order, fee, id);
      if InsertOrder(s, order, fee).Ok() {
        OrderIsReady(cfg, s, round, order, fee, id);
        var ready := ReadyToMatch(cfg, s, order, fee, id);
        OrderSettles(cfg, ready, round, order);
        var trades := CreateTradesForApproval(cfg, ready, round, order);
        if trades.Success? {
          TradesKeepBook(ready, trades.value);
        }
      } else {
        SameTables(s, InsertOrder(s, order, fee).ledger);
      }
    }
  }

  lemma SameTables(s: Ledger, after: Ledger)
    requires after == s.(cache := after.cache)
    ensures after.fills == s.fills && after.approvals == s.approvals && after.wallets == s.wallets
  {
  }
}
