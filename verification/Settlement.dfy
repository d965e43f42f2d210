// Trades settle in full: every fill of an aligned run is accepted by the ledger.
module Settlement {
  import opened BasicTypes
  import opened BigNumbers
  import opened Sums
  import opened Matching
  import opened MatchingProofs
  import opened MatchingRuns
  import opened MatchingFacts
  import opened Ledgers
  import opened LedgerBalances
  import opened LedgerBooks
  import opened LedgerSound
  import opened Exchanges

  /** The accounts that an approval touches have early deposits at most after its round, and no later balance remembered. */
  ghost predicate AccountsTimely(s: Ledger, a: Approval) {
    && LaterDepositsOnly(s.accounts, a.sellAsset, a.owner, a.round)
    && NotCachedLater(s.cache, a.sellAsset, a.owner, a.round)
    && NotCachedLater(s.cache, a.buyAsset, a.owner, a.round)
  }

  /** So do the accounts of every open approval of `round`. */
  ghost predicate Current(s: Ledger, round: Round) {
    forall i :: 0 <= i < |s.approvals| && s.approvals[i].status.Open? && s.approvals[i].params.round == round ==>
      AccountsTimely(s, s.approvals[i].params)
  }

  /** Rows after `round` are the same, and no balance after `round` is newly remembered. */
  ghost predicate SameLater(s: Ledger, t: Ledger, round: Round) {
    && (forall k: Key :: k.round > round ==> AccountAt(t.accounts, k) == AccountAt(s.accounts, k))
    && (forall key :: key in t.cache && t.cache[key].round > round ==> key in s.cache && s.cache[key].round > round)
  }

  lemma StillTimely(s: Ledger, t: Ledger, a: Approval)
    requires SameLater(s, t, a.round) && AccountsTimely(s, a)
    ensures AccountsTimely(t, a)
  {
    hide AccountAt, DepositsOnly;
    assert forall r: Round :: r > a.round ==>
      AccountAt(t.accounts, Key(r, a.sellAsset, a.owner)) == AccountAt(s.accounts, Key(r, a.sellAsset, a.owner));
  }

  /** Approvals that are open stay timely while nothing later changes and no untimely one is added. */
  lemma {:induction false} StaysCurrent(s: Ledger, t: Ledger, round: Round)
    requires Current(s, round) && SameLater(s, t, round)
    requires |s.approvals| <= |t.approvals|
    requires forall i :: 0 <= i < |s.approvals| ==>
      t.approvals[i].params == s.approvals[i].params && (t.approvals[i].status.Open? ==> s.approvals[i].status.Open?)
    requires forall i :: |s.approvals| <= i < |t.approvals| && t.approvals[i].params.round == round ==>
      AccountsTimely(t, t.approvals[i].params)
    ensures Current(t, round)
  {
    hide AccountsTimely, SameLater;
    forall i | 0 <= i < |s.approvals| && t.approvals[i].status.Open? && t.approvals[i].params.round == round
      ensures AccountsTimely(t, t.approvals[i].params)
    {
      StillTimely(s, t, s.approvals[i].params);
    }
  }

  /** The ledger holds the quoted approval, with exactly the quoted remainder, open if anything remains. */
  predicate Listed(s: Ledger, q: Quote) {
    var i := FindApproval(s.approvals, q.approvalId);
    && i < |s.approvals|
    && var row := s.approvals[i];
       && q == MatchParams(row.params.approvalId, row.params.owner, row.params.round, row.params.intent,
                           row.params.buyAsset, row.params.buy, row.params.sellAsset, row.params.sell,
                           RemainingOf(row), q.priority)
       && (q.remaining > 0.0 ==> row.status.Open?)
  }

  /** Amounts that a listed quote may be filled with. */
  predicate Acceptable(q: Quote, buy: Amount, sell: Amount) {
    && buy > 0.0 && sell > 0.0
    && Times(sell, q.buy) <= Times(q.sell, buy)
    && (if q.intent.BuyAll? then buy else sell) <= q.remaining
  }

  function Reduced(q: Quote, buy: Amount, sell: Amount): Quote {
    q.(remaining := q.remaining - if q.intent.BuyAll? then buy else sell)
  }

  lemma OpenIsTimely(s: Ledger, i: nat, f: Fill)
    requires Current(s, f.round) && i < |s.approvals| && s.approvals[i].status.Open? && Backs(s.approvals[i].params, f)
    ensures Timely(s, f)
  {
    assert AccountsTimely(s, s.approvals[i].params);
  }

  lemma {:induction false} PostsSameLater(s: Ledger, t: Ledger, k: Key, d: Account, round: Round)
    requires t.accounts == Post(s.accounts, k, d) && k.round <= round
    requires forall key :: key in t.cache && t.cache[key].round > round ==> key in s.cache && s.cache[key].round > round
    ensures SameLater(s, t, round)
  {
    forall other: Key | other.round > round
      ensures AccountAt(t.accounts, other) == AccountAt(s.accounts, other)
    {
      AccountAfterPost(s.accounts, k, d, other);
    }
  }

  lemma {:induction false} InsertFillSameLater(s: Ledger, f: Fill, round: Round)
    requires f.round <= round
    ensures SameLater(s, InsertFill(s, f).ledger, round)
  {
    hide FindApproval, ValidateFill, Post;
    if InsertFill(s, f).Ok() {
      var sold := Key(f.round, f.sellAsset, f.clientAddress);
      var middle := s.(accounts := Post(s.accounts, sold, NO_MOVEMENT.(sold := f.sell, locked := -f.sell)));
      PostsSameLater(s, middle, sold, NO_MOVEMENT.(sold := f.sell, locked := -f.sell), round);
      PostsSameLater(middle, InsertFill(s, f).ledger, Key(f.round, f.buyAsset, f.clientAddress), NO_MOVEMENT.(bought := f.buy), round);
    }
  }

  lemma {:induction false} InsertFillStaysCurrent(s: Ledger, f: Fill, round: Round)
    requires Current(s, round) && f.round <= round
    ensures Current(InsertFill(s, f).ledger, round)
  {
    hide FindApproval, PostFill, PatchCache, Current, SameLater;
    InsertFillSameLater(s, f, round);
    StaysCurrent(s, InsertFill(s, f).ledger, round);
  }

  lemma {:induction false} ListedFillFits(s: Ledger, q: Quote, buy: Amount, sell: Amount)
    requires Listed(s, q) && q.remaining > 0.0 && Acceptable(q, buy, sell)
    ensures var i := FindApproval(s.approvals, q.approvalId);
      && i < |s.approvals| && s.approvals[i].status.Open? && s.approvals[i].params.round == q.round
      && FillFits(s, MkFill(s, s.approvals[i].params, FillParams(q.approvalId, q.round, buy, sell)))
  {
    hide FindApproval, Times;
  }

  /** Filling one listed quote: accepted, sound, and only that quote changes. */
  lemma {:induction false} FillListed(s: Ledger, q: Quote, buy: Amount, sell: Amount)
    requires Sound(s) && Current(s, q.round)
    requires Listed(s, q) && q.remaining > 0.0 && Acceptable(q, buy, sell)
    ensures var after := AddFill(s, FillParams(q.approvalId, q.round, buy, sell));
      && after.Ok() && Sound(after.ledger) && Current(after.ledger, q.round)
      && Listed(after.ledger, Reduced(q, buy, sell))
      && (forall other: Quote :: Listed(s, other) && other.approvalId != q.approvalId ==> Listed(after.ledger, other))
  {
    hide FindApproval, Times, Sound, FillFits, Current, Listed;
    var params := FillParams(q.approvalId, q.round, buy, sell);
    ListedFillFits(s, q, buy, sell);
    var i := FindApproval(s.approvals, q.approvalId);
    var f := MkFill(s, s.approvals[i].params, params);
    OpenIsTimely(s, i, f);
    FillSound(s, f);
    InsertFillStaysCurrent(s, f, q.round);
    FillKeepsListed(s, q, f);
  }

  lemma {:induction false} FillKeepsListed(s: Ledger, q: Quote, f: Fill)
    requires Listed(s, q) && f.approvalId == q.approvalId && InsertFill(s, f).Ok()
    ensures Listed(InsertFill(s, f).ledger, Reduced(q, f.buy, f.sell))
    ensures forall other: Quote :: Listed(s, other) && other.approvalId != q.approvalId
              ==> Listed(InsertFill(s, f).ledger, other)
  {
    hide FindApproval, Times;
    var i := FindApproval(s.approvals, q.approvalId);
    var row := FillRow(s.approvals[i], f.buy, f.sell);
    var after := InsertFill(s, f).ledger;
    assert after.approvals == s.approvals[i := row];
    FindAfterUpdate(s.approvals, i, row, q.approvalId);
    forall other: Quote | Listed(s, other) && other.approvalId != q.approvalId
      ensures Listed(after, other)
    {
      FindAfterUpdate(s.approvals, i, row, other.approvalId);
    }
  }

  // --- One trade ------------------------------------------------------------------------------

  /** Taker and maker want opposite sides of one market, in one round. */
  predicate Opposed(left: Quote, right: Quote) {
    && left.buyAsset == right.sellAsset && left.sellAsset == right.buyAsset
    && left.round == right.round && left.approvalId != right.approvalId
  }

  /** Both fills of a fair swap are accepted, and the taker goes on with what is left. */
  lemma {:induction false} FairTradeSettles(u: Amount, s: Ledger, left: Quote, right: Quote, swap: Swap)
    requires Sound(s) && Current(s, left.round) && Opposed(left, right)
    requires Listed(s, left) && Listed(s, right) && left.remaining > 0.0 && right.remaining > 0.0
    requires u > 0.0 && WholeUnits(right.remaining, u) && FairSwap(u, left, right, swap)
    ensures var (takerFill, makerFill) := CreateFillParams(MkTrade(left, right, swap));
      var after := AddFills(s, takerFill, makerFill);
      && after.Ok() && Sound(after.ledger) && Current(after.ledger, left.round)
      && Listed(after.ledger, After(left, swap))
      && (forall other: Quote :: Listed(s, other) && other.approvalId != left.approvalId && other.approvalId != right.approvalId
            ==> Listed(after.ledger, other))
  {
    hide Sound, Current, Listed, Times, WholeUnits, AtMakerPrice, AddFill, ExhaustsMaker;
    MakerRoom(u, left, right, swap);
    TimesCommutes(swap.fromLeft, right.sell);
    assert Acceptable(left, swap.fromRight, swap.fromLeft);
    FillListed(s, left, swap.fromRight, swap.fromLeft);
    var middle := AddFill(s, FillParams(left.approvalId, left.round, swap.fromRight, swap.fromLeft)).ledger;
    assert Acceptable(right, swap.fromLeft, swap.fromRight);
    FillListed(middle, right, swap.fromLeft, swap.fromRight);
    assert Reduced(left, swap.fromRight, swap.fromLeft) == After(left, swap);
  }

  // --- Conservation ---------------------------------------------------------------------------

  function BoughtIn(round: Round, asset: Address): Fill -> Amount {
    (f: Fill) => if f.round == round && f.buyAsset == asset then f.buy else 0.0
  }

  function SoldIn(round: Round, asset: Address): Fill -> Amount {
    (f: Fill) => if f.round == round && f.sellAsset == asset then f.sell else 0.0
  }

  /** In every round, over all wallets, as much of each asset is bought as is sold. */
  ghost predicate Conserved(fills: seq<Fill>) {
    forall round: Round, asset: Address :: SumBy(fills, BoughtIn(round, asset)) == SumBy(fills, SoldIn(round, asset))
  }

  /** Two fills that exchange the same amounts in opposite directions. */
  predicate Mirrored(f: Fill, g: Fill) {
    && f.round == g.round
    && f.buyAsset == g.sellAsset && f.sellAsset == g.buyAsset
    && f.buy == g.sell && f.sell == g.buy
  }

  lemma {:induction false} MirroredPairConserves(fills: seq<Fill>, f: Fill, g: Fill)
    requires Conserved(fills) && Mirrored(f, g)
    ensures Conserved(fills + [f] + [g])
  {
    forall round: Round, asset: Address
      ensures SumBy(fills + [f] + [g], BoughtIn(round, asset)) == SumBy(fills + [f] + [g], SoldIn(round, asset))
    {
      assert SumBy(fills, BoughtIn(round, asset)) == SumBy(fills, SoldIn(round, asset));
      SumAppend(fills, f, BoughtIn(round, asset));
      SumAppend(fills, f, SoldIn(round, asset));
      SumAppend(fills + [f], g, BoughtIn(round, asset));
      SumAppend(fills + [f], g, SoldIn(round, asset));
    }
  }

  lemma AddFillAppends(s: Ledger, params: FillParams)
    requires AddFill(s, params).Ok()
    ensures var i := FindApproval(s.approvals, params.approvalId);
      i < |s.approvals| && AddFill(s, params).ledger.fills == s.fills + [MkFill(s, s.approvals[i].params, params)]
    ensures forall id :: HasApproval(s.approvals, id) ==>
      var i := FindApproval(s.approvals, id);
      var after := AddFill(s, params).ledger.approvals;
      FindApproval(after, id) == i && i < |after| && after[i].params == s.approvals[i].params
  {
    hide FindApproval, PostFill, PatchCache;
    var i := FindApproval(s.approvals, params.approvalId);
    forall id | HasApproval(s.approvals, id)
      ensures FindApproval(AddFill(s, params).ledger.approvals, id) == FindApproval(s.approvals, id)
    {
      FindAfterUpdate(s.approvals, i, FillRow(s.approvals[i], params.buy, params.sell), id);
    }
  }

  /** The two fills of a trade between opposed approvals leave no surplus of either asset. */
  lemma {:induction false} TradeConserves(s: Ledger, first: FillParams, second: FillParams)
    requires Conserved(s.fills) && AddFills(s, first, second).Ok()
    requires HasApproval(s.approvals, first.approvalId) && HasApproval(s.approvals, second.approvalId)
    requires var a, b := s.approvals[FindApproval(s.approvals, first.approvalId)].params,
                         s.approvals[FindApproval(s.approvals, second.approvalId)].params;
      a.buyAsset == b.sellAsset && a.sellAsset == b.buyAsset
    requires first.round == second.round && first.buy == second.sell && first.sell == second.buy
    ensures Conserved(AddFills(s, first, second).ledger.fills)
  {
    hide FindApproval, AddFill, Conserved;
    AddFillAppends(s, first);
    var middle := AddFill(s, first).ledger;
    AddFillAppends(middle, second);
    MirroredPairConserves(s.fills, middle.fills[|s.fills|], AddFill(middle, second).ledger.fills[|s.fills| + 1]);
    assert AddFills(s, first, second).ledger.fills
           == s.fills + [middle.fills[|s.fills|]] + [AddFill(middle, second).ledger.fills[|s.fills| + 1]];
  }

  lemma {:induction false} ListedTradeConserves(s: Ledger, left: Quote, right: Quote, swap: Swap)
    requires Conserved(s.fills) && Listed(s, left) && Listed(s, right) && Opposed(left, right)
    requires var (takerFill, makerFill) := CreateFillParams(MkTrade(left, right, swap));
      AddFills(s, takerFill, makerFill).Ok()
    ensures var (takerFill, makerFill) := CreateFillParams(MkTrade(left, right, swap));
      Conserved(AddFills(s, takerFill, makerFill).ledger.fills)
  {
    hide FindApproval, AddFills, Conserved;
    var (takerFill, makerFill) := CreateFillParams(MkTrade(left, right, swap));
    TradeConserves(s, takerFill, makerFill);
  }

  // --- A whole run ----------------------------------------------------------------------------

  /**
   * Every fill of every trade that a fair run makes with its own makers is accepted: no trade is
   * half-applied, and the ledger stays sound and conserving.
   */
  lemma {:induction false} FairRunSettles(u: Amount, s: Ledger, left: Quote, rights: seq<Quote>, raw: seq<Swap>)
    requires Sound(s) && Current(s, left.round) && Conserved(s.fills)
    requires Listed(s, left)
    requires forall i :: 0 <= i < |rights| ==>
      Listed(s, rights[i]) && Opposed(left, rights[i]) && rights[i].remaining > 0.0
    requires DistinctIds(rights)
    requires |raw| <= |rights|
    requires u > 0.0 && forall i :: 0 <= i < |raw| ==> WholeUnits(rights[i].remaining, u)
    requires FairRun(u, left, rights, raw)
    ensures var after := RegisterTrades(s, OwnTrades(left, raw, rights));
      after.Ok() && Sound(after.ledger) && Current(after.ledger, left.round) && Conserved(after.ledger.fills)
    decreases |raw|
  {
    hide Sound, Current, Listed, FairSwap, WholeUnits, AddFills, Conserved;
    if raw != [] {
      var right, swap := rights[0], raw[0];
      if Positive(swap) {
        var trade := MkTrade(left, right, swap);
        var (takerFill, makerFill) := CreateFillParams(trade);
        FairTradeSettles(u, s, left, right, swap);
        ListedTradeConserves(s, left, right, swap);
        var after := AddFills(s, takerFill, makerFill).ledger;
        assert forall i :: 0 < i < |rights| ==> rights[i].approvalId != right.approvalId;
        FairRunSettles(u, after, After(left, swap), rights[1..], raw[1..]);
        SameTrades(left, swap, raw[1..], rights[1..]);
        var trades := OwnTrades(left, raw, rights);
        assert trades[0] == trade && trades[1..] == OwnTrades(left, raw[1..], rights[1..]);
      } else {
        ZeroSwap(u, left, right, swap);
        assert After(left, swap) == left;
        FairRunSettles(u, s, left, rights[1..], raw[1..]);
        var trades := OwnTrades(left, raw[1..], rights[1..]);
        assert OwnTrades(left, raw, rights) == [] + trades == trades;
      }
    }
  }

  lemma ZeroSwap(u: Amount, left: Quote, right: Quote, swap: Swap)
    requires u > 0.0 && !Positive(swap) && (swap == NO_SWAP || FairSwap(u, left, right, swap))
    ensures swap == NO_SWAP
  {
    hide AtMakerPrice, WithinTakerPrice, WithinRemainders, ExhaustsMaker, WholeUnits;
  }

  /** Trades name the taker, not its remainder. */
  lemma {:induction false} SameTrades(left: Quote, swap: Swap, raw: seq<Swap>, rights: seq<Quote>)
    requires |raw| <= |rights|
    ensures OwnTrades(After(left, swap), raw, rights) == OwnTrades(left, raw, rights)
  {
    if raw != [] {
      SameTrades(left, swap, raw[1..], rights[1..]);
    }
  }
}
