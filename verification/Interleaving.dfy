// What the match lock does not cover: orders are cancelled without it, so the maker or the taker of a
// trade can be gone before its settlement, or between its two fills
// (src/server/exchange/Exchange.ts, cancelOrder and addOrder).
module Interleavings {
  import opened BasicTypes
  import opened BigNumbers
  import opened Sums
  import opened Matching
  import opened MatchingFacts
  import opened MatchingProofs
  import opened Ledgers
  import opened LedgerBooks
  import opened LedgerSound
  import opened Exchanges
  import opened Settlement

  /** The ledger holds the quoted approval with the quoted remainder, whether or not it is still open. */
  predicate Booked(s: Ledger, q: Quote) {
    var i := FindApproval(s.approvals, q.approvalId);
    && i < |s.approvals|
    && var row := s.approvals[i];
       q == MatchParams(row.params.approvalId, row.params.owner, row.params.round, row.params.intent,
                        row.params.buyAsset, row.params.buy, row.params.sellAsset, row.params.sell,
                        RemainingOf(row), q.priority)
  }

  predicate StillOpen(s: Ledger, id: Id) {
    var i := FindApproval(s.approvals, id);
    i < |s.approvals| && s.approvals[i].status.Open?
  }

  lemma BookedAndOpenIsListed(s: Ledger, q: Quote)
    requires Booked(s, q) && StillOpen(s, q.approvalId)
    ensures Listed(s, q)
  {
    hide FindApproval;
  }

  lemma {:induction false} ClosedRefusesFill(s: Ledger, params: FillParams)
    requires !StillOpen(s, params.approvalId)
    ensures !AddFill(s, params).Ok() && AddFill(s, params).ledger == s
  {
    hide FindApproval, HasFill, PostFill, PatchCache;
  }

  /** Filling one approval opens no other. */
  lemma {:induction false} FillOpensNone(s: Ledger, params: FillParams, other: Id)
    requires AddFill(s, params).Ok() && other != params.approvalId
    requires HasApproval(s.approvals, other) && !StillOpen(s, other)
    ensures !StillOpen(AddFill(s, params).ledger, other)
  {
    hide FindApproval, HasFill, PostFill, PatchCache;
    var i := FindApproval(s.approvals, params.approvalId);
    FindAfterUpdate(s.approvals, i, FillRow(s.approvals[i], params.buy, params.sell), other);
  }

  /** A single purchase without its counterpart leaves more bought than sold. */
  lemma {:induction false} LoneFillBreaksConservation(fills: seq<Fill>, f: Fill)
    requires Conserved(fills) && f.buy > 0.0 && f.buyAsset != f.sellAsset
    ensures !Conserved(fills + [f])
  {
    SumAppend(fills, f, BoughtIn(f.round, f.buyAsset));
    SumAppend(fills, f, SoldIn(f.round, f.buyAsset));
    assert SumBy(fills, BoughtIn(f.round, f.buyAsset)) == SumBy(fills, SoldIn(f.round, f.buyAsset));
    assert SumBy(fills + [f], BoughtIn(f.round, f.buyAsset)) != SumBy(fills + [f], SoldIn(f.round, f.buyAsset));
  }

  lemma {:induction false} OpenRefusesNothing(s: Ledger, q: Quote, buy: Amount, sell: Amount)
    requires Sound(s) && Current(s, q.round) && Booked(s, q) && q.remaining > 0.0 && Acceptable(q, buy, sell)
    ensures AddFill(s, FillParams(q.approvalId, q.round, buy, sell)).Ok() <==> StillOpen(s, q.approvalId)
  {
    hide Sound, Current, AddFill, StillOpen, Listed, Acceptable, Booked;
    if StillOpen(s, q.approvalId) {
      BookedAndOpenIsListed(s, q);
      FillListed(s, q, buy, sell);
    } else {
      ClosedRefusesFill(s, FillParams(q.approvalId, q.round, buy, sell));
    }
  }

  /** The taker's fill has gone through when the maker's is refused. */
  lemma {:induction false} HalfTrade(s: Ledger, left: Quote, right: Quote, swap: Swap)
    requires Sound(s) && Current(s, left.round) && Opposed(left, right) && left.buyAsset != left.sellAsset
    requires Listed(s, left) && left.remaining > 0.0 && Acceptable(left, swap.fromRight, swap.fromLeft)
    requires HasApproval(s.approvals, right.approvalId) && !StillOpen(s, right.approvalId) && Conserved(s.fills)
    ensures var (takerFill, makerFill) := CreateFillParams(MkTrade(left, right, swap));
      var after := AddFills(s, takerFill, makerFill);
      !after.Ok() && !Conserved(after.ledger.fills)
  {
    hide Sound, Current, AddFill, Conserved, StillOpen, FindApproval, Times;
    var (takerFill, makerFill) := CreateFillParams(MkTrade(left, right, swap));
    FillListed(s, left, swap.fromRight, swap.fromLeft);
    FillOpensNone(s, takerFill, right.approvalId);
    ClosedRefusesFill(AddFill(s, takerFill).ledger, makerFill);
    AddFillAppends(s, takerFill);
    LoneFillBreaksConservation(s.fills, MkFill(s, s.approvals[FindApproval(s.approvals, left.approvalId)].params, takerFill));
  }

  lemma FairIsAcceptable(u: Amount, left: Quote, right: Quote, swap: Swap)
    requires u > 0.0 && WholeUnits(right.remaining, u) && FairSwap(u, left, right, swap)
    ensures Acceptable(left, swap.fromRight, swap.fromLeft) && Acceptable(right, swap.fromLeft, swap.fromRight)
    ensures swap.fromRight > 0.0
  {
    hide Times, WholeUnits, AtMakerPrice, ExhaustsMaker;
    MakerRoom(u, left, right, swap);
    TimesCommutes(swap.fromLeft, left.buy);
    TimesCommutes(swap.fromLeft, right.sell);
  }

  /**
   * A fair trade, settled some time after it was matched, is applied in full if and only if taker and
   * maker are both still open. It breaks conservation exactly when the taker is and the maker is not.
   */
  lemma {:induction false} TradeSettlesIffBothOpen(u: Amount, s: Ledger, left: Quote, right: Quote, swap: Swap)
    requires Sound(s) && Current(s, left.round) && Opposed(left, right) && left.buyAsset != left.sellAsset
    requires Booked(s, left) && Booked(s, right) && left.remaining > 0.0 && right.remaining > 0.0
    requires u > 0.0 && WholeUnits(right.remaining, u) && FairSwap(u, left, right, swap)
    requires Conserved(s.fills)
    ensures var (takerFill, makerFill) := CreateFillParams(MkTrade(left, right, swap));
      var after := AddFills(s, takerFill, makerFill);
      && (after.Ok() <==> StillOpen(s, left.approvalId) && StillOpen(s, right.approvalId))
      && (Conserved(after.ledger.fills) <==> (StillOpen(s, left.approvalId) ==> StillOpen(s, right.approvalId)))
  {
    hide Sound, Current, Times, WholeUnits, AddFill, Conserved, StillOpen, FindApproval, Acceptable, Listed, FairSwap;
    var (takerFill, makerFill) := CreateFillParams(MkTrade(left, right, swap));
    FairIsAcceptable(u, left, right, swap);
    if !StillOpen(s, left.approvalId) {
      ClosedRefusesFill(s, takerFill);
    } else {
      BookedAndOpenIsListed(s, left);
      if StillOpen(s, right.approvalId) {
        BookedAndOpenIsListed(s, right);
        FairTradeSettles(u, s, left, right, swap);
        ListedTradeConserves(s, left, right, swap);
      } else {
        HalfTrade(s, left, right, swap);
      }
    }
  }

  // --- Cancellations around a settlement ------------------------------------------------------

  function CancelAll(s: Ledger, round: Round, ids: seq<Id>): Ledger
    decreases |ids|
  {
    if ids == [] then s else CancelAll(CancelOrder(s, round, ids[0]).ledger, round, ids[1..])
  }

  /** A trade's two fills, with orders cancelled before the first and between the two. */
  function SettleAround(s: Ledger, round: Round, before: seq<Id>, first: FillParams, between: seq<Id>, second: FillParams): Outcome {
    var one := AddFill(CancelAll(s, round, before), first);
    if one.Ok() then AddFill(CancelAll(one.ledger, round, between), second) else one
  }

  lemma {:induction false} CancelKeepsQuote(s: Ledger, round: Round, id: Id, q: Quote)
    requires Sound(s) && Current(s, round) && Booked(s, q) && q.round == round
    ensures var after := CancelOrder(s, round, id).ledger;
      && Sound(after) && Current(after, round) && Booked(after, q) && after.fills == s.fills
      && (StillOpen(after, q.approvalId) <==> StillOpen(s, q.approvalId) && id != q.approvalId)
  {
    hide Sound, FindApproval, Post, PatchCache, Current, SameLater;
    CancelSound(s, id);
    CancelStaysCurrent(s, round, id);
    var i := FindApproval(s.approvals, id);
    if i < |s.approvals| {
      ListedRowHasAccount(s, i);
      FindAfterUpdate(s.approvals, i, s.approvals[i].(status := Canceled), q.approvalId);
    }
  }

  lemma ListedRowHasAccount(s: Ledger, i: nat)
    requires Sound(s) && i < |s.approvals|
    ensures SellKey(s.approvals[i].params) in s.accounts
  {
    hide FindApproval, Times;
  }

  lemma {:induction false} CancelStaysCurrent(s: Ledger, round: Round, id: Id)
    requires Current(s, round)
    ensures Current(CancelOrder(s, round, id).ledger, round)
  {
    hide FindApproval, Post, Current, SameLater;
    var after := CancelOrder(s, round, id).ledger;
    if after != s {
      var row := s.approvals[FindApproval(s.approvals, id)];
      PostsSameLater(s, after, SellKey(row.params), NO_MOVEMENT.(locked := -Outstanding(row)), round);
      StaysCurrent(s, after, round);
    }
  }

  lemma {:induction false} CancelAllKeepsQuote(s: Ledger, round: Round, ids: seq<Id>, q: Quote)
    requires Sound(s) && Current(s, round) && Booked(s, q) && q.round == round
    ensures var after := CancelAll(s, round, ids);
      && Sound(after) && Current(after, round) && Booked(after, q) && after.fills == s.fills
      && (StillOpen(after, q.approvalId) <==> StillOpen(s, q.approvalId) && q.approvalId !in ids)
    decreases |ids|
  {
    hide Sound, Current, Booked, StillOpen, CancelOrder;
    if ids != [] {
      CancelKeepsQuote(s, round, ids[0], q);
      CancelAllKeepsQuote(CancelOrder(s, round, ids[0]).ledger, round, ids[1..], q);
      assert ids == [ids[0]] + ids[1..];
    }
  }

  lemma ListedIsBookedAndOpen(s: Ledger, q: Quote)
    requires Listed(s, q)
    ensures Booked(s, q) && (q.remaining > 0.0 ==> StillOpen(s, q.approvalId))
  {
    hide FindApproval;
  }

  /** Both fills together are what their rows say. */
  lemma {:induction false} PairConserves(s: Ledger, t: Ledger, left: Quote, right: Quote, swap: Swap)
    requires Opposed(left, right) && Booked(s, left) && Booked(t, right) && Conserved(s.fills)
    requires var (takerFill, makerFill) := CreateFillParams(MkTrade(left, right, swap));
      && AddFill(s, takerFill).Ok() && t.fills == AddFill(s, takerFill).ledger.fills && AddFill(t, makerFill).Ok()
    ensures var (takerFill, makerFill) := CreateFillParams(MkTrade(left, right, swap));
      Conserved(AddFill(t, makerFill).ledger.fills)
  {
    hide Conserved, AddFill, FindApproval;
    var (takerFill, makerFill) := CreateFillParams(MkTrade(left, right, swap));
    AddFillAppends(s, takerFill);
    AddFillAppends(t, makerFill);
    var f := MkFill(s, s.approvals[FindApproval(s.approvals, left.approvalId)].params, takerFill);
    var g := MkFill(t, t.approvals[FindApproval(t.approvals, right.approvalId)].params, makerFill);
    MirroredPairConserves(s.fills, f, g);
  }

  /** After the taker's own fill, the maker is booked as before. */
  lemma {:induction false} TakerFillKeepsMaker(s: Ledger, left: Quote, right: Quote, buy: Amount, sell: Amount)
    requires Sound(s) && Current(s, left.round) && Opposed(left, right)
    requires Listed(s, left) && left.remaining > 0.0 && Acceptable(left, buy, sell)
    requires Booked(s, right)
    ensures var after := AddFill(s, FillParams(left.approvalId, left.round, buy, sell));
      && after.Ok() && Sound(after.ledger) && Current(after.ledger, left.round) && Booked(after.ledger, right)
      && (StillOpen(after.ledger, right.approvalId) <==> StillOpen(s, right.approvalId))
  {
    hide Sound, Current, Acceptable, Listed, FindApproval, PostFill, PatchCache, HasFill;
    FillListed(s, left, buy, sell);
    var i := FindApproval(s.approvals, left.approvalId);
    FindAfterUpdate(s.approvals, i, FillRow(s.approvals[i], buy, sell), right.approvalId);
  }

  /**
   * Whichever orders are cancelled before a fair trade's first fill or between its two: the trade is
   * applied in full if and only if the taker was not cancelled before, nor the maker at either time.
   * Otherwise it breaks conservation, unless it was the taker that was cancelled before.
   */
  lemma {:induction false} SettlementUnderCancellation(u: Amount, s: Ledger, left: Quote, right: Quote, swap: Swap,
                                                       before: seq<Id>, between: seq<Id>)
    requires Sound(s) && Current(s, left.round) && Opposed(left, right) && left.buyAsset != left.sellAsset
    requires Listed(s, left) && Listed(s, right) && left.remaining > 0.0 && right.remaining > 0.0
    requires u > 0.0 && WholeUnits(right.remaining, u) && FairSwap(u, left, right, swap)
    requires Conserved(s.fills)
    ensures var (takerFill, makerFill) := CreateFillParams(MkTrade(left, right, swap));
      var after := SettleAround(s, left.round, before, takerFill, between, makerFill);
      && (after.Ok() <==> left.approvalId !in before && right.approvalId !in before && right.approvalId !in between)
      && (Conserved(after.ledger.fills)
          <==> left.approvalId in before || (right.approvalId !in before && right.approvalId !in between))
  {
    hide Sound, Current, Times, WholeUnits, AddFill, Conserved, StillOpen, FindApproval, Acceptable, Listed, FairSwap, CancelAll, Booked;
    var (takerFill, makerFill) := CreateFillParams(MkTrade(left, right, swap));
    FairIsAcceptable(u, left, right, swap);
    ListedIsBookedAndOpen(s, left);
    ListedIsBookedAndOpen(s, right);
    CancelAllKeepsQuote(s, left.round, before, left);
    CancelAllKeepsQuote(s, left.round, before, right);
    var start := CancelAll(s, left.round, before);
    OpenRefusesNothing(start, left, swap.fromRight, swap.fromLeft);
    if left.approvalId in before {
      ClosedRefusesFill(start, takerFill);
    } else {
      BookedAndOpenIsListed(start, left);
      TakerFillKeepsMaker(start, left, right, swap.fromRight, swap.fromLeft);
      var middle := AddFill(start, takerFill).ledger;
      CancelAllKeepsQuote(middle, left.round, between, right);
      var last := CancelAll(middle, left.round, between);
      OpenRefusesNothing(last, right, swap.fromLeft, swap.fromRight);
      if StillOpen(last, right.approvalId) {
        PairConserves(start, last, left, right, swap);
      } else {
        ClosedRefusesFill(last, makerFill);
        TakerFillAlone(start, left, swap);
      }
    }
  }

  lemma {:induction false} TakerFillAlone(s: Ledger, left: Quote, swap: Swap)
    requires Booked(s, left) && Conserved(s.fills) && left.buyAsset != left.sellAsset && swap.fromRight > 0.0
    requires AddFill(s, FillParams(left.approvalId, left.round, swap.fromRight, swap.fromLeft)).Ok()
    ensures !Conserved(AddFill(s, FillParams(left.approvalId, left.round, swap.fromRight, swap.fromLeft)).ledger.fills)
  {
    hide Conserved, AddFill, FindApproval;
    var params := FillParams(left.approvalId, left.round, swap.fromRight, swap.fromLeft);
    AddFillAppends(s, params);
    LoneFillBreaksConservation(s.fills, MkFill(s, s.approvals[FindApproval(s.approvals, left.approvalId)].params, params));
  }
}
