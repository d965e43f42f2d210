// The fee of an order while approvals are cancelled around it: cancelling takes no lock, and a fee approval is
// open until it is filled (src/server/exchange/Exchange.ts, processFeeApproval and cancelOrder).
module FeeCancellations {
  import opened BasicTypes
  import opened Sums
  import opened Ledgers
  import opened LedgerBooks
  import opened LedgerSound
  import opened Exchanges
  import opened Settlement
  import opened OrderFlow
  import opened Interleavings

  /** The ledger holds this approval, unfilled, either open or cancelled. */
  predicate Unfilled(s: Ledger, a: Approval, open: bool) {
    var i := FindApproval(s.approvals, a.approvalId);
    i < |s.approvals| && s.approvals[i] == ApprovalRow(a, 0.0, 0.0, if open then Open else Canceled)
  }

  lemma OpenIsFresh(s: Ledger, a: Approval)
    ensures FreshRow(s, a) <==> Unfilled(s, a, true)
  {
  }

  /** What cancellations of a round leave alone. */
  ghost predicate OnlyCancelled(s: Ledger, t: Ledger, round: Round) {
    && Sound(t) && Current(t, round) && SameLater(s, t, round)
    && t.fills == s.fills && t.wallets == s.wallets && t.assets == s.assets
    && forall id :: HasApproval(t.approvals, id) <==> HasApproval(s.approvals, id)
  }

  lemma {:induction false} CancelOnly(s: Ledger, round: Round, id: Id)
    requires Sound(s) && Current(s, round)
    ensures OnlyCancelled(s, CancelOrder(s, round, id).ledger, round)
  {
    hide Sound, FindApproval, Post, PatchCache, Current, SameLater;
    CancelSound(s, id);
    CancelStaysCurrent(s, round, id);
    SameLaterSteps(s, s, s, round);
    var after := CancelOrder(s, round, id).ledger;
    if after != s {
      var i := FindApproval(s.approvals, id);
      var row := s.approvals[i];
      CancelSameLater(s, round, id);
      forall other
        ensures FindApproval(after.approvals, other) == FindApproval(s.approvals, other)
      {
        FindAfterUpdate(s.approvals, i, row.(status := Canceled), other);
      }
    }
  }

  lemma {:induction false} CancelSameLater(s: Ledger, round: Round, id: Id)
    requires CancelOrder(s, round, id).ledger != s
    ensures SameLater(s, CancelOrder(s, round, id).ledger, round)
  {
    hide FindApproval, Post, SameLater;
    var row := s.approvals[FindApproval(s.approvals, id)];
    PostsSameLater(s, CancelOrder(s, round, id).ledger, SellKey(row.params), NO_MOVEMENT.(locked := -Outstanding(row)), round);
  }

  lemma {:induction false} CancelRow(s: Ledger, round: Round, id: Id, a: Approval, open: bool)
    requires Sound(s) && a.round == round && Unfilled(s, a, open)
    ensures Unfilled(CancelOrder(s, round, id).ledger, a, open && id != a.approvalId)
  {
    hide Sound, FindApproval, Post, PatchCache;
    var i := FindApproval(s.approvals, id);
    if i < |s.approvals| {
      ListedRowHasAccount(s, i);
      FindAfterUpdate(s.approvals, i, s.approvals[i].(status := Canceled), a.approvalId);
    }
  }

  lemma {:induction false} CancelAllOnly(s: Ledger, round: Round, ids: seq<Id>)
    requires Sound(s) && Current(s, round)
    ensures OnlyCancelled(s, CancelAll(s, round, ids), round)
    decreases |ids|
  {
    hide Sound, Current, SameLater, CancelOrder, FindApproval;
    SameLaterSteps(s, s, s, round);
    if ids != [] {
      var next := CancelOrder(s, round, ids[0]).ledger;
      CancelOnly(s, round, ids[0]);
      CancelAllOnly(next, round, ids[1..]);
      SameLaterSteps(s, next, CancelAll(s, round, ids), round);
    }
  }

  lemma {:induction false} CancelAllRow(s: Ledger, round: Round, ids: seq<Id>, a: Approval, open: bool)
    requires Sound(s) && Current(s, round) && a.round == round && Unfilled(s, a, open)
    ensures Unfilled(CancelAll(s, round, ids), a, open && a.approvalId !in ids)
    decreases |ids|
  {
    hide Sound, Current, SameLater, CancelOrder, Unfilled;
    if ids != [] {
      var next := CancelOrder(s, round, ids[0]).ledger;
      CancelOnly(s, round, ids[0]);
      CancelRow(s, round, ids[0], a, open);
      CancelAllRow(next, round, ids[1..], a, open && ids[0] != a.approvalId);
      assert ids == [ids[0]] + ids[1..];
    }
  }

  /** A fee is processed while approvals are cancelled before the operator's side is stored, and before either fill. */
  function PayAround(cfg: Config, s: Ledger, round: Round, fee: Approval, id: Id, before: seq<Id>, middle: seq<Id>,
                     late: seq<Id>): Outcome {
    var other := OperatorApprovalForFee(cfg, fee, id);
    var stored := InsertApproval(CancelAll(s, round, before), other);
    if !stored.Ok() then stored
    else
      var client := AddFill(CancelAll(stored.ledger, round, middle), FeeToFill(fee));
      if !client.Ok() then client
      else AddFill(CancelAll(client.ledger, round, late), FeeToFill(other))
  }

  lemma NoCancellations(cfg: Config, s: Ledger, round: Round, fee: Approval, id: Id)
    ensures PayAround(cfg, s, round, fee, id, [], [], []) == ProcessFeeApproval(cfg, s, fee, id)
  {
    hide InsertApproval, AddFill;
  }

  lemma {:induction false} FeeFillIff(s: Ledger, a: Approval, round: Round, open: bool)
    requires Sound(s) && Current(s, round) && a.round == round && OneSided(a) && Unfilled(s, a, open)
    ensures var after := AddFill(s, FeeToFill(a));
      && (after.Ok() <==> open)
      && Sound(after.ledger) && Current(after.ledger, round)
      && (open ==> after.ledger.fills == s.fills + [MkFill(s, a, FeeToFill(a))])
      && (!open ==> after.ledger == s)
      && (forall b, o :: Unfilled(s, b, o) && b.approvalId != a.approvalId ==> Unfilled(after.ledger, b, o))
  {
    hide Sound, Current, FindApproval, AddFill;
    if open {
      FeeFillSound(s, a, round);
      AddFillAppends(s, FeeToFill(a));
      var i := FindApproval(s.approvals, a.approvalId);
      forall b, o | Unfilled(s, b, o) && b.approvalId != a.approvalId
        ensures Unfilled(AddFill(s, FeeToFill(a)).ledger, b, o)
      {
        FindAfterUpdate(s.approvals, i, ApprovalRow(a, a.buy, a.sell, Closed), b.approvalId);
      }
    } else {
      ClosedRefusesFill(s, FeeToFill(a));
    }
  }

  lemma {:induction false} StoringKeepsRow(s: Ledger, a: Approval, b: Approval, open: bool)
    requires !HasApproval(s.approvals, a.approvalId) && Unfilled(s, b, open)
    ensures Unfilled(LockApproval(s, a), b, open)
  {
    hide FindApproval, Post, PatchCache;
    FindAfterAppend(s.approvals, ApprovalRow(a, 0.0, 0.0, Open), b.approvalId);
  }

  /** A sale without its counterpart leaves more sold than bought. */
  lemma {:induction false} LoneSaleBreaksConservation(fills: seq<Fill>, f: Fill)
    requires Conserved(fills) && f.buy == 0.0 && f.sell > 0.0
    ensures !Conserved(fills + [f])
  {
    SumAppend(fills, f, BoughtIn(f.round, f.sellAsset));
    SumAppend(fills, f, SoldIn(f.round, f.sellAsset));
    assert SumBy(fills, BoughtIn(f.round, f.sellAsset)) == SumBy(fills, SoldIn(f.round, f.sellAsset));
    assert SumBy(fills + [f], BoughtIn(f.round, f.sellAsset)) != SumBy(fills + [f], SoldIn(f.round, f.sellAsset));
  }

  lemma FeeSides(cfg: Config, s: Ledger, round: Round, fee: Approval, id: Id)
    requires ProperFee(cfg, s, round, fee)
    ensures var other := OperatorApprovalForFee(cfg, fee, id);
      && OneSided(fee) && OneSided(other) && other.round == fee.round == round && other.approvalId == id
      && fee.buy == 0.0 == other.sell && fee.sell == other.buy > 0.0
      && fee.buyAsset == fee.sellAsset == other.buyAsset == other.sellAsset
  {
  }

  /**
   * Whichever approvals of the round are cancelled while a fee is processed, the fee is paid if and only
   * if its own approval was not cancelled before its fill, nor the operator's side before its own. It is
   * half paid, and conservation is lost, exactly when only the operator's side was. An order that was not
   * cancelled itself stays in the book either way.
   */
  lemma {:induction false} FeePaidIffNotCancelled(cfg: Config, s: Ledger, round: Round, order: Approval, fee: Approval, id: Id,
                                                  before: seq<Id>, middle: seq<Id>, late: seq<Id>)
    requires Sound(s) && Current(s, round) && IsRegistered(s.wallets, cfg.operator) && Conserved(s.fills)
    requires ProperFee(cfg, s, round, fee) && FreshRow(s, fee) && FreshRow(s, order) && order.round == round
    requires !HasApproval(s.approvals, id) && order.approvalId != fee.approvalId
    requires AccountsTimely(s, OperatorApprovalForFee(cfg, fee, id))
    ensures var paid := PayAround(cfg, s, round, fee, id, before, middle, late);
      var clientOpen := fee.approvalId !in before && fee.approvalId !in middle;
      var operatorOpen := id !in middle && id !in late;
      && (paid.Ok() <==> clientOpen && operatorOpen)
      && (Conserved(paid.ledger.fills) <==> !clientOpen || operatorOpen)
      && (order.approvalId !in before && order.approvalId !in middle && order.approvalId !in late ==>
            FreshRow(paid.ledger, order))
  {
    hide Sound, Current, FindApproval, IsRegistered, Conserved, InsertApproval, AddFill, CancelAll, AccountsTimely, SameLater, Unfilled;
    hide FreshRow, LockApproval, ProperFee;
    var other := OperatorApprovalForFee(cfg, fee, id);
    FeeSides(cfg, s, round, fee, id);
    OpenIsFresh(s, fee);
    OpenIsFresh(s, order);
    var first := CancelAll(s, round, before);
    CancelAllOnly(s, round, before);
    CancelAllRow(s, round, before, fee, true);
    CancelAllRow(s, round, before, order, true);
    var (stored, feeOpen, orderOpen) := (InsertApproval(first, other).ledger, fee.approvalId !in before, order.approvalId !in before);
    OtherSideStored(cfg, s, first, round, fee, id);
    StoredRows(first, other, stored, fee, feeOpen);
    StoredRows(first, other, stored, order, orderOpen);
    var second := CancelAll(stored, round, middle);
    CancelAllOnly(stored, round, middle);
    CancelAllRow(stored, round, middle, fee, feeOpen);
    CancelAllRow(stored, round, middle, order, orderOpen);
    CancelAllRow(stored, round, middle, other, true);
    var clientOpen := feeOpen && fee.approvalId !in middle;
    FeeFillIff(second, fee, round, clientOpen);
    OpenIsFresh(second, order);
    if clientOpen {
      var client := AddFill(second, FeeToFill(fee)).ledger;
      var third := CancelAll(client, round, late);
      CancelAllOnly(client, round, late);
      CancelAllRow(client, round, late, order, orderOpen && order.approvalId !in middle);
      CancelAllRow(client, round, late, other, id !in middle);
      FeeFillIff(third, other, round, id !in middle && id !in late);
      OpenIsFresh(AddFill(third, FeeToFill(other)).ledger, order);
      if id !in middle && id !in late {
        MirroredPairConserves(s.fills, MkFill(second, fee, FeeToFill(fee)), MkFill(third, other, FeeToFill(other)));
      } else {
        LoneSaleBreaksConservation(s.fills, MkFill(second, fee, FeeToFill(fee)));
      }
    }
  }

  lemma {:induction false} OtherSideStored(cfg: Config, s: Ledger, first: Ledger, round: Round, fee: Approval, id: Id)
    requires OnlyCancelled(s, first, round) && IsRegistered(s.wallets, cfg.operator)
    requires ProperFee(cfg, s, round, fee) && !HasApproval(s.approvals, id)
    requires AccountsTimely(s, OperatorApprovalForFee(cfg, fee, id))
    ensures var other := OperatorApprovalForFee(cfg, fee, id);
      var stored := InsertApproval(first, other);
      && stored.Ok() && Sound(stored.ledger) && Current(stored.ledger, round)
      && stored.ledger == LockApproval(first, other).(cache := stored.ledger.cache)
      && !HasApproval(first.approvals, id)
  {
    hide Sound, Current, FindApproval, IsRegistered, InsertApproval, AccountsTimely, SameLater, LockApproval;
    StillTimely(s, first, OperatorApprovalForFee(cfg, fee, id));
    OperatorSideStored(cfg, first, round, fee, id);
  }

  lemma {:induction false} StoredRows(first: Ledger, other: Approval, stored: Ledger, a: Approval, open: bool)
    requires !HasApproval(first.approvals, other.approvalId) && Unfilled(first, a, open)
    requires stored == LockApproval(first, other).(cache := stored.cache)
    ensures Unfilled(stored, a, open) && Unfilled(stored, other, true) && a.approvalId != other.approvalId
    ensures stored.fills == first.fills
  {
    hide FindApproval, Post, PatchCache;
    StoringKeepsRow(first, other, a, open);
    FindAfterAppend(first.approvals, ApprovalRow(other, 0.0, 0.0, Open), other.approvalId);
  }
}
