// Account rows against the tables of deposits, withdrawals, fills and approvals, and approvals
// against their fills.
module LedgerBooks {
  import opened BasicTypes
  import opened BigNumbers
  import opened Sums
  import opened Ledgers
  import opened LedgerBalances

  // --- What each table says about an account row ----------------------------------------------

  function SellKey(a: Approval): Key {
    Key(a.round, a.sellAsset, a.owner)
  }

  /** A withdrawal that takes money out: requested, checked, and not canceled. */
  predicate Effective(w: Withdrawal) {
    w.status.Pending? || w.status.Confirmed?
  }

  function Outstanding(row: ApprovalRow): Amount {
    row.params.sell - row.filledSell
  }

  function DepositAt(k: Key): Deposit -> Amount {
    (d: Deposit) => if Key(d.round, d.asset, d.wallet) == k then d.amount else 0.0
  }

  function WithdrawnAt(k: Key): Withdrawal -> Amount {
    (w: Withdrawal) => if Effective(w) && Key(w.round, w.asset, w.wallet) == k then w.amount else 0.0
  }

  function BoughtAt(k: Key): Fill -> Amount {
    (f: Fill) => if Key(f.round, f.buyAsset, f.clientAddress) == k then f.buy else 0.0
  }

  function SoldAt(k: Key): Fill -> Amount {
    (f: Fill) => if Key(f.round, f.sellAsset, f.clientAddress) == k then f.sell else 0.0
  }

  /** A closed approval keeps its unsold remainder locked; a canceled one keeps nothing. */
  function LockedAt(k: Key): ApprovalRow -> Amount {
    (row: ApprovalRow) => if !row.status.Canceled? && SellKey(row.params) == k then Outstanding(row) else 0.0
  }

  function Recorded(s: Ledger, k: Key): Account {
    Account(SumBy(s.deposits, DepositAt(k)), SumBy(s.withdrawals, WithdrawnAt(k)),
            SumBy(s.fills, BoughtAt(k)), SumBy(s.fills, SoldAt(k)), SumBy(s.approvals, LockedAt(k)))
  }

  /** Every account row is exactly what the tables add up to. */
  ghost predicate Represented(s: Ledger) {
    forall k :: AccountAt(s.accounts, k) == Recorded(s, k)
  }

  // --- Approvals and their fills --------------------------------------------------------------

  ghost predicate UniqueIds(approvals: seq<ApprovalRow>) {
    forall i, j :: 0 <= i < j < |approvals| ==> approvals[i].params.approvalId != approvals[j].params.approvalId
  }

  /** No approval gives more than it offered, takes more than it asked, or trades below its price. */
  predicate NotOverfilled(row: ApprovalRow) {
    && 0.0 <= row.filledSell <= row.params.sell
    && 0.0 <= row.filledBuy && 0.0 <= row.params.buy
    && (row.params.intent.BuyAll? ==> row.filledBuy <= row.params.buy && row.params.buy > 0.0)
    && Times(row.filledSell, row.params.buy) <= Times(row.params.sell, row.filledBuy)
    && (row.status.Open? ==> !IsFilled(row.params, row.filledBuy, row.filledSell))
  }

  ghost predicate NoneOverfilled(approvals: seq<ApprovalRow>) {
    forall i :: 0 <= i < |approvals| ==> NotOverfilled(approvals[i])
  }

  function BuyFor(id: Id): Fill -> Amount {
    (f: Fill) => if f.approvalId == id then f.buy else 0.0
  }

  function SellFor(id: Id): Fill -> Amount {
    (f: Fill) => if f.approvalId == id then f.sell else 0.0
  }

  predicate FilledBy(row: ApprovalRow, fills: seq<Fill>) {
    && row.filledBuy == SumBy(fills, BuyFor(row.params.approvalId))
    && row.filledSell == SumBy(fills, SellFor(row.params.approvalId))
  }

  ghost predicate FilledExactly(approvals: seq<ApprovalRow>, fills: seq<Fill>) {
    forall i :: 0 <= i < |approvals| ==> FilledBy(approvals[i], fills)
  }

  predicate Backs(a: Approval, f: Fill) {
    && a.approvalId == f.approvalId && a.round == f.round && a.owner == f.clientAddress
    && a.buyAsset == f.buyAsset && a.sellAsset == f.sellAsset && a.instanceId == f.instanceId
  }

  /** The fill price respects the approval; only an approval that asks for nothing may get nothing. */
  predicate Honours(a: Approval, f: Fill) {
    && f.buy >= 0.0 && f.sell >= 0.0
    && (a.buy > 0.0 ==> f.buy > 0.0)
    && Times(f.sell, a.buy) <= Times(a.sell, f.buy)
  }

  predicate BackedFill(approvals: seq<ApprovalRow>, f: Fill) {
    var i := FindApproval(approvals, f.approvalId);
    i < |approvals| && Backs(approvals[i].params, f) && Honours(approvals[i].params, f)
  }

  ghost predicate FillsBacked(approvals: seq<ApprovalRow>, fills: seq<Fill>) {
    forall j :: 0 <= j < |fills| ==> BackedFill(approvals, fills[j])
  }

  ghost predicate FillsNumbered(fills: seq<Fill>) {
    forall j :: 0 <= j < |fills| ==> fills[j].fillId == j + 1
  }

  ghost predicate RowsExist(accounts: map<Key, Account>, approvals: seq<ApprovalRow>, fills: seq<Fill>) {
    && (forall i :: 0 <= i < |approvals| ==> SellKey(approvals[i].params) in accounts)
    && (forall j :: 0 <= j < |fills| ==> Key(fills[j].round, fills[j].buyAsset, fills[j].clientAddress) in accounts)
  }

  ghost predicate BooksBalance(s: Ledger) {
    && UniqueIds(s.approvals)
    && NoneOverfilled(s.approvals)
    && FilledExactly(s.approvals, s.fills)
    && FillsBacked(s.approvals, s.fills)
    && FillsNumbered(s.fills)
    && RowsExist(s.accounts, s.approvals, s.fills)
  }

  // --- Postings and tables move together ------------------------------------------------------

  lemma {:induction false} DepositRepresented(s: Ledger, d: Deposit)
    requires Represented(s)
    ensures Represented(s.(
      accounts := Post(s.accounts, Key(d.round, d.asset, d.wallet), NO_MOVEMENT.(deposited := d.amount)),
      deposits := s.deposits + [d]))
  {
    hide AccountAt, Post;
    var k := Key(d.round, d.asset, d.wallet);
    var movement := NO_MOVEMENT.(deposited := d.amount);
    forall other
      ensures AccountAt(Post(s.accounts, k, movement), other)
              == Recorded(s.(accounts := Post(s.accounts, k, movement), deposits := s.deposits + [d]), other)
    {
      assert AccountAt(s.accounts, other) == Recorded(s, other);
      AccountAfterPost(s.accounts, k, movement, other);
      SumAppend(s.deposits, d, DepositAt(other));
    }
  }

  lemma {:induction false} LockRepresented(s: Ledger, a: Approval)
    requires Represented(s)
    ensures Represented(LockApproval(s, a))
  {
    hide AccountAt, Post;
    var after := LockApproval(s, a);
    var movement := NO_MOVEMENT.(locked := a.sell);
    forall k
      ensures AccountAt(after.accounts, k) == Recorded(after, k)
    {
      assert AccountAt(s.accounts, k) == Recorded(s, k);
      AccountAfterPost(s.accounts, SellKey(a), movement, k);
      SumAppend(s.approvals, ApprovalRow(a, 0.0, 0.0, Open), LockedAt(k));
    }
  }

  lemma {:induction false} CancelRepresented(s: Ledger, id: Id)
    requires Represented(s)
    ensures Represented(CancelApproval(s, id).ledger)
  {
    hide AccountAt, Post;
    var i := FindApproval(s.approvals, id);
    var after := CancelApproval(s, id).ledger;
    if after != s {
      var row := s.approvals[i];
      var movement := NO_MOVEMENT.(locked := -Outstanding(row));
      forall k
        ensures AccountAt(after.accounts, k) == Recorded(after, k)
      {
        assert AccountAt(s.accounts, k) == Recorded(s, k);
        AccountAfterPost(s.accounts, SellKey(row.params), movement, k);
        SumUpdate(s.approvals, i, row.(status := Canceled), LockedAt(k));
      }
    }
  }

  lemma {:induction false} FillRepresented(s: Ledger, f: Fill)
    requires Represented(s)
    ensures Represented(InsertFill(s, f).ledger)
  {
    hide AccountAt, Post;
    var i := FindApproval(s.approvals, f.approvalId);
    var after := InsertFill(s, f).ledger;
    if after != s {
      var row := s.approvals[i];
      var sellKey, buyKey := Key(f.round, f.sellAsset, f.clientAddress), Key(f.round, f.buyAsset, f.clientAddress);
      var sold := NO_MOVEMENT.(sold := f.sell, locked := -f.sell);
      var bought := NO_MOVEMENT.(bought := f.buy);
      forall k
        ensures AccountAt(after.accounts, k) == Recorded(after, k)
      {
        assert AccountAt(s.accounts, k) == Recorded(s, k);
        AccountAfterPost(s.accounts, sellKey, sold, k);
        AccountAfterPost(Post(s.accounts, sellKey, sold), buyKey, bought, k);
        SumUpdate(s.approvals, i, FillRow(row, f.buy, f.sell), LockedAt(k));
        SumAppend(s.fills, f, BoughtAt(k));
        SumAppend(s.fills, f, SoldAt(k));
      }
    }
  }

  /** A request that starts to take money out, stored at a new or an unchecked row. */
  lemma {:induction false} WithdrawalRepresented(s: Ledger, w: Withdrawal, withdrawals: seq<Withdrawal>)
    requires Represented(s)
    requires || withdrawals == s.withdrawals + [w.(status := Pending)]
             || exists i :: 0 <= i < |s.withdrawals| && s.withdrawals[i] == w && w.status.Unchecked?
                            && withdrawals == s.withdrawals[i := w.(status := Pending)]
    ensures Represented(PostWithdrawal(s, w, withdrawals))
  {
    hide AccountAt, Post;
    var after := PostWithdrawal(s, w, withdrawals);
    var movement := NO_MOVEMENT.(withdrawn := w.amount);
    forall k
      ensures AccountAt(after.accounts, k) == Recorded(after, k)
    {
      assert AccountAt(s.accounts, k) == Recorded(s, k);
      AccountAfterPost(s.accounts, Key(w.round, w.asset, w.wallet), movement, k);
      if withdrawals == s.withdrawals + [w.(status := Pending)] {
        SumAppend(s.withdrawals, w.(status := Pending), WithdrawnAt(k));
      } else {
        var i :| 0 <= i < |s.withdrawals| && s.withdrawals[i] == w && w.status.Unchecked?
                 && withdrawals == s.withdrawals[i := w.(status := Pending)];
        SumUpdate(s.withdrawals, i, w.(status := Pending), WithdrawnAt(k));
      }
    }
  }

  lemma {:induction false} CancelWithdrawalRepresented(s: Ledger, asset: Address, wallet: Address)
    requires Represented(s)
    ensures Represented(CancelWithdrawal(s, asset, wallet).ledger)
  {
    hide AccountAt, Post;
    var i := FindWithdrawal(s.withdrawals, asset, wallet, {Pending, Unchecked});
    var after := CancelWithdrawal(s, asset, wallet).ledger;
    if after != s {
      var w := s.withdrawals[i];
      var movement := NO_MOVEMENT.(withdrawn := -w.amount);
      forall k
        ensures AccountAt(after.accounts, k) == Recorded(after, k)
      {
        assert AccountAt(s.accounts, k) == Recorded(s, k);
        AccountAfterPost(s.accounts, Key(w.round, asset, wallet), movement, k);
        SumUpdate(s.withdrawals, i, w.(status := CanceledWithdrawal), WithdrawnAt(k));
      }
    }
  }

  lemma {:induction false} ConfirmRepresented(s: Ledger, asset: Address, wallet: Address)
    requires Represented(s)
    ensures Represented(ConfirmWithdrawal(s, asset, wallet).ledger)
  {
    hide AccountAt;
    var i := FindWithdrawal(s.withdrawals, asset, wallet, {Pending});
    var after := ConfirmWithdrawal(s, asset, wallet).ledger;
    if after != s {
      forall k
        ensures AccountAt(after.accounts, k) == Recorded(after, k)
      {
        assert AccountAt(s.accounts, k) == Recorded(s, k);
        SumUpdate(s.withdrawals, i, s.withdrawals[i].(status := Confirmed), WithdrawnAt(k));
      }
    }
  }

  lemma {:induction false} RequestRepresented(s: Ledger, w: Withdrawal)
    requires Represented(s) && !Effective(w)
    ensures Represented(InsertWithdrawal(s, w).ledger)
  {
    hide AccountAt;
    var after := InsertWithdrawal(s, w).ledger;
    if after != s {
      forall k
        ensures AccountAt(after.accounts, k) == Recorded(after, k)
      {
        assert AccountAt(s.accounts, k) == Recorded(s, k);
        SumAppend(s.withdrawals, w, WithdrawnAt(k));
      }
    }
  }

  // --- The books through inserts, fills and cancellations -------------------------------------

  /** Lookups do not see a change that keeps the parameters. */
  lemma FindAfterUpdate(approvals: seq<ApprovalRow>, i: nat, row: ApprovalRow, id: Id)
    requires i < |approvals| && row.params == approvals[i].params
    ensures FindApproval(approvals[i := row], id) == FindApproval(approvals, id)
  {
    hide FindApproval;
    var updated := approvals[i := row];
    assert forall j :: 0 <= j < |approvals| ==> updated[j].params == approvals[j].params;
    var p, q := FindApproval(updated, id), FindApproval(approvals, id);
    assert p < |approvals| ==> q <= p;
    assert q < |approvals| ==> p <= q;
  }

  lemma FindAfterAppend(approvals: seq<ApprovalRow>, row: ApprovalRow, id: Id)
    ensures FindApproval(approvals + [row], id)
            == if HasApproval(approvals, id) then FindApproval(approvals, id)
               else if row.params.approvalId == id then |approvals| else |approvals| + 1
  {
    hide FindApproval;
    var longer := approvals + [row];
    assert forall j :: 0 <= j < |approvals| ==> longer[j] == approvals[j];
    assert longer[|approvals|] == row;
    var p, q := FindApproval(longer, id), FindApproval(approvals, id);
    assert q < |approvals| ==> p <= q;
    assert p < |approvals| ==> q <= p;
  }

  lemma FindUnique(approvals: seq<ApprovalRow>, i: nat)
    requires UniqueIds(approvals) && i < |approvals|
    ensures FindApproval(approvals, approvals[i].params.approvalId) == i
  {
  }

  /** A new approval may be stored when its amounts make sense and its id is new. */
  predicate WellFormed(a: Approval) {
    && a.buy >= 0.0 && a.sell >= 0.0
    && (if a.intent.BuyAll? then a.buy > 0.0 else a.sell > 0.0)
  }

  lemma {:induction false} LockKeepsBooks(s: Ledger, a: Approval)
    requires BooksBalance(s) && WellFormed(a) && !HasApproval(s.approvals, a.approvalId)
    ensures BooksBalance(LockApproval(s, a))
  {
    hide Times, FindApproval;
    var after := LockApproval(s, a);
    var row := ApprovalRow(a, 0.0, 0.0, Open);
    assert FillsBacked(after.approvals, s.fills) by {
      forall j | 0 <= j < |s.fills|
        ensures BackedFill(after.approvals, s.fills[j])
      {
        assert BackedFill(s.approvals, s.fills[j]);
        FindAfterAppend(s.approvals, row, s.fills[j].approvalId);
      }
    }
    assert FilledBy(row, s.fills) by {
      forall j | 0 <= j < |s.fills|
        ensures s.fills[j].approvalId != a.approvalId
      {
        assert BackedFill(s.approvals, s.fills[j]);
      }
      SumZero(s.fills, BuyFor(a.approvalId));
      SumZero(s.fills, SellFor(a.approvalId));
    }
    assert NotOverfilled(row) by {
      TimesUnits(a.buy);
      TimesUnits(a.sell);
    }
    NewIdIsUnique(s.approvals, row);
  }

  lemma NewIdIsUnique(approvals: seq<ApprovalRow>, row: ApprovalRow)
    requires UniqueIds(approvals) && !HasApproval(approvals, row.params.approvalId)
    ensures UniqueIds(approvals + [row])
  {
  }

  lemma {:induction false} CancelKeepsBooks(s: Ledger, id: Id)
    requires BooksBalance(s)
    ensures BooksBalance(CancelApproval(s, id).ledger)
  {
    hide Times, FindApproval, PatchCache, Backs, Honours;
    var i := FindApproval(s.approvals, id);
    var after := CancelApproval(s, id).ledger;
    if after != s {
      forall j | 0 <= j < |s.fills|
        ensures BackedFill(after.approvals, s.fills[j])
      {
        assert BackedFill(s.approvals, s.fills[j]);
        FindAfterUpdate(s.approvals, i, after.approvals[i], s.fills[j].approvalId);
      }
    }
  }

  /** A fill that its approval has room for, at its price, under the next fill id. */
  predicate FillFits(s: Ledger, f: Fill) {
    var i := FindApproval(s.approvals, f.approvalId);
    && i < |s.approvals|
    && s.approvals[i].status.Open?
    && Backs(s.approvals[i].params, f) && Honours(s.approvals[i].params, f)
    && (if s.approvals[i].params.intent.BuyAll? then s.approvals[i].filledBuy + f.buy <= s.approvals[i].params.buy
        else s.approvals[i].filledSell + f.sell <= s.approvals[i].params.sell)
    && f.fillId == NextFillId(s)
  }

  /** Prices add up: a row filled at its price stays within its sell amount. */
  lemma {:induction false} FillRowNotOverfilled(row: ApprovalRow, f: Fill)
    requires NotOverfilled(row) && row.status.Open? && Honours(row.params, f)
    requires if row.params.intent.BuyAll? then row.filledBuy + f.buy <= row.params.buy
             else row.filledSell + f.sell <= row.params.sell
    ensures NotOverfilled(FillRow(row, f.buy, f.sell))
  {
    hide Times;
    var a := row.params;
    TimesDistributes(row.filledSell, f.sell, a.buy);
    TimesDistributes(row.filledBuy, f.buy, a.sell);
    if a.intent.BuyAll? {
      TimesCommutes(a.sell, row.filledBuy + f.buy);
      TimesCommutes(a.sell, a.buy);
      TimesMonotone(row.filledBuy + f.buy, a.buy, a.sell);
      TimesCommutes(a.buy, a.sell);
      TimesOrder(row.filledSell + f.sell, a.sell, a.buy);
    }
  }

  /** Every non-canceled approval has its outstanding amount inside the lock of its account row. */
  lemma {:induction false} LockCoversRow(s: Ledger, i: nat)
    requires Represented(s) && NoneOverfilled(s.approvals)
    requires i < |s.approvals| && !s.approvals[i].status.Canceled?
    ensures Outstanding(s.approvals[i]) <= AccountAt(s.accounts, SellKey(s.approvals[i].params)).locked
  {
    var k := SellKey(s.approvals[i].params);
    assert AccountAt(s.accounts, k) == Recorded(s, k);
    forall j | 0 <= j < |s.approvals|
      ensures LockedAt(k)(s.approvals[j]) >= 0.0
    {
      assert NotOverfilled(s.approvals[j]);
    }
    SumMember(s.approvals, i, LockedAt(k));
  }

  /** What the open approvals of an account still have outstanding. */
  function OpenAt(k: Key): ApprovalRow -> Amount {
    (row: ApprovalRow) => if row.status.Open? && SellKey(row.params) == k then Outstanding(row) else 0.0
  }

  function LeftAt(k: Key): ApprovalRow -> Amount {
    (row: ApprovalRow) => if row.status.Closed? && SellKey(row.params) == k then Outstanding(row) else 0.0
  }

  /**
   * Closing an approval does not release what it has not sold: `locked` is what the open approvals of the
   * account have outstanding if and only if every closed one has sold all it offered.
   */
  lemma {:induction false} LockedIsOpenIff(s: Ledger, k: Key)
    requires Represented(s) && NoneOverfilled(s.approvals)
    ensures AccountAt(s.accounts, k).locked == SumBy(s.approvals, OpenAt(k))
            <==> forall i :: 0 <= i < |s.approvals| && s.approvals[i].status.Closed? && SellKey(s.approvals[i].params) == k ==>
                   s.approvals[i].filledSell == s.approvals[i].params.sell
  {
    assert AccountAt(s.accounts, k) == Recorded(s, k);
    SumAdd(s.approvals, OpenAt(k), LeftAt(k), LockedAt(k));
    forall i | 0 <= i < |s.approvals|
      ensures LeftAt(k)(s.approvals[i]) >= 0.0
    {
      assert NotOverfilled(s.approvals[i]);
    }
    forall i | 0 <= i < |s.approvals|
      ensures LeftAt(k)(s.approvals[i]) <= SumBy(s.approvals, LeftAt(k))
    {
      SumMember(s.approvals, i, LeftAt(k));
    }
    if forall i :: 0 <= i < |s.approvals| ==> LeftAt(k)(s.approvals[i]) == 0.0 {
      SumZero(s.approvals, LeftAt(k));
    }
  }

  /** The ledger accepts every such fill: none of its checks can refuse one. */
  lemma {:induction false} FittingFillAccepted(s: Ledger, f: Fill)
    requires Represented(s) && BooksBalance(s) && FillFits(s, f)
    ensures InsertFill(s, f).Ok()
  {
    hide Times;
    var i := FindApproval(s.approvals, f.approvalId);
    var row := s.approvals[i];
    assert !HasFill(s.fills, f.fillId);
    assert NotOverfilled(row);
    FillRowNotOverfilled(row, f);
    LockCoversRow(s, i);
    assert SellKey(row.params) in s.accounts;
  }

  lemma {:induction false} FillKeepsBacked(s: Ledger, f: Fill, row: ApprovalRow)
    requires FillsBacked(s.approvals, s.fills) && FillFits(s, f)
    requires row.params == s.approvals[FindApproval(s.approvals, f.approvalId)].params
    ensures FillsBacked(s.approvals[FindApproval(s.approvals, f.approvalId) := row], s.fills + [f])
  {
    hide Times, FindApproval, Honours;
    var i := FindApproval(s.approvals, f.approvalId);
    var fills := s.fills + [f];
    forall j | 0 <= j < |fills|
      ensures BackedFill(s.approvals[i := row], fills[j])
    {
      if j < |s.fills| { assert BackedFill(s.approvals, s.fills[j]); }
      FindAfterUpdate(s.approvals, i, row, fills[j].approvalId);
    }
  }

  lemma {:induction false} FillKeepsFilled(s: Ledger, f: Fill)
    requires UniqueIds(s.approvals) && FilledExactly(s.approvals, s.fills) && FillFits(s, f)
    ensures var i := FindApproval(s.approvals, f.approvalId);
      FilledExactly(s.approvals[i := FillRow(s.approvals[i], f.buy, f.sell)], s.fills + [f])
  {
    hide Times, FindApproval, Honours;
    var i := FindApproval(s.approvals, f.approvalId);
    var approvals := s.approvals[i := FillRow(s.approvals[i], f.buy, f.sell)];
    forall n | 0 <= n < |approvals|
      ensures FilledBy(approvals[n], s.fills + [f])
    {
      assert FilledBy(s.approvals[n], s.fills);
      var id := s.approvals[n].params.approvalId;
      FindUnique(s.approvals, n);
      SumAppend(s.fills, f, BuyFor(id));
      SumAppend(s.fills, f, SellFor(id));
    }
  }

  lemma {:induction false} FillKeepsBooks(s: Ledger, f: Fill)
    requires Represented(s) && BooksBalance(s) && FillFits(s, f)
    ensures BooksBalance(InsertFill(s, f).ledger)
  {
    hide Times, FindApproval, FilledBy, BackedFill, NotOverfilled, Honours;
    FittingFillAccepted(s, f);
    var i := FindApproval(s.approvals, f.approvalId);
    var after := InsertFill(s, f).ledger;
    var row := FillRow(s.approvals[i], f.buy, f.sell);
    assert NotOverfilled(s.approvals[i]);
    FillRowNotOverfilled(s.approvals[i], f);
    FillKeepsBacked(s, f, row);
    FillKeepsFilled(s, f);
    assert after.accounts.Keys >= s.accounts.Keys;
  }
}
