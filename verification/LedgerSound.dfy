// The ledger's invariant, and each kind of write that keeps it.
module LedgerSound {
  import opened BasicTypes
  import opened BigNumbers
  import opened Sums
  import opened Ledgers
  import opened LedgerBalances
  import opened LedgerBooks

  /** What a fill does to one account row. */
  function NetAt(k: Key): Fill -> Amount {
    (f: Fill) => BoughtAt(k)(f) - SoldAt(k)(f)
  }

  /** A round's opening balance and all its deposits, carried through the first `n` fills. */
  function RunningBalance(accounts: map<Key, Account>, fills: seq<Fill>, k: Key, n: nat): Amount
    requires n <= |fills|
  {
    Opening(accounts, k.asset, k.wallet, k.round) + AccountAt(accounts, k).deposited + SumBy(fills[..n], NetAt(k))
  }

  /** At no point of the fill sequence has any wallet spent more than it had. */
  ghost predicate PrefixCovered(accounts: map<Key, Account>, fills: seq<Fill>) {
    forall k, n :: 0 <= n <= |fills| ==> RunningBalance(accounts, fills, k, n) >= 0.0
  }

  /** Money only leaves through positive requests, one pending request at a time per account. */
  ghost predicate WithdrawalsInOrder(withdrawals: seq<Withdrawal>) {
    && (forall i :: 0 <= i < |withdrawals| && Effective(withdrawals[i]) ==> withdrawals[i].amount > 0.0)
    && (forall i, j :: 0 <= i < j < |withdrawals| && withdrawals[i].status.Pending? && withdrawals[j].status.Pending?
          ==> withdrawals[i].asset != withdrawals[j].asset || withdrawals[i].wallet != withdrawals[j].wallet)
  }

  ghost predicate WalletsKnown(s: Ledger) {
    && (forall i, j :: 0 <= i < j < |s.wallets| ==> s.wallets[i].wallet != s.wallets[j].wallet)
    && (forall i :: 0 <= i < |s.approvals| ==> IsRegistered(s.wallets, s.approvals[i].params.owner))
    && (forall i :: 0 <= i < |s.deposits| ==> IsRegistered(s.wallets, s.deposits[i].wallet))
    && (forall i :: 0 <= i < |s.withdrawals| && Effective(s.withdrawals[i])
          ==> IsRegistered(s.wallets, s.withdrawals[i].wallet))
  }

  ghost predicate DepositsPositive(deposits: seq<Deposit>) {
    forall i :: 0 <= i < |deposits| ==> deposits[i].amount > 0.0
  }

  ghost predicate Sound(s: Ledger) {
    && Represented(s)
    && BooksBalance(s)
    && NonNegative(s.accounts)
    && PrefixCovered(s.accounts, s.fills)
    && WithdrawalsInOrder(s.withdrawals)
    && DepositsPositive(s.deposits)
    && WalletsKnown(s)
    && CacheExact(s.accounts, s.cache)
  }

  // --- The running balance --------------------------------------------------------------------

  /** No fill moves this account after the round of `k`. */
  ghost predicate QuietLater(fills: seq<Fill>, k: Key) {
    forall j, r: Round :: 0 <= j < |fills| && r > k.round ==> NetAt(Key(r, k.asset, k.wallet))(fills[j]) == 0.0
  }

  /** Fills leave their mark on account rows, so rows of deposits only have none. */
  lemma {:induction false} DepositsOnlyIsQuiet(s: Ledger, k: Key)
    requires Represented(s) && BooksBalance(s) && LaterDepositsOnly(s.accounts, k.asset, k.wallet, k.round)
    ensures QuietLater(s.fills, k)
  {
    hide SumBy, AccountAt, BooksBalance;
    FillAmountsNonNegative(s);
    forall j, r: Round | 0 <= j < |s.fills| && r > k.round
      ensures NetAt(Key(r, k.asset, k.wallet))(s.fills[j]) == 0.0
    {
      var later := Key(r, k.asset, k.wallet);
      assert DepositsOnly(AccountAt(s.accounts, later)) && AccountAt(s.accounts, later) == Recorded(s, later);
      SumMember(s.fills, j, BoughtAt(later));
      SumMember(s.fills, j, SoldAt(later));
    }
  }

  lemma FillAmountsNonNegative(s: Ledger)
    requires BooksBalance(s)
    ensures forall j :: 0 <= j < |s.fills| ==> s.fills[j].buy >= 0.0 && s.fills[j].sell >= 0.0
  {
    hide FindApproval, Times, NoneOverfilled, FilledExactly, RowsExist;
    forall j | 0 <= j < |s.fills|
      ensures s.fills[j].buy >= 0.0 && s.fills[j].sell >= 0.0
    {
      assert BackedFill(s.approvals, s.fills[j]);
    }
  }

  lemma QuietSum(fills: seq<Fill>, k: Key, later: Key, n: nat)
    requires QuietLater(fills, k) && n <= |fills|
    requires later.asset == k.asset && later.wallet == k.wallet && later.round > k.round
    ensures SumBy(fills[..n], NetAt(later)) == 0.0
  {
    hide SumBy;
    assert later == Key(later.round, k.asset, k.wallet);
    assert forall j :: 0 <= j < n ==> NetAt(later)(fills[j]) == 0.0;
    SumZero(fills[..n], NetAt(later));
  }

  lemma {:induction false} PostKeepsPrefix(accounts: map<Key, Account>, fills: seq<Fill>, k: Key, d: Account)
    requires PrefixCovered(accounts, fills) && d.deposited >= 0.0
    requires || Net(d) >= 0.0
             || (LaterDepositsOnly(accounts, k.asset, k.wallet, k.round) && QuietLater(fills, k)
                 && NonNegative(Post(accounts, k, d)))
    ensures PrefixCovered(Post(accounts, k, d), fills)
  {
    hide Opening, Net, Post, AccountAt, NonNegative;
    var after := Post(accounts, k, d);
    forall other, n | 0 <= n <= |fills|
      ensures RunningBalance(after, fills, other, n) >= 0.0
    {
      assert RunningBalance(accounts, fills, other, n) >= 0.0;
      OpeningAfterPost(accounts, k, d, other.asset, other.wallet, other.round);
      AccountAfterPost(accounts, k, d, other);
      if Net(d) < 0.0 && other.asset == k.asset && other.wallet == k.wallet && other.round > k.round {
        LaterRoundCovered(accounts, fills, k, d, other, n);
      }
    }
  }

  lemma {:induction false} LaterRoundCovered(accounts: map<Key, Account>, fills: seq<Fill>, k: Key, d: Account, later: Key, n: nat)
    requires LaterDepositsOnly(accounts, k.asset, k.wallet, k.round) && QuietLater(fills, k) && n <= |fills|
    requires NonNegative(Post(accounts, k, d))
    requires later.asset == k.asset && later.wallet == k.wallet && later.round > k.round
    ensures RunningBalance(Post(accounts, k, d), fills, later, n) >= 0.0
  {
    hide Opening, NonNegative, Post, AccountAt;
    assert later == Key(later.round, k.asset, k.wallet) && DepositsOnly(AccountAt(accounts, later));
    AccountAfterPost(accounts, k, d, later);
    QuietSum(fills, k, later, n);
    OpeningNonNegative(Post(accounts, k, d), later.asset, later.wallet, later.round);
  }

  /** After all fills of a round the running balance is what the round settles to, before withdrawals. */
  lemma {:induction false} RunningBalanceAtEnd(s: Ledger, k: Key)
    requires Represented(s)
    ensures RunningBalance(s.accounts, s.fills, k, |s.fills|)
            == Opening(s.accounts, k.asset, k.wallet, k.round + 1) + AccountAt(s.accounts, k).withdrawn
  {
    assert s.fills[..|s.fills|] == s.fills;
    SumAdd(s.fills, NetAt(k), SoldAt(k), BoughtAt(k));
    assert AccountAt(s.accounts, k) == Recorded(s, k);
    assert k == Key(k.round, k.asset, k.wallet);
  }

  lemma WithdrawnNonNegative(s: Ledger, k: Key)
    requires Represented(s) && WithdrawalsInOrder(s.withdrawals)
    ensures AccountAt(s.accounts, k).withdrawn >= 0.0
  {
    assert AccountAt(s.accounts, k) == Recorded(s, k);
    SumNonNegative(s.withdrawals, WithdrawnAt(k));
  }

  // --- Writes that keep the invariant ---------------------------------------------------------

  lemma RegisterSound(s: Ledger, wallet: Address, round: Round)
    requires Sound(s)
    ensures Sound(Register(s, wallet, round))
  {
    hide Represented, BooksBalance, NonNegative, PrefixCovered, CacheExact;
    var after := Register(s, wallet, round);
    RegisterFrames(s, wallet, round);
    assert forall w :: IsRegistered(s.wallets, w) ==> IsRegistered(after.wallets, w) by {
      forall w | IsRegistered(s.wallets, w)
        ensures IsRegistered(after.wallets, w)
      {
        var i :| 0 <= i < |s.wallets| && s.wallets[i].wallet == w;
        assert after.wallets[i].wallet == w;
      }
    }
  }

  lemma RegisterFrames(s: Ledger, wallet: Address, round: Round)
    requires Represented(s) && BooksBalance(s)
    ensures Represented(Register(s, wallet, round)) && BooksBalance(Register(s, wallet, round))
  {
    var after := Register(s, wallet, round);
    forall k
      ensures AccountAt(after.accounts, k) == Recorded(after, k)
    {
      assert AccountAt(s.accounts, k) == Recorded(s, k);
    }
  }

  lemma CacheOnlySound(s: Ledger, cache: map<(Address, Address), Cached>)
    requires Sound(s) && CacheExact(s.accounts, cache)
    ensures Sound(s.(cache := cache))
  {
    hide NonNegative, PrefixCovered, CacheExact, NoneOverfilled, FilledExactly, FillsBacked, RowsExist;
    var after := s.(cache := cache);
    forall k
      ensures AccountAt(after.accounts, k) == Recorded(after, k)
    {
      assert AccountAt(s.accounts, k) == Recorded(s, k);
    }
  }

  lemma ReadSound(s: Ledger, asset: Address, wallet: Address, round: Round)
    requires Sound(s)
    ensures Sound(ReadBalance(s, asset, wallet, round).0)
  {
    hide Sound;
    assert CacheExact(s.accounts, s.cache) by { SoundParts(s); }
    ReadBalanceExact(s, asset, wallet, round);
    CacheOnlySound(s, ReadBalance(s, asset, wallet, round).0.cache);
  }

  lemma SoundParts(s: Ledger)
    requires Sound(s)
    ensures Represented(s) && BooksBalance(s) && NonNegative(s.accounts) && PrefixCovered(s.accounts, s.fills)
    ensures WithdrawalsInOrder(s.withdrawals) && DepositsPositive(s.deposits) && WalletsKnown(s) && CacheExact(s.accounts, s.cache)
  {
  }

  lemma {:induction false} DepositSound(s: Ledger, asset: Address, wallet: Address, amount: Amount, round: Round)
    requires Sound(s) && IsRegistered(s.wallets, wallet) && amount > 0.0
    requires NotCachedLater(s.cache, asset, wallet, round)
    ensures Sound(CreditDeposit(s, asset, wallet, amount, round).ledger)
  {
    hide Represented, NonNegative, PrefixCovered, CacheExact, Opening, Available, PatchCache;
    hide NoneOverfilled, FilledExactly, FillsBacked;
    var k := Key(round, asset, wallet);
    var d := NO_MOVEMENT.(deposited := amount);
    assert Net(d) == amount;
    DepositRepresented(s, Deposit(asset, wallet, amount, round));
    DepositFrame(s, asset, wallet, amount, round);
    AvailableIsNonNegative(s.accounts, k);
    PostKeepsNonNegative(s.accounts, k, d);
    PostKeepsPrefix(s.accounts, s.fills, k, d);
    PatchExactIff(s.accounts, s.cache, k, d);
  }

  /** The cache has no part in what the tables say. */
  lemma DepositFrame(s: Ledger, asset: Address, wallet: Address, amount: Amount, round: Round)
    requires Represented(s.(
      accounts := Post(s.accounts, Key(round, asset, wallet), NO_MOVEMENT.(deposited := amount)),
      deposits := s.deposits + [Deposit(asset, wallet, amount, round)]))
    ensures Represented(s.(
      accounts := Post(s.accounts, Key(round, asset, wallet), NO_MOVEMENT.(deposited := amount)),
      deposits := s.deposits + [Deposit(asset, wallet, amount, round)],
      cache := PatchCache(s.cache, asset, wallet, round, amount)))
  {
    hide Post, AccountAt, PatchCache;
    var before := s.(accounts := Post(s.accounts, Key(round, asset, wallet), NO_MOVEMENT.(deposited := amount)),
                     deposits := s.deposits + [Deposit(asset, wallet, amount, round)]);
    var after := before.(cache := PatchCache(s.cache, asset, wallet, round, amount));
    forall k
      ensures AccountAt(after.accounts, k) == Recorded(after, k)
    {
      assert AccountAt(before.accounts, k) == Recorded(before, k);
    }
  }

  lemma AvailableIsNonNegative(accounts: map<Key, Account>, k: Key)
    requires NonNegative(accounts)
    ensures Available(accounts, k.asset, k.wallet, k.round) >= 0.0
    ensures AccountAt(accounts, k).locked >= 0.0
  {
  }

  /** A covered approval can be locked; the running balance and the cache do not notice. */
  lemma {:induction false} LockSound(s: Ledger, a: Approval)
    requires Sound(s) && WellFormed(a) && !HasApproval(s.approvals, a.approvalId)
    requires IsRegistered(s.wallets, a.owner)
    requires a.sell <= Available(s.accounts, a.sellAsset, a.owner, a.round)
    ensures Sound(LockApproval(s, a))
  {
    hide Represented, BooksBalance, NonNegative, PrefixCovered, CacheExact, Opening, Available, PatchCache, FindApproval;
    var k := SellKey(a);
    var d := NO_MOVEMENT.(locked := a.sell);
    assert Net(d) == 0.0;
    LockRepresented(s, a);
    LockKeepsBooks(s, a);
    AvailableIsNonNegative(s.accounts, k);
    PostKeepsNonNegative(s.accounts, k, d);
    PostKeepsPrefix(s.accounts, s.fills, k, d);
    PatchExactIff(s.accounts, s.cache, k, d);
  }

  lemma {:induction false} CancelSound(s: Ledger, id: Id)
    requires Sound(s)
    ensures Sound(CancelApproval(s, id).ledger)
  {
    hide Represented, NonNegative, PrefixCovered, CacheExact, Opening, Available, PatchCache, FindApproval, BooksBalance;
    var after := CancelApproval(s, id).ledger;
    if after != s {
      var row := s.approvals[FindApproval(s.approvals, id)];
      var k := SellKey(row.params);
      var d := NO_MOVEMENT.(locked := -Outstanding(row));
      assert Net(d) == 0.0;
      CancelRepresented(s, id);
      CancelKeepsBooks(s, id);
      AvailableIsNonNegative(s.accounts, k);
      OutstandingWithinLock(s, id);
      PostKeepsNonNegative(s.accounts, k, d);
      PostKeepsPrefix(s.accounts, s.fills, k, d);
      PatchExactIff(s.accounts, s.cache, k, d);
    }
  }

  lemma OutstandingWithinLock(s: Ledger, id: Id)
    requires Represented(s) && BooksBalance(s) && HasApproval(s.approvals, id)
    requires !s.approvals[FindApproval(s.approvals, id)].status.Canceled?
    ensures var row := s.approvals[FindApproval(s.approvals, id)];
      0.0 <= Outstanding(row) <= AccountAt(s.accounts, SellKey(row.params)).locked
  {
    hide Represented, FindApproval, Times;
    var i := FindApproval(s.approvals, id);
    assert NotOverfilled(s.approvals[i]);
    LockCoversRow(s, i);
  }

  /** The dates at which a fill of this wallet may be posted: nothing newer is written or remembered. */
  ghost predicate Timely(s: Ledger, f: Fill) {
    && LaterDepositsOnly(s.accounts, f.sellAsset, f.clientAddress, f.round)
    && NotCachedLater(s.cache, f.sellAsset, f.clientAddress, f.round)
    && NotCachedLater(s.cache, f.buyAsset, f.clientAddress, f.round)
  }

  lemma {:induction false} FillBalances(s: Ledger, f: Fill)
    requires Sound(s) && FillFits(s, f) && LaterDepositsOnly(s.accounts, f.sellAsset, f.clientAddress, f.round)
    ensures NonNegative(PostFill(s.accounts, f))
    ensures PrefixCovered(PostFill(s.accounts, f), s.fills)
  {
    hide Represented, NonNegative, PrefixCovered, CacheExact, FillFits, BooksBalance, LaterDepositsOnly, QuietLater, Post;
    FillWithinLock(s, f);
    DepositsOnlyIsQuiet(s, Key(f.round, f.sellAsset, f.clientAddress));
    SellSide(s.accounts, s.fills, f);
    BuySide(Post(s.accounts, Key(f.round, f.sellAsset, f.clientAddress), NO_MOVEMENT.(sold := f.sell, locked := -f.sell)),
            s.fills, f);
  }

  /** Selling from the lock leaves the round's free balance alone. */
  lemma {:induction false} SellSide(accounts: map<Key, Account>, fills: seq<Fill>, f: Fill)
    requires NonNegative(accounts) && PrefixCovered(accounts, fills)
    requires QuietLater(fills, Key(f.round, f.sellAsset, f.clientAddress))
    requires 0.0 <= f.sell <= AccountAt(accounts, Key(f.round, f.sellAsset, f.clientAddress)).locked
    requires LaterDepositsOnly(accounts, f.sellAsset, f.clientAddress, f.round)
    ensures var sold := Post(accounts, Key(f.round, f.sellAsset, f.clientAddress),
                             NO_MOVEMENT.(sold := f.sell, locked := -f.sell));
      NonNegative(sold) && PrefixCovered(sold, fills)
  {
    hide NonNegative, PrefixCovered, Opening, Available, LaterDepositsOnly, QuietLater, Post;
    var sellKey := Key(f.round, f.sellAsset, f.clientAddress);
    var sold := NO_MOVEMENT.(sold := f.sell, locked := -f.sell);
    assert Net(sold) == -f.sell;
    AvailableIsNonNegative(accounts, sellKey);
    PostKeepsNonNegative(accounts, sellKey, sold);
    PostKeepsPrefix(accounts, fills, sellKey, sold);
  }

  lemma {:induction false} BuySide(accounts: map<Key, Account>, fills: seq<Fill>, f: Fill)
    requires NonNegative(accounts) && PrefixCovered(accounts, fills) && f.buy >= 0.0
    ensures var bought := Post(accounts, Key(f.round, f.buyAsset, f.clientAddress), NO_MOVEMENT.(bought := f.buy));
      NonNegative(bought) && PrefixCovered(bought, fills)
  {
    hide NonNegative, PrefixCovered, Opening, Available, LaterDepositsOnly, QuietLater, Post;
    var buyKey := Key(f.round, f.buyAsset, f.clientAddress);
    var bought := NO_MOVEMENT.(bought := f.buy);
    assert Net(bought) == f.buy;
    AvailableIsNonNegative(accounts, buyKey);
    PostKeepsNonNegative(accounts, buyKey, bought);
    PostKeepsPrefix(accounts, fills, buyKey, bought);
  }

  lemma FillWithinLock(s: Ledger, f: Fill)
    requires Represented(s) && BooksBalance(s) && FillFits(s, f)
    ensures f.sell <= AccountAt(s.accounts, Key(f.round, f.sellAsset, f.clientAddress)).locked
    ensures f.sell >= 0.0 && f.buy >= 0.0
  {
    hide Represented, FindApproval, Times;
    var i := FindApproval(s.approvals, f.approvalId);
    assert NotOverfilled(s.approvals[i]);
    FillRowNotOverfilled(s.approvals[i], f);
    LockCoversRow(s, i);
  }

  lemma {:induction false} FillCache(s: Ledger, f: Fill)
    requires CacheExact(s.accounts, s.cache) && Timely(s, f)
    ensures CacheExact(PostFill(s.accounts, f), PatchCache(s.cache, f.buyAsset, f.clientAddress, f.round, f.buy))
  {
    hide CacheExact, Opening, Available, Post;
    var sellKey, buyKey := Key(f.round, f.sellAsset, f.clientAddress), Key(f.round, f.buyAsset, f.clientAddress);
    var sold := NO_MOVEMENT.(sold := f.sell, locked := -f.sell);
    var bought := NO_MOVEMENT.(bought := f.buy);
    PatchExactIff(s.accounts, s.cache, sellKey, sold);
    assert PatchCache(s.cache, f.sellAsset, f.clientAddress, f.round, Net(sold) - sold.locked) == s.cache;
    PatchExactIff(Post(s.accounts, sellKey, sold), s.cache, buyKey, bought);
    assert Net(bought) - bought.locked == f.buy;
  }

  /** A fitting, timely fill is accepted and keeps the whole invariant. */
  lemma {:induction false} FillSound(s: Ledger, f: Fill)
    requires Sound(s) && FillFits(s, f) && Timely(s, f)
    ensures InsertFill(s, f).Ok() && Sound(InsertFill(s, f).ledger)
  {
    hide Represented, NonNegative, PrefixCovered, CacheExact, BooksBalance, FillFits, Timely, FindApproval, PostFill, PatchCache;
    FittingFillAccepted(s, f);
    var after := InsertFill(s, f).ledger;
    FillRepresented(s, f);
    FillKeepsBooks(s, f);
    FillBalances(s, f) by { assert Timely(s, f); TimelyLaterDeposits(s, f); }
    FillCache(s, f);
    assert after.fills == s.fills + [f];
    NewestPrefix(after, s.fills, f);
    FillKeepsWallets(s, f);
  }

  lemma TimelyLaterDeposits(s: Ledger, f: Fill)
    requires Timely(s, f)
    ensures LaterDepositsOnly(s.accounts, f.sellAsset, f.clientAddress, f.round)
  {
  }

  lemma FillKeepsWallets(s: Ledger, f: Fill)
    requires WalletsKnown(s)
    ensures WalletsKnown(InsertFill(s, f).ledger)
  {
    hide FindApproval, PostFill, PatchCache, IsRegistered;
    var after := InsertFill(s, f).ledger;
    assert |after.approvals| == |s.approvals|;
    assert forall n :: 0 <= n < |s.approvals| ==> after.approvals[n].params == s.approvals[n].params;
  }

  lemma {:induction false} NewestPrefix(after: Ledger, fills: seq<Fill>, f: Fill)
    requires Represented(after) && NonNegative(after.accounts) && WithdrawalsInOrder(after.withdrawals)
    requires after.fills == fills + [f] && PrefixCovered(after.accounts, fills)
    ensures PrefixCovered(after.accounts, after.fills)
  {
    hide Represented, NonNegative, Opening, WithdrawalsInOrder;
    forall k, n | 0 <= n <= |after.fills|
      ensures RunningBalance(after.accounts, after.fills, k, n) >= 0.0
    {
      if n <= |fills| {
        assert after.fills[..n] == fills[..n];
        assert RunningBalance(after.accounts, fills, k, n) >= 0.0;
      } else {
        RunningBalanceAtEnd(after, k);
        WithdrawnNonNegative(after, k);
        OpeningNonNegative(after.accounts, k.asset, k.wallet, k.round + 1);
      }
    }
  }

  // --- Withdrawals ----------------------------------------------------------------------------

  /** Nobody without a wallet entry has anything to withdraw. */
  lemma {:induction false} StrangersHaveNothing(s: Ledger, asset: Address, wallet: Address, round: Round)
    requires Represented(s) && BooksBalance(s) && WalletsKnown(s) && WithdrawalsInOrder(s.withdrawals)
    requires !IsRegistered(s.wallets, wallet)
    ensures Opening(s.accounts, asset, wallet, round) == 0.0
    decreases round
  {
    if round > 0 {
      StrangersHaveNothing(s, asset, wallet, round - 1);
      StrangerRow(s, Key(round - 1, asset, wallet));
    }
  }

  lemma {:induction false} StrangerRow(s: Ledger, k: Key)
    requires Represented(s) && BooksBalance(s) && WalletsKnown(s)
    requires !IsRegistered(s.wallets, k.wallet)
    ensures AccountAt(s.accounts, k) == NO_MOVEMENT
  {
    hide FindApproval, IsRegistered, Times, Honours;
    assert AccountAt(s.accounts, k) == Recorded(s, k);
    SumZero(s.deposits, DepositAt(k));
    SumZero(s.withdrawals, WithdrawnAt(k));
    SumZero(s.approvals, LockedAt(k));
    forall j | 0 <= j < |s.fills|
      ensures s.fills[j].clientAddress != k.wallet
    {
      assert BackedFill(s.approvals, s.fills[j]);
    }
    SumZero(s.fills, BoughtAt(k));
    SumZero(s.fills, SoldAt(k));
  }

  lemma OwnersAreRegistered(s: Ledger, asset: Address, wallet: Address, round: Round)
    requires Sound(s) && Available(s.accounts, asset, wallet, round) > 0.0
    ensures IsRegistered(s.wallets, wallet)
  {
    hide Represented, BooksBalance, WalletsKnown, WithdrawalsInOrder, PrefixCovered, CacheExact, Opening, NonNegative;
    if !IsRegistered(s.wallets, wallet) {
      StrangersHaveNothing(s, asset, wallet, round + 1);
      AvailableIsNonNegative(s.accounts, Key(round, asset, wallet));
      assert false;
    }
  }

  /** A request that may start to take money out. */
  ghost predicate Payable(s: Ledger, w: Withdrawal) {
    && 0.0 < w.amount <= Available(s.accounts, w.asset, w.wallet, w.round)
    && LaterDepositsOnly(s.accounts, w.asset, w.wallet, w.round)
    && NotCachedLater(s.cache, w.asset, w.wallet, w.round)
    && FindWithdrawal(s.withdrawals, w.asset, w.wallet, {Pending}) == |s.withdrawals|
  }

  /** The table with the request pending: appended, or in place of its unchecked row. */
  ghost predicate MadePending(before: seq<Withdrawal>, w: Withdrawal, after: seq<Withdrawal>) {
    || after == before + [w.(status := Pending)]
    || exists i :: 0 <= i < |before| && before[i] == w && w.status.Unchecked? && after == before[i := w.(status := Pending)]
  }

  lemma {:induction false} PendingKeepsOrder(before: seq<Withdrawal>, w: Withdrawal, after: seq<Withdrawal>)
    requires WithdrawalsInOrder(before) && MadePending(before, w, after) && w.amount > 0.0
    requires FindWithdrawal(before, w.asset, w.wallet, {Pending}) == |before|
    ensures WithdrawalsInOrder(after)
  {
    assert forall j :: 0 <= j < |before| && before[j].status.Pending? ==>
      before[j].asset != w.asset || before[j].wallet != w.wallet;
  }

  lemma {:induction false} WithdrawSound(s: Ledger, w: Withdrawal, withdrawals: seq<Withdrawal>)
    requires Sound(s) && Payable(s, w) && MadePending(s.withdrawals, w, withdrawals)
    ensures Sound(PostWithdrawal(s, w, withdrawals))
  {
    hide Represented, NonNegative, PrefixCovered, CacheExact, Opening, Available, PatchCache, FindWithdrawal, LaterDepositsOnly, QuietLater;
    var k := Key(w.round, w.asset, w.wallet);
    var d := NO_MOVEMENT.(withdrawn := w.amount);
    assert Net(d) == -w.amount;
    WithdrawalRepresented(s, w, withdrawals);
    OwnersAreRegistered(s, w.asset, w.wallet, w.round);
    PendingKeepsOrder(s.withdrawals, w, withdrawals);
    AvailableIsNonNegative(s.accounts, k);
    PostKeepsNonNegative(s.accounts, k, d);
    DepositsOnlyIsQuiet(s, k);
    PostKeepsPrefix(s.accounts, s.fills, k, d);
    PatchExactIff(s.accounts, s.cache, k, d);
    WithdrawKeepsBooks(s, w, withdrawals);
    WithdrawKeepsWallets(s, w, withdrawals);
  }

  lemma WithdrawKeepsBooks(s: Ledger, w: Withdrawal, withdrawals: seq<Withdrawal>)
    requires BooksBalance(s)
    ensures BooksBalance(PostWithdrawal(s, w, withdrawals))
  {
    hide PatchCache, NoneOverfilled, FilledExactly, FillsBacked;
  }

  lemma WithdrawKeepsWallets(s: Ledger, w: Withdrawal, withdrawals: seq<Withdrawal>)
    requires WalletsKnown(s) && MadePending(s.withdrawals, w, withdrawals) && IsRegistered(s.wallets, w.wallet)
    ensures WalletsKnown(PostWithdrawal(s, w, withdrawals))
  {
    hide PatchCache, IsRegistered, Post;
  }

  lemma {:induction false} CancelWithdrawalSound(s: Ledger, asset: Address, wallet: Address)
    requires Sound(s)
    requires var i := FindWithdrawal(s.withdrawals, asset, wallet, {Pending, Unchecked});
      i < |s.withdrawals| && s.withdrawals[i].status.Pending? ==>
        NotCachedLater(s.cache, asset, wallet, s.withdrawals[i].round)
    ensures Sound(CancelWithdrawal(s, asset, wallet).ledger)
  {
    hide Represented, NonNegative, PrefixCovered, CacheExact, Opening, Available, PatchCache;
    hide NoneOverfilled, FilledExactly, FillsBacked, IsRegistered, FindWithdrawal;
    var i := FindWithdrawal(s.withdrawals, asset, wallet, {Pending, Unchecked});
    var after := CancelWithdrawal(s, asset, wallet).ledger;
    CancelWithdrawalRepresented(s, asset, wallet);
    if after != s && s.withdrawals[i].status.Pending? {
      var w := s.withdrawals[i];
      var k := Key(w.round, asset, wallet);
      var d := NO_MOVEMENT.(withdrawn := -w.amount);
      assert w.amount > 0.0 by { assert Effective(w); }
      assert Net(d) == w.amount;
      AvailableIsNonNegative(s.accounts, k);
      PostKeepsNonNegative(s.accounts, k, d);
      PostKeepsPrefix(s.accounts, s.fills, k, d);
      PatchExactIff(s.accounts, s.cache, k, d);
    }
  }

  lemma {:induction false} ConfirmSound(s: Ledger, asset: Address, wallet: Address)
    requires Sound(s)
    ensures Sound(ConfirmWithdrawal(s, asset, wallet).ledger)
  {
    hide Represented, NonNegative, PrefixCovered, CacheExact;
    hide NoneOverfilled, FilledExactly, FillsBacked, IsRegistered, FindWithdrawal;
    ConfirmRepresented(s, asset, wallet);
    var i := FindWithdrawal(s.withdrawals, asset, wallet, {Pending});
    assert i < |s.withdrawals| ==> Effective(s.withdrawals[i]);
  }

  lemma {:induction false} RequestSound(s: Ledger, w: Withdrawal)
    requires Sound(s) && !Effective(w)
    ensures Sound(InsertWithdrawal(s, w).ledger)
  {
    hide Represented, NonNegative, PrefixCovered, CacheExact;
    hide NoneOverfilled, FilledExactly, FillsBacked, IsRegistered, HasTransaction;
    RequestRepresented(s, w);
  }

  lemma {:induction false} StartSound(assets: set<Address>, operator: Address)
    ensures Sound(Start(assets, operator)) && IsRegistered(Start(assets, operator).wallets, operator)
    ensures Start(assets, operator).wallets == [WalletEntry(operator, 0)]
  {
    hide NonNegative, PrefixCovered, Opening;
    var s := Start(assets, operator);
    assert s.wallets[0].wallet == operator;
    EmptyBalances();
    assert Represented(s) by {
      forall k
        ensures AccountAt(s.accounts, k) == Recorded(s, k)
      {
      }
    }
  }

  lemma {:induction false} EmptyBalances()
    ensures NonNegative(map[]) && PrefixCovered(map[], [])
  {
    forall asset: Address, wallet: Address, round: Round
      ensures Opening(map[], asset, wallet, round) == 0.0
    {
      EmptyOpening(asset, wallet, round);
    }
  }

  lemma {:induction false} EmptyOpening(asset: Address, wallet: Address, round: Round)
    ensures Opening(map[], asset, wallet, round) == 0.0
    decreases round
  {
    if round > 0 {
      EmptyOpening(asset, wallet, round - 1);
    }
  }
}
