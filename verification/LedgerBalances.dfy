// How one posting moves opening and available balances, and when the balance cache stays exact.
module LedgerBalances {
  import opened BasicTypes
  import opened Ledgers

  lemma AccountAfterPost(accounts: map<Key, Account>, k: Key, d: Account, other: Key)
    ensures AccountAt(Post(accounts, k, d), other)
            == if other == k then Plus(AccountAt(accounts, k), d) else AccountAt(accounts, other)
  {
  }

  lemma NetOfPlus(a: Account, d: Account)
    ensures Net(Plus(a, d)) == Net(a) + Net(d)
  {
  }

  /** A posting shifts the opening balance of later rounds by its net amount, and nothing else. */
  lemma {:induction false} OpeningAfterPost(accounts: map<Key, Account>, k: Key, d: Account,
                                            asset: Address, wallet: Address, round: Round)
    ensures Opening(Post(accounts, k, d), asset, wallet, round)
            == Opening(accounts, asset, wallet, round)
               + if k.asset == asset && k.wallet == wallet && k.round < round then Net(d) else 0.0
    decreases round
  {
    hide Post, AccountAt;
    if round > 0 {
      OpeningAfterPost(accounts, k, d, asset, wallet, round - 1);
      AccountAfterPost(accounts, k, d, Key(round - 1, asset, wallet));
      NetOfPlus(AccountAt(accounts, k), d);
      hide Net, Plus;
    }
  }

  lemma {:induction false} AvailableAfterPost(accounts: map<Key, Account>, k: Key, d: Account,
                                              asset: Address, wallet: Address, round: Round)
    ensures Available(Post(accounts, k, d), asset, wallet, round)
            == Available(accounts, asset, wallet, round)
               + (if k.asset == asset && k.wallet == wallet && k.round <= round then Net(d) else 0.0)
               - (if k == Key(round, asset, wallet) then d.locked else 0.0)
  {
    OpeningAfterPost(accounts, k, d, asset, wallet, round + 1);
    AccountAfterPost(accounts, k, d, Key(round, asset, wallet));
  }

  /** Only rows of earlier rounds count: ledgers that agree on them open alike. */
  lemma {:induction false} OpeningLocal(a: map<Key, Account>, b: map<Key, Account>,
                                        asset: Address, wallet: Address, round: Round)
    requires forall r: Round :: r < round ==> AccountAt(a, Key(r, asset, wallet)) == AccountAt(b, Key(r, asset, wallet))
    ensures Opening(a, asset, wallet, round) == Opening(b, asset, wallet, round)
    decreases round
  {
    hide AccountAt, Net;
    if round > 0 {
      OpeningLocal(a, b, asset, wallet, round - 1);
    }
  }

  /** All that this account has after `round` is deposits that came early. */
  ghost predicate LaterDepositsOnly(accounts: map<Key, Account>, asset: Address, wallet: Address, round: Round) {
    forall r: Round :: r > round ==> DepositsOnly(AccountAt(accounts, Key(r, asset, wallet)))
  }

  predicate DepositsOnly(row: Account) {
    row.deposited >= 0.0 && row == NO_MOVEMENT.(deposited := row.deposited)
  }

  lemma {:induction false} OpeningGrows(accounts: map<Key, Account>, asset: Address, wallet: Address,
                                        round: Round, later: Round)
    requires LaterDepositsOnly(accounts, asset, wallet, round) && later > round
    ensures Opening(accounts, asset, wallet, later) >= Opening(accounts, asset, wallet, round + 1)
    decreases later
  {
    hide AccountAt;
    if later > round + 1 {
      OpeningGrows(accounts, asset, wallet, round, later - 1);
      assert DepositsOnly(AccountAt(accounts, Key(later - 1, asset, wallet)));
    }
  }

  // --- Non-negative balances ------------------------------------------------------------------

  ghost predicate NonNegative(accounts: map<Key, Account>) {
    && (forall asset: Address, wallet: Address, round: Round :: Available(accounts, asset, wallet, round) >= 0.0)
    && (forall k :: AccountAt(accounts, k).locked >= 0.0)
  }

  lemma OpeningNonNegative(accounts: map<Key, Account>, asset: Address, wallet: Address, round: Round)
    requires NonNegative(accounts)
    ensures Opening(accounts, asset, wallet, round) >= 0.0
  {
    if round > 0 {
      assert Available(accounts, asset, wallet, round - 1) >= 0.0;
      assert AccountAt(accounts, Key(round - 1, asset, wallet)).locked >= 0.0;
    }
  }

  /**
   * A posting keeps every balance non-negative when it is covered in its own round and either adds
   * for good or is followed by early deposits only and covered by what the round settles to.
   */
  lemma {:induction false} PostKeepsNonNegative(accounts: map<Key, Account>, k: Key, d: Account)
    requires NonNegative(accounts)
    requires Available(accounts, k.asset, k.wallet, k.round) + Net(d) - d.locked >= 0.0
    requires AccountAt(accounts, k).locked + d.locked >= 0.0
    requires Net(d) >= 0.0 || LaterDepositsOnly(accounts, k.asset, k.wallet, k.round)
    ensures NonNegative(Post(accounts, k, d))
  {
    hide Opening, Available, Net;
    var after := Post(accounts, k, d);
    forall other
      ensures AccountAt(after, other).locked >= 0.0
    {
      assert AccountAt(accounts, other).locked >= 0.0;
      AccountAfterPost(accounts, k, d, other);
    }
    forall asset: Address, wallet: Address, round: Round
      ensures Available(after, asset, wallet, round) >= 0.0
    {
      assert Available(accounts, asset, wallet, round) >= 0.0;
      AvailableAfterPost(accounts, k, d, asset, wallet, round);
      if asset == k.asset && wallet == k.wallet && round > k.round && Net(d) < 0.0 {
        SettledCover(accounts, k, d, round);
      }
    }
  }

  /** With only deposits after it, a later round has available at least what the row's round settled to. */
  lemma {:induction false} SettledCover(accounts: map<Key, Account>, k: Key, d: Account, round: Round)
    requires LaterDepositsOnly(accounts, k.asset, k.wallet, k.round) && round > k.round
    requires Available(accounts, k.asset, k.wallet, k.round) + Net(d) - d.locked >= 0.0
    requires AccountAt(accounts, k).locked + d.locked >= 0.0
    ensures Available(accounts, k.asset, k.wallet, round) + Net(d) >= 0.0
  {
    hide Net, AccountAt;
    OpeningGrows(accounts, k.asset, k.wallet, k.round, round + 1);
    assert DepositsOnly(AccountAt(accounts, Key(round, k.asset, k.wallet)));
  }

  // --- The balance cache ----------------------------------------------------------------------

  /** Every remembered balance is the one a full sum would give. */
  ghost predicate CacheExact(accounts: map<Key, Account>, cache: map<(Address, Address), Cached>) {
    forall key :: key in cache ==> cache[key].balance == Available(accounts, key.0, key.1, cache[key].round)
  }

  /** Reading through the cache gives the full sum, and leaves an exact cache. */
  lemma ReadBalanceExact(s: Ledger, asset: Address, wallet: Address, round: Round)
    requires CacheExact(s.accounts, s.cache)
    ensures ReadBalance(s, asset, wallet, round).1 == Available(s.accounts, asset, wallet, round)
    ensures ReadBalance(s, asset, wallet, round).0 == s.(cache := ReadBalance(s, asset, wallet, round).0.cache)
    ensures CacheExact(s.accounts, ReadBalance(s, asset, wallet, round).0.cache)
    ensures var cache := ReadBalance(s, asset, wallet, round).0.cache;
      (asset, wallet) in cache && cache[(asset, wallet)].round == round
    ensures forall key :: key != (asset, wallet) ==>
      (key in ReadBalance(s, asset, wallet, round).0.cache <==> key in s.cache)
      && (key in s.cache ==> ReadBalance(s, asset, wallet, round).0.cache[key] == s.cache[key])
  {
    hide Available;
  }

  /** The account has no balance remembered for a round after `round`. */
  predicate NotCachedLater(cache: map<(Address, Address), Cached>, asset: Address, wallet: Address, round: Round) {
    (asset, wallet) in cache ==> cache[(asset, wallet)].round <= round
  }

  /**
   * A posting patched by its own effect leaves the cache exact if and only if it settles nothing or
   * the account's remembered round is not after the posting's.
   */
  lemma {:induction false} PatchExactIff(accounts: map<Key, Account>, cache: map<(Address, Address), Cached>, k: Key, d: Account)
    requires CacheExact(accounts, cache)
    ensures CacheExact(Post(accounts, k, d), PatchCache(cache, k.asset, k.wallet, k.round, Net(d) - d.locked))
            <==> NotCachedLater(cache, k.asset, k.wallet, k.round) || Net(d) == 0.0
  {
    hide Available, Net;
    var after := Post(accounts, k, d);
    var patched := PatchCache(cache, k.asset, k.wallet, k.round, Net(d) - d.locked);
    assert patched.Keys == cache.Keys;
    forall key | key in cache
      ensures patched[key].round == cache[key].round
      ensures patched[key].balance == Available(after, key.0, key.1, cache[key].round)
              <==> key != (k.asset, k.wallet) || cache[key].round <= k.round || Net(d) == 0.0
    {
      AvailableAfterPost(accounts, k, d, key.0, key.1, cache[key].round);
    }
    if (k.asset, k.wallet) in cache {
      var key := (k.asset, k.wallet);
      assert CacheExact(after, patched) ==> patched[key].balance == Available(after, key.0, key.1, patched[key].round);
    }
  }

  // --- Amounts of stored orders ---------------------------------------------------------------

  lemma ValidAmounts(s: Ledger, order: Approval, fee: Approval)
    requires ValidateOrder(s, order, fee).Ok()
    ensures OrderAmounts(order) && FeeAmounts(fee)
  {
    hide ValidateBacking;
  }

  /** Only orders within the schema's bounds are stored. */
  lemma StoredAmounts(s: Ledger, order: Approval, fee: Approval)
    requires InsertOrder(s, order, fee).Ok()
    ensures OrderAmounts(order) && FeeAmounts(fee)
  {
    hide ValidateBacking, DoInsertApproval;
  }
}
