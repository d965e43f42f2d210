// The solvency tree of a round: whose balances it holds, that they prove, and what they add up to.
module Solvency {
  import opened BasicTypes
  import opened BigNumbers
  import opened Sums
  import opened MerkleTree
  import opened Ledgers
  import opened LedgerBalances
  import opened LedgerBooks
  import opened LedgerSound
  import opened Settlement

  /** Wallets that joined before the round, in order of registration. */
  function JoinedBefore(wallets: seq<WalletEntry>, round: Round): (r: seq<Address>)
    ensures forall w :: w in r <==> exists i :: 0 <= i < |wallets| && wallets[i].wallet == w && wallets[i].roundJoined < round
  {
    if wallets == [] then []
    else
      var n := |wallets| - 1;
      JoinedBefore(wallets[..n], round) + if wallets[n].roundJoined < round then [wallets[n].wallet] else []
  }

  function EntryFor(accounts: map<Key, Account>, asset: Address, round: Round, wallet: Address): Entry {
    Entry(wallet, Opening(accounts, asset, wallet, round), round)
  }

  function EntriesFor(accounts: map<Key, Account>, asset: Address, round: Round, wallets: seq<Address>): (r: seq<Entry>)
    ensures |r| == |wallets|
    ensures forall i :: 0 <= i < |r| ==> r[i] == EntryFor(accounts, asset, round, wallets[i])
  {
    if wallets == [] then []
    else [EntryFor(accounts, asset, round, wallets[0])] + EntriesFor(accounts, asset, round, wallets[1..])
  }

  /** The accounts that the tree for an asset and a round is built from. */
  function SolvencyEntries(s: Ledger, asset: Address, round: Round): seq<Entry> {
    EntriesFor(s.accounts, asset, round, JoinedBefore(s.wallets, round))
  }

  method GetSolvencyTree(compare: Compare, s: Ledger, asset: Address, round: Round) returns (tree: SolvencyTree)
    ensures tree.Built(compare) && tree.rawLeaves == SolvencyEntries(s, asset, round)
  {
    var wallets := JoinedBefore(s.wallets, round);
    var entries: seq<Entry> := [];
    for i := 0 to |wallets|
      invariant entries == EntriesFor(s.accounts, asset, round, wallets)[..i]
    {
      entries := entries + [EntryFor(s.accounts, asset, round, wallets[i])];
    }
    tree := Build(compare, entries);
  }

  // --- Proofs of balance ----------------------------------------------------------------------

  /** Balances are non-negative, so the proof of every member wallet verifies against the root. */
  lemma {:induction false} CompleteProofVerifies(compare: Compare, s: Ledger, asset: Address, round: Round, wallet: Address, tree: SolvencyTree)
    requires IsOrder(compare) && NonNegative(s.accounts)
    requires tree.Built(compare) && tree.rawLeaves == SolvencyEntries(s, asset, round)
    requires wallet in JoinedBefore(s.wallets, round)
    ensures TopLevel(tree.levels) != []
    ensures var e := EntryFor(s.accounts, asset, round, wallet);
      var proof := Liabilities(tree, e);
      proof.Success? && ValidateProof(compare, proof.value, Root(tree), e)
  {
    hide Opening, NonNegative, IsOrder, ValidateProof, Liabilities, TopLevel;
    var wallets := JoinedBefore(s.wallets, round);
    var e := EntryFor(s.accounts, asset, round, wallet);
    var i :| 0 <= i < |wallets| && wallets[i] == wallet;
    assert tree.rawLeaves[i] == e;
    forall other | other in tree.rawLeaves
      ensures other.sum >= 0.0
    {
      OpeningNonNegative(s.accounts, asset, other.address, round);
    }
    ProofsVerify(compare, tree, e);
  }

  /** No other balance proves: a verified claim about a wallet is its true opening balance. */
  lemma {:induction false} OnlyTrueBalancesProve(compare: Compare, s: Ledger, asset: Address, round: Round,
                                                 tree: SolvencyTree, proof: seq<Liability>, claim: Entry)
    requires tree.Built(compare) && tree.rawLeaves == SolvencyEntries(s, asset, round)
    requires tree.rawLeaves != [] && TopLevel(tree.levels) != []
    requires ValidateProof(compare, proof, Root(tree), claim)
    ensures claim.address in JoinedBefore(s.wallets, round)
    ensures claim.sum == Opening(s.accounts, asset, claim.address, round) && claim.round == round
  {
    hide Opening, ValidateProof;
    VerifiedIsMember(compare, tree, proof, claim);
    var i :| 0 <= i < |tree.rawLeaves| && tree.rawLeaves[i] == claim;
    assert JoinedBefore(s.wallets, round)[i] == claim.address;
  }

  // --- Opening balances as sums of events -----------------------------------------------------

  /** The part of each event that belongs to one wallet. */
  function Of<E>(wallet: E -> Address, amount: E -> Amount, w: Address): E -> Amount {
    (e: E) => if wallet(e) == w then amount(e) else 0.0
  }

  function DepositWallet(): Deposit -> Address { (d: Deposit) => d.wallet }

  function WithdrawalWallet(): Withdrawal -> Address { (w: Withdrawal) => w.wallet }

  function FillWallet(): Fill -> Address { (f: Fill) => f.clientAddress }

  function DepositedBefore(asset: Address, round: Round): Deposit -> Amount {
    (d: Deposit) => if d.asset == asset && d.round < round then d.amount else 0.0
  }

  function WithdrawnBefore(asset: Address, round: Round): Withdrawal -> Amount {
    (w: Withdrawal) => if Effective(w) && w.asset == asset && w.round < round then w.amount else 0.0
  }

  function BoughtBefore(asset: Address, round: Round): Fill -> Amount {
    (f: Fill) => if f.buyAsset == asset && f.round < round then f.buy else 0.0
  }

  function SoldBefore(asset: Address, round: Round): Fill -> Amount {
    (f: Fill) => if f.sellAsset == asset && f.round < round then f.sell else 0.0
  }

  /** What happened before a round is what happened before the previous one, and in it. */
  lemma {:induction false} OneRoundMore(s: Ledger, asset: Address, w: Address, round: Round)
    ensures var k := Key(round, asset, w);
      && SumBy(s.deposits, Of(DepositWallet(), DepositedBefore(asset, round + 1), w))
         == SumBy(s.deposits, Of(DepositWallet(), DepositedBefore(asset, round), w)) + SumBy(s.deposits, DepositAt(k))
      && SumBy(s.withdrawals, Of(WithdrawalWallet(), WithdrawnBefore(asset, round + 1), w))
         == SumBy(s.withdrawals, Of(WithdrawalWallet(), WithdrawnBefore(asset, round), w)) + SumBy(s.withdrawals, WithdrawnAt(k))
      && SumBy(s.fills, Of(FillWallet(), BoughtBefore(asset, round + 1), w))
         == SumBy(s.fills, Of(FillWallet(), BoughtBefore(asset, round), w)) + SumBy(s.fills, BoughtAt(k))
      && SumBy(s.fills, Of(FillWallet(), SoldBefore(asset, round + 1), w))
         == SumBy(s.fills, Of(FillWallet(), SoldBefore(asset, round), w)) + SumBy(s.fills, SoldAt(k))
  {
    var k := Key(round, asset, w);
    SumAdd(s.deposits, Of(DepositWallet(), DepositedBefore(asset, round), w), DepositAt(k),
           Of(DepositWallet(), DepositedBefore(asset, round + 1), w));
    SumAdd(s.withdrawals, Of(WithdrawalWallet(), WithdrawnBefore(asset, round), w), WithdrawnAt(k),
           Of(WithdrawalWallet(), WithdrawnBefore(asset, round + 1), w));
    SumAdd(s.fills, Of(FillWallet(), BoughtBefore(asset, round), w), BoughtAt(k),
           Of(FillWallet(), BoughtBefore(asset, round + 1), w));
    SumAdd(s.fills, Of(FillWallet(), SoldBefore(asset, round), w), SoldAt(k),
           Of(FillWallet(), SoldBefore(asset, round + 1), w));
  }

  lemma NothingBeforeFirst(s: Ledger, asset: Address, w: Address)
    ensures SumBy(s.deposits, Of(DepositWallet(), DepositedBefore(asset, 0), w)) == 0.0
    ensures SumBy(s.withdrawals, Of(WithdrawalWallet(), WithdrawnBefore(asset, 0), w)) == 0.0
    ensures SumBy(s.fills, Of(FillWallet(), BoughtBefore(asset, 0), w)) == 0.0
    ensures SumBy(s.fills, Of(FillWallet(), SoldBefore(asset, 0), w)) == 0.0
  {
    SumZero(s.deposits, Of(DepositWallet(), DepositedBefore(asset, 0), w));
    SumZero(s.withdrawals, Of(WithdrawalWallet(), WithdrawnBefore(asset, 0), w));
    SumZero(s.fills, Of(FillWallet(), BoughtBefore(asset, 0), w));
    SumZero(s.fills, Of(FillWallet(), SoldBefore(asset, 0), w));
  }

  /** An opening balance is deposits plus purchases less withdrawals and sales of earlier rounds. */
  lemma {:induction false} OpeningFromEvents(s: Ledger, asset: Address, w: Address, round: Round)
    requires Represented(s)
    ensures Opening(s.accounts, asset, w, round)
            == SumBy(s.deposits, Of(DepositWallet(), DepositedBefore(asset, round), w))
               - SumBy(s.withdrawals, Of(WithdrawalWallet(), WithdrawnBefore(asset, round), w))
               + SumBy(s.fills, Of(FillWallet(), BoughtBefore(asset, round), w))
               - SumBy(s.fills, Of(FillWallet(), SoldBefore(asset, round), w))
    decreases round
  {
    hide SumBy, Of, DepositedBefore, WithdrawnBefore, BoughtBefore, SoldBefore, AccountAt;
    if round == 0 {
      NothingBeforeFirst(s, asset, w);
    } else {
      OpeningFromEvents(s, asset, w, round - 1);
      assert AccountAt(s.accounts, Key(round - 1, asset, w)) == Recorded(s, Key(round - 1, asset, w));
      OneRoundMore(s, asset, w, round - 1);
    }
  }

  // --- Order does not matter ------------------------------------------------------------------

  lemma {:induction false} SameKeptSameSum<E>(p: E -> bool, xs: seq<E>, ys: seq<E>, f: E -> Amount)
    requires forall x :: !p(x) ==> f(x) == 0.0
    requires multiset(Keep(p, xs)) == multiset(Keep(p, ys))
    ensures SumBy(xs, f) == SumBy(ys, f)
  {
    SumOfKept(p, xs, f);
    SumOfKept(p, ys, f);
    SumPermuted(Keep(p, xs), Keep(p, ys), f);
  }

  function EarlyDeposit(round: Round): Deposit -> bool { (d: Deposit) => d.round < round }

  /** A withdrawal that already counts, whether or not it is confirmed yet. */
  function EarlyPayment(round: Round): Withdrawal -> bool { (w: Withdrawal) => Effective(w) && w.round < round }

  function EarlyFill(round: Round): Fill -> bool { (f: Fill) => f.round < round }

  /**
   * Two ledgers that accepted the same deposits, fills and effective withdrawals for the rounds
   * before `round`, in whatever order, open that round with the same balances.
   */
  lemma {:induction false} OpeningIgnoresOrder(s: Ledger, t: Ledger, asset: Address, w: Address, round: Round)
    requires Represented(s) && Represented(t)
    requires multiset(Keep(EarlyDeposit(round), s.deposits)) == multiset(Keep(EarlyDeposit(round), t.deposits))
    requires multiset(Keep(EarlyPayment(round), s.withdrawals)) == multiset(Keep(EarlyPayment(round), t.withdrawals))
    requires multiset(Keep(EarlyFill(round), s.fills)) == multiset(Keep(EarlyFill(round), t.fills))
    ensures Opening(s.accounts, asset, w, round) == Opening(t.accounts, asset, w, round)
  {
    hide Represented, Opening;
    OpeningFromEvents(s, asset, w, round);
    OpeningFromEvents(t, asset, w, round);
    SameKeptSameSum(EarlyDeposit(round), s.deposits, t.deposits, Of(DepositWallet(), DepositedBefore(asset, round), w));
    SameKeptSameSum(EarlyPayment(round), s.withdrawals, t.withdrawals, Of(WithdrawalWallet(), WithdrawnBefore(asset, round), w));
    SameKeptSameSum(EarlyFill(round), s.fills, t.fills, Of(FillWallet(), BoughtBefore(asset, round), w));
    SameKeptSameSum(EarlyFill(round), s.fills, t.fills, Of(FillWallet(), SoldBefore(asset, round), w));
  }

  // --- Sums over wallets ----------------------------------------------------------------------

  function PerWallet<E>(xs: seq<E>, wallet: E -> Address, amount: E -> Amount): Address -> Amount {
    (w: Address) => SumBy(xs, Of(wallet, amount, w))
  }

  function Among<E>(wallet: E -> Address, amount: E -> Amount, ws: seq<Address>): E -> Amount {
    (e: E) => if wallet(e) in ws then amount(e) else 0.0
  }

  ghost predicate Distinct(ws: seq<Address>) {
    forall i, j :: 0 <= i < j < |ws| ==> ws[i] != ws[j]
  }

  /** Summing wallet by wallet counts every event of those wallets once. */
  lemma {:induction false} SumOverWallets<E>(xs: seq<E>, wallet: E -> Address, amount: E -> Amount, ws: seq<Address>)
    requires Distinct(ws)
    ensures SumBy(ws, PerWallet(xs, wallet, amount)) == SumBy(xs, Among(wallet, amount, ws))
  {
    if ws == [] {
      SumZero(xs, Among(wallet, amount, ws));
    } else {
      var n := |ws| - 1;
      SumOverWallets(xs, wallet, amount, ws[..n]);
      assert ws == ws[..n] + [ws[n]];
      SumAdd(xs, Among(wallet, amount, ws[..n]), Of(wallet, amount, ws[n]), Among(wallet, amount, ws));
    }
  }

  // --- Members and latecomers -----------------------------------------------------------------

  /** Every wallet, in order of registration. */
  function AllWallets(wallets: seq<WalletEntry>): (r: seq<Address>)
    ensures |r| == |wallets| && forall i :: 0 <= i < |r| ==> r[i] == wallets[i].wallet
  {
    if wallets == [] then [] else AllWallets(wallets[..|wallets| - 1]) + [wallets[|wallets| - 1].wallet]
  }

  /** Wallets that joined in the round or later, and so are not in its tree. */
  function JoinedLate(wallets: seq<WalletEntry>, round: Round): (r: seq<Address>)
    ensures forall w :: w in r <==> exists i :: 0 <= i < |wallets| && wallets[i].wallet == w && wallets[i].roundJoined >= round
  {
    if wallets == [] then []
    else
      var n := |wallets| - 1;
      JoinedLate(wallets[..n], round) + if wallets[n].roundJoined >= round then [wallets[n].wallet] else []
  }

  lemma {:induction false} MembersAndLatecomers(wallets: seq<WalletEntry>, round: Round, f: Address -> Amount)
    ensures SumBy(AllWallets(wallets), f) == SumBy(JoinedBefore(wallets, round), f) + SumBy(JoinedLate(wallets, round), f)
  {
    if wallets != [] {
      var n := |wallets| - 1;
      var w := wallets[n].wallet;
      MembersAndLatecomers(wallets[..n], round, f);
      SumAppend(AllWallets(wallets[..n]), w, f);
      SumAppend(JoinedBefore(wallets[..n], round), w, f);
      SumAppend(JoinedLate(wallets[..n], round), w, f);
      hide SumBy;
      if wallets[n].roundJoined < round {
        assert JoinedLate(wallets, round) == JoinedLate(wallets[..n], round);
      } else {
        assert JoinedBefore(wallets, round) == JoinedBefore(wallets[..n], round);
      }
    }
  }

  // --- Solvency -------------------------------------------------------------------------------

  lemma RegisteredIsAWallet(wallets: seq<WalletEntry>, w: Address)
    requires IsRegistered(wallets, w)
    ensures w in AllWallets(wallets)
  {
    var i :| 0 <= i < |wallets| && wallets[i].wallet == w;
    assert AllWallets(wallets)[i] == w;
  }

  /** Every event belongs to a registered wallet. */
  lemma {:induction false} EventsHaveWallets(s: Ledger)
    requires Sound(s)
    ensures forall i :: 0 <= i < |s.deposits| ==> s.deposits[i].wallet in AllWallets(s.wallets)
    ensures forall i :: 0 <= i < |s.withdrawals| && Effective(s.withdrawals[i]) ==> s.withdrawals[i].wallet in AllWallets(s.wallets)
    ensures forall i :: 0 <= i < |s.fills| ==> s.fills[i].clientAddress in AllWallets(s.wallets)
  {
    hide Represented, NonNegative, PrefixCovered, CacheExact, FindApproval, Times, Honours, IsRegistered, AllWallets;
    forall w | IsRegistered(s.wallets, w)
      ensures w in AllWallets(s.wallets)
    {
      RegisteredIsAWallet(s.wallets, w);
    }
    forall i | 0 <= i < |s.fills|
      ensures s.fills[i].clientAddress in AllWallets(s.wallets)
    {
      assert BackedFill(s.approvals, s.fills[i]);
    }
  }

  /** Trading conserves an asset over all rounds before `round` together. */
  lemma {:induction false} ConservedBefore(fills: seq<Fill>, asset: Address, round: Round)
    requires Conserved(fills)
    ensures SumBy(fills, BoughtBefore(asset, round)) == SumBy(fills, SoldBefore(asset, round))
    decreases round
  {
    if round == 0 {
      SumZero(fills, BoughtBefore(asset, 0));
      SumZero(fills, SoldBefore(asset, 0));
    } else {
      ConservedBefore(fills, asset, round - 1);
      SumAdd(fills, BoughtBefore(asset, round - 1), BoughtIn(round - 1, asset), BoughtBefore(asset, round));
      SumAdd(fills, SoldBefore(asset, round - 1), SoldIn(round - 1, asset), SoldBefore(asset, round));
      assert SumBy(fills, BoughtIn(round - 1, asset)) == SumBy(fills, SoldIn(round - 1, asset));
    }
  }

  function OpeningOf(accounts: map<Key, Account>, asset: Address, round: Round): Address -> Amount {
    (w: Address) => Opening(accounts, asset, w, round)
  }

  /** The openings of all wallets together are all deposits less all effective withdrawals. */
  lemma {:induction false} WalletsHoldDeposits(s: Ledger, asset: Address, round: Round)
    requires Sound(s) && Conserved(s.fills)
    ensures SumBy(AllWallets(s.wallets), OpeningOf(s.accounts, asset, round))
            == SumBy(s.deposits, DepositedBefore(asset, round)) - SumBy(s.withdrawals, WithdrawnBefore(asset, round))
  {
    hide Represented, BooksBalance, NonNegative, PrefixCovered, CacheExact, Opening, Conserved;
    var ws := AllWallets(s.wallets);
    assert Distinct(ws);
    OpeningsSplit(s, asset, round, ws);
    EventsHaveWallets(s);
    SumOverWallets(s.deposits, DepositWallet(), DepositedBefore(asset, round), ws);
    SumEqual(s.deposits, Among(DepositWallet(), DepositedBefore(asset, round), ws), DepositedBefore(asset, round));
    SumOverWallets(s.withdrawals, WithdrawalWallet(), WithdrawnBefore(asset, round), ws);
    SumEqual(s.withdrawals, Among(WithdrawalWallet(), WithdrawnBefore(asset, round), ws), WithdrawnBefore(asset, round));
    SumOverWallets(s.fills, FillWallet(), BoughtBefore(asset, round), ws);
    SumEqual(s.fills, Among(FillWallet(), BoughtBefore(asset, round), ws), BoughtBefore(asset, round));
    SumOverWallets(s.fills, FillWallet(), SoldBefore(asset, round), ws);
    SumEqual(s.fills, Among(FillWallet(), SoldBefore(asset, round), ws), SoldBefore(asset, round));
    ConservedBefore(s.fills, asset, round);
  }

  /** No wallet that joined in the round or later opens it with anything. */
  ghost predicate LatecomersHoldNothing(s: Ledger, asset: Address, round: Round) {
    forall i :: 0 <= i < |s.wallets| && s.wallets[i].roundJoined >= round ==>
      Opening(s.accounts, asset, s.wallets[i].wallet, round) == 0.0
  }

  /** Balances are not negative, so latecomers hold nothing together exactly when none holds anything. */
  lemma {:induction false} LatecomersSum(s: Ledger, asset: Address, round: Round)
    requires NonNegative(s.accounts)
    ensures SumBy(JoinedLate(s.wallets, round), OpeningOf(s.accounts, asset, round)) == 0.0
            <==> LatecomersHoldNothing(s, asset, round)
  {
    hide Opening, NonNegative, SumBy;
    var late := JoinedLate(s.wallets, round);
    var f := OpeningOf(s.accounts, asset, round);
    forall j | 0 <= j < |late|
      ensures f(late[j]) >= 0.0
    {
      OpeningNonNegative(s.accounts, asset, late[j], round);
    }
    if LatecomersHoldNothing(s, asset, round) {
      assert forall j :: 0 <= j < |late| ==> late[j] in late;
      SumZero(late, f);
    }
    if SumBy(late, f) == 0.0 {
      forall i | 0 <= i < |s.wallets| && s.wallets[i].roundJoined >= round
        ensures Opening(s.accounts, asset, s.wallets[i].wallet, round) == 0.0
      {
        assert s.wallets[i].wallet in late;
        var j :| 0 <= j < |late| && late[j] == s.wallets[i].wallet;
        SumMember(late, j, f);
      }
    }
  }

  lemma {:induction false} OpeningsSplit(s: Ledger, asset: Address, round: Round, ws: seq<Address>)
    requires Represented(s)
    ensures SumBy(ws, OpeningOf(s.accounts, asset, round))
            == SumBy(ws, PerWallet(s.deposits, DepositWallet(), DepositedBefore(asset, round)))
               - SumBy(ws, PerWallet(s.withdrawals, WithdrawalWallet(), WithdrawnBefore(asset, round)))
               + SumBy(ws, PerWallet(s.fills, FillWallet(), BoughtBefore(asset, round)))
               - SumBy(ws, PerWallet(s.fills, FillWallet(), SoldBefore(asset, round)))
  {
    hide Represented, Opening;
    if ws != [] {
      var n := |ws| - 1;
      OpeningsSplit(s, asset, round, ws[..n]);
      OpeningFromEvents(s, asset, ws[n], round);
    }
  }

  lemma {:induction false} EntriesSum(accounts: map<Key, Account>, asset: Address, round: Round, wallets: seq<Address>)
    ensures SumBy(HashAll(EntriesFor(accounts, asset, round, wallets)), SumOfNode())
            == SumBy(wallets, OpeningOf(accounts, asset, round))
  {
    hide Opening;
    if wallets != [] {
      var n := |wallets| - 1;
      EntriesSum(accounts, asset, round, wallets[..n]);
      var all, earlier := HashAll(EntriesFor(accounts, asset, round, wallets)),
                          HashAll(EntriesFor(accounts, asset, round, wallets[..n]));
      assert all[..n] == earlier;
    }
  }

  /**
   * The root of the tree commits to exactly what the depositors are owed, all deposits of the asset
   * before the round less all effective withdrawals, however the wallets traded in between, if and
   * only if no wallet that joined in the round or later opens it with anything.
   */
  lemma {:induction false} RootIsSolventIff(compare: Compare, s: Ledger, asset: Address, round: Round, tree: SolvencyTree)
    requires Sound(s) && Conserved(s.fills)
    requires tree.Built(compare) && tree.rawLeaves == SolvencyEntries(s, asset, round) && tree.rawLeaves != []
    ensures TopLevel(tree.levels) != []
    ensures Root(tree).sum
            == SumBy(s.deposits, DepositedBefore(asset, round)) - SumBy(s.withdrawals, WithdrawnBefore(asset, round))
            <==> LatecomersHoldNothing(s, asset, round)
  {
    hide Sound, Conserved, Opening, LatecomersHoldNothing;
    SoundParts(s);
    RootSum(compare, HashAll(tree.rawLeaves));
    EntriesSum(s.accounts, asset, round, JoinedBefore(s.wallets, round));
    WalletsHoldDeposits(s, asset, round);
    MembersAndLatecomers(s.wallets, round, OpeningOf(s.accounts, asset, round));
    LatecomersSum(s, asset, round);
  }
}
