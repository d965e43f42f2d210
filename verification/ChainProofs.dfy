// Balance proofs against the roots that the mediator stores: the contract pads a root with a closing balance of its
// own reckoning, so proofs verify only when the tree adds up to it (src/contracts/Mediator.sol, commit).
module ChainProofs {
  import opened BasicTypes
  import opened BigNumbers
  import opened Sums
  import opened Ledgers
  import opened LedgerBalances
  import opened LedgerBooks
  import opened LedgerSound
  import opened Settlement
  import opened MerkleTree
  import opened Solvency
  import opened Commitments

  // --- The contract's books and the ledger's ---------------------------------------------------

  function DepositedIn(asset: Address, round: Round): Deposit -> Amount {
    (d: Deposit) => if d.asset == asset && d.round == round then d.amount else 0.0
  }

  function WithdrawnIn(asset: Address, round: Round): Withdrawal -> Amount {
    (w: Withdrawal) => if Effective(w) && w.asset == asset && w.round == round then w.amount else 0.0
  }

  /** The contract saw the deposits and withdrawals that the ledger holds for a token before a round. */
  ghost predicate TotalsAgree(s: Ledger, deposits: Totals, withdrawals: Totals, token: Address, round: Round) {
    forall r: Round :: r < round ==>
      && TotalAt(deposits, r, token) == SumBy(s.deposits, DepositedIn(token, r))
      && TotalAt(withdrawals, r, token) == SumBy(s.withdrawals, WithdrawnIn(token, r))
  }

  /** Each round up to `round` opened with what the one before closed with. */
  ghost predicate Carried(openings: Totals, deposits: Totals, withdrawals: Totals, token: Address, round: Round) {
    && TotalAt(openings, 0, token) == 0.0
    && forall r: Round :: 1 <= r <= round ==>
         TotalAt(openings, r, token) == ClosingBalance(openings, deposits, withdrawals, r - 1, token)
  }

  /** What depositors are owed for a token at the start of a round. */
  function Owed(s: Ledger, asset: Address, round: Round): Amount {
    SumBy(s.deposits, DepositedBefore(asset, round)) - SumBy(s.withdrawals, WithdrawnBefore(asset, round))
  }

  lemma {:induction false} OwedOneRoundMore(s: Ledger, asset: Address, round: Round)
    ensures Owed(s, asset, round + 1)
            == Owed(s, asset, round) + SumBy(s.deposits, DepositedIn(asset, round)) - SumBy(s.withdrawals, WithdrawnIn(asset, round))
    ensures Owed(s, asset, 0) == 0.0
  {
    SumAdd(s.deposits, DepositedBefore(asset, round), DepositedIn(asset, round), DepositedBefore(asset, round + 1));
    SumAdd(s.withdrawals, WithdrawnBefore(asset, round), WithdrawnIn(asset, round), WithdrawnBefore(asset, round + 1));
    SumZero(s.deposits, DepositedBefore(asset, 0));
    SumZero(s.withdrawals, WithdrawnBefore(asset, 0));
  }

  /** Carried from round to round, the contract's opening balance is what depositors are owed. */
  lemma {:induction false} OpeningIsOwed(s: Ledger, openings: Totals, deposits: Totals, withdrawals: Totals, token: Address, round: Round)
    requires TotalsAgree(s, deposits, withdrawals, token, round) && Carried(openings, deposits, withdrawals, token, round)
    ensures TotalAt(openings, round, token) == Owed(s, token, round)
    decreases round
  {
    hide Owed, TotalAt;
    OwedOneRoundMore(s, token, if round == 0 then 0 else round - 1);
    if round > 0 {
      OpeningIsOwed(s, openings, deposits, withdrawals, token, round - 1);
    }
  }

  // --- The operator's proofs ------------------------------------------------------------------

  /** The tree that the operator builds for a round, and proves balances from. */
  function TreeFor(compare: Compare, s: Ledger, asset: Address, round: Round): (tree: SolvencyTree)
    ensures tree.Built(compare) && tree.rawLeaves == SolvencyEntries(s, asset, round)
  {
    var entries := SolvencyEntries(s, asset, round);
    SolvencyTree(Levels(compare, HashAll(entries)), entries)
  }

  /** A member's proof; for anyone else the operator finds no leaf to prove. */
  function ProofFor(compare: Compare, s: Ledger, asset: Address, wallet: Address, round: Round): BalanceProof
    requires Liabilities(TreeFor(compare, s, asset, round), EntryFor(s.accounts, asset, round, wallet)).Success?
  {
    var tree, e := TreeFor(compare, s, asset, round), EntryFor(s.accounts, asset, round, wallet);
    var path := Liabilities(tree, e).value;
    BalanceProof(e.sum, asset, wallet, HashesOf(path), SumsOf(path), tree.GetHeight(), tree.GetWidth(), round)
  }

  function HashesOf(path: seq<Liability>): (r: seq<Digest>)
    ensures |r| == |path| && forall i :: 0 <= i < |r| ==> r[i] == path[i].hash
  {
    seq(|path|, i requires 0 <= i < |path| => path[i].hash)
  }

  function SumsOf(path: seq<Liability>): (r: seq<Amount>)
    ensures |r| == |path| && forall i :: 0 <= i < |r| ==> r[i] == path[i].sum
  {
    seq(|path|, i requires 0 <= i < |path| => path[i].sum)
  }

  /** The contract stored the root of the operator's tree, padded with what it opens the round with. */
  predicate CommittedFor(compare: Compare, s: Ledger, commits: Commits, openings: Totals, asset: Address, round: Round) {
    var tree := TreeFor(compare, s, asset, round);
    && TopLevel(tree.levels) != []
    && (round, asset) in commits
    && commits[(round, asset)] == PaddedRoot(Root(tree).hash, TotalAt(openings, round, asset), tree.GetHeight(), tree.GetWidth())
  }

  /**
   * A member's proof is accepted by the contract if and only if the contract opens the round with exactly
   * the sum of the operator's tree.
   */
  lemma {:induction false} ProofAcceptedIff(compare: Compare, s: Ledger, commits: Commits, openings: Totals, asset: Address,
                                            wallet: Address, round: Round)
    requires IsOrder(compare) && NonNegative(s.accounts) && wallet in JoinedBefore(s.wallets, round)
    requires CommittedFor(compare, s, commits, openings, asset, round)
    ensures Liabilities(TreeFor(compare, s, asset, round), EntryFor(s.accounts, asset, round, wallet)).Success?
    ensures IsProofValid(compare, commits, ProofFor(compare, s, asset, wallet, round), round)
            <==> Root(TreeFor(compare, s, asset, round)).sum == TotalAt(openings, round, asset)
  {
    hide Liabilities, NonNegative, IsOrder, TreeFor, Opening, TopLevel, MerkleProofValid, Fold;
    var tree, e := TreeFor(compare, s, asset, round), EntryFor(s.accounts, asset, round, wallet);
    CompleteProofVerifies(compare, s, asset, round, wallet, tree);
    OpeningNonNegative(s.accounts, asset, wallet, round);
    var path := Liabilities(tree, e).value;
    var p := ProofFor(compare, s, asset, wallet, round);
    assert forall n :: n in path ==> IsValidNode(n);
    assert forall i :: 0 <= i < |path| ==> path[i] in path;
    assert Pairs(p.hashes, p.sums) == path;
    ContractAgrees(compare, p, commits[(round, asset)]);
  }

  /**
   * With every earlier round committed, and the contract having seen the ledger's deposits and
   * withdrawals: each member's proof is accepted if and only if no wallet that joined in the round or
   * later opens it with anything. One such wallet invalidates the proofs of all members.
   */
  lemma {:induction false} MembersProveOnChainIff(compare: Compare, s: Ledger, commits: Commits, openings: Totals, deposits: Totals,
                                                  withdrawals: Totals, asset: Address, wallet: Address, round: Round)
    requires IsOrder(compare) && Sound(s) && Conserved(s.fills) && wallet in JoinedBefore(s.wallets, round)
    requires CommittedFor(compare, s, commits, openings, asset, round)
    requires TotalsAgree(s, deposits, withdrawals, asset, round) && Carried(openings, deposits, withdrawals, asset, round)
    ensures Liabilities(TreeFor(compare, s, asset, round), EntryFor(s.accounts, asset, round, wallet)).Success?
    ensures IsProofValid(compare, commits, ProofFor(compare, s, asset, wallet, round), round)
            <==> LatecomersHoldNothing(s, asset, round)
  {
    hide Sound, Conserved, IsOrder, Liabilities, TreeFor, Opening, TopLevel, IsProofValid, TotalsAgree, Carried, LatecomersHoldNothing;
    SoundParts(s);
    var tree := TreeFor(compare, s, asset, round);
    assert tree.rawLeaves != [];
    ProofAcceptedIff(compare, s, commits, openings, asset, wallet, round);
    OpeningIsOwed(s, openings, deposits, withdrawals, asset, round);
    RootIsSolventIff(compare, s, asset, round, tree);
  }

  /** A node's hash carries its sum, all the way up. */
  lemma {:induction false} FoldHashesSum(compare: Compare, head: Liability, proof: seq<Liability>)
    requires head.hash.sum == head.sum
    ensures Fold(compare, head, proof).hash.sum == Fold(compare, head, proof).sum
    decreases |proof|
  {
    if proof != [] {
      FoldHashesSum(compare, InternalNode(compare, head, proof[0]), proof[1..]);
    }
  }

  predicate Unsigned(p: BalanceProof) {
    p.clientOpeningBalance >= 0.0 && forall i :: 0 <= i < |p.sums| ==> p.sums[i] >= 0.0
  }

  /**
   * Whoever made it: a proof that the contract accepts states a member's true opening balance, and there
   * is none at all unless the tree adds up to what the contract opens the round with.
   */
  lemma {:induction false} AcceptedIsTrue(compare: Compare, s: Ledger, commits: Commits, openings: Totals, p: BalanceProof, round: Round)
    requires IsOrder(compare) && Unsigned(p) && SolvencyEntries(s, p.tokenAddress, round) != []
    requires CommittedFor(compare, s, commits, openings, p.tokenAddress, round)
    requires IsProofValid(compare, commits, p, round)
    ensures p.clientAddress in JoinedBefore(s.wallets, round)
    ensures p.clientOpeningBalance == Opening(s.accounts, p.tokenAddress, p.clientAddress, round)
    ensures Root(TreeFor(compare, s, p.tokenAddress, round)).sum == TotalAt(openings, round, p.tokenAddress)
  {
    hide IsOrder, TreeFor, Opening, TopLevel, MerkleProofValid, Fold;
    var tree := TreeFor(compare, s, p.tokenAddress, round);
    var root := commits[(round, p.tokenAddress)];
    EnoughSums(compare, commits, p, round);
    var proof, item := Pairs(p.hashes, p.sums), Entry(p.clientAddress, p.clientOpeningBalance, p.round);
    ContractAgrees(compare, p, root);
    FoldHashesSum(compare, Hash(item), proof);
    RootCarriesSum(compare, tree);
    assert Liability(root.content, root.sum) == Root(tree);
    OnlyTrueBalancesProve(compare, s, p.tokenAddress, round, tree, proof, item);
  }

  lemma EnoughSums(compare: Compare, commits: Commits, p: BalanceProof, round: Round)
    requires IsProofValid(compare, commits, p, round)
    ensures |p.hashes| <= |p.sums|
  {
  }

  predicate CarriesSum(n: Liability) {
    n.hash.sum == n.sum
  }

  lemma InternalCarriesSum(compare: Compare, a: Liability, b: Liability)
    ensures CarriesSum(InternalNode(compare, a, b))
  {
  }

  lemma {:induction false} LevelsCarrySums(compare: Compare, level: seq<Liability>)
    requires forall i :: 0 <= i < |level| ==> CarriesSum(level[i])
    ensures forall i :: 0 <= i < |TopLevel(Levels(compare, level))| ==> CarriesSum(TopLevel(Levels(compare, level))[i])
    decreases |level|
  {
    hide CarriesSum, InternalNode, NextLevel;
    if |level| > 1 {
      var next := NextLevel(compare, level);
      forall i | 0 <= i < |next|
        ensures CarriesSum(next[i])
      {
        if 2 * i + 1 < |level| {
          InternalCarriesSum(compare, level[2 * i], level[2 * i + 1]);
        }
      }
      LevelsCarrySums(compare, next);
      TopIsAbove(compare, level);
    } else {
      assert Levels(compare, level) == [level];
    }
  }

  lemma TopIsAbove(compare: Compare, level: seq<Liability>)
    requires |level| > 1
    ensures TopLevel(Levels(compare, level)) == TopLevel(Levels(compare, NextLevel(compare, level)))
  {
    hide NextLevel;
    var above := Levels(compare, NextLevel(compare, level));
    assert Levels(compare, level) == [level] + above;
  }

  lemma RootCarriesSum(compare: Compare, tree: SolvencyTree)
    requires tree.Built(compare) && TopLevel(tree.levels) != []
    ensures Root(tree).hash.sum == Root(tree).sum
  {
    hide Levels;
    LevelsCarrySums(compare, HashAll(tree.rawLeaves));
    assert CarriesSum(TopLevel(tree.levels)[0]);
  }
}
