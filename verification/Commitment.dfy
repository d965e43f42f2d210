// Roots and balance proofs as the mediator contract checks them: it knows a hash only, and adds up the sums
// itself (src/contracts/Mediator.sol, isProofValid and isMerkleProofValid).
module Commitments {
  import opened BasicTypes
  import opened BigNumbers
  import opened MerkleTree

  /** The stored root: the tree's hash, hashed with the closing balance and then with height and width. */
  datatype PaddedRoot = PaddedRoot(content: Digest, sum: Amount, height: nat, width: nat)

  datatype BalanceProof = BalanceProof(
    clientOpeningBalance: Amount,
    tokenAddress: Address,
    clientAddress: Address,
    hashes: seq<Digest>,
    sums: seq<Amount>,
    height: nat,
    width: nat,
    round: Round)

  type Commits = map<(Round, Address), PaddedRoot>

  type Totals = map<(Round, Address), Amount>

  function TotalAt(totals: Totals, round: Round, token: Address): Amount {
    if (round, token) in totals then totals[(round, token)] else 0.0
  }

  /** What a token closed the round with: opening balance, deposits, and less requested withdrawals. */
  function ClosingBalance(openings: Totals, deposits: Totals, withdrawals: Totals, round: Round, token: Address): Amount {
    TotalAt(openings, round, token) + TotalAt(deposits, round, token) - TotalAt(withdrawals, round, token)
  }

  function Sibling(compare: Compare, hash: Digest, sum: Amount, element: Digest): Digest {
    if compare(hash, element) < 0 then NodeHash(sum, hash, element) else NodeHash(sum, element, hash)
  }

  /** Hash and sum after all proof elements. */
  function Climb(compare: Compare, hash: Digest, sum: Amount, hashes: seq<Digest>, sums: seq<Amount>): (Digest, Amount)
    requires |hashes| <= |sums|
  {
    if hashes == [] then (hash, sum)
    else
      var n := |hashes| - 1;
      var below := Climb(compare, hash, sum, hashes[..n], sums[..n]);
      var total := below.1 + sums[n];
      (Sibling(compare, below.0, total, hashes[n]), total)
  }

  /** Too few sums end the call, as a failed requirement does. */
  predicate MerkleProofValid(compare: Compare, hashes: seq<Digest>, sums: seq<Amount>, root: PaddedRoot, leaf: Digest,
                             sum: Amount, height: nat, width: nat) {
    && |hashes| <= |sums|
    && var top := Climb(compare, leaf, sum, hashes, sums);
       PaddedRoot(top.0, top.1, height, width) == root
  }

  method IsMerkleProofValid(compare: Compare, hashes: seq<Digest>, sums: seq<Amount>, root: PaddedRoot, leaf: Digest,
                            sum: Amount, height: nat, width: nat) returns (valid: bool)
    ensures valid == MerkleProofValid(compare, hashes, sums, root, leaf, sum, height, width)
  {
    if |sums| < |hashes| {
      return false;
    }
    var computedHash, computedSum := leaf, sum;
    for i := 0 to |hashes|
      invariant (computedHash, computedSum) == Climb(compare, leaf, sum, hashes[..i], sums[..i])
    {
      var proofElement := hashes[i];
      computedSum := computedSum + sums[i];
      computedHash := Sibling(compare, computedHash, computedSum, proofElement);
      assert hashes[..i + 1][..i] == hashes[..i] && sums[..i + 1][..i] == sums[..i];
    }
    assert hashes[..|hashes|] == hashes;
    ClimbIgnoresRest(compare, leaf, sum, hashes, sums);
    return PaddedRoot(computedHash, computedSum, height, width) == root;
  }

  lemma ClimbIgnoresRest(compare: Compare, hash: Digest, sum: Amount, hashes: seq<Digest>, sums: seq<Amount>)
    requires |hashes| <= |sums|
    ensures Climb(compare, hash, sum, hashes, sums[..|hashes|]) == Climb(compare, hash, sum, hashes, sums)
  {
    if hashes != [] {
      var n := |hashes| - 1;
      assert sums[..|hashes|][..n] == sums[..n];
    }
  }

  /** No root means no valid proof. */
  predicate IsProofValid(compare: Compare, commits: Commits, p: BalanceProof, round: Round) {
    && (round, p.tokenAddress) in commits
    && p.round == round
    && MerkleProofValid(compare, p.hashes, p.sums, commits[(round, p.tokenAddress)],
                        LeafHash(p.clientOpeningBalance, p.clientAddress, p.round), p.clientOpeningBalance, p.height, p.width)
  }

  /** Even where one root was committed for several rounds, a proof is accepted for the round it names and no other. */
  lemma ProofIsOfOneRound(compare: Compare, commits: Commits, p: BalanceProof, first: Round, second: Round)
    requires IsProofValid(compare, commits, p, first) && IsProofValid(compare, commits, p, second)
    ensures first == second == p.round
  {
  }

  // --- The contract and the tree agree --------------------------------------------------------

  function Pairs(hashes: seq<Digest>, sums: seq<Amount>): (r: seq<Liability>)
    requires |hashes| <= |sums|
    ensures |r| == |hashes| && forall i :: 0 <= i < |r| ==> r[i] == Liability(hashes[i], sums[i])
  {
    seq(|hashes|, i requires 0 <= i < |hashes| => Liability(hashes[i], sums[i]))
  }

  lemma {:induction false} FoldLast(compare: Compare, head: Liability, proof: seq<Liability>)
    requires proof != []
    ensures Fold(compare, head, proof)
            == InternalNode(compare, Fold(compare, head, proof[..|proof| - 1]), proof[|proof| - 1])
    decreases |proof|
  {
    hide InternalNode;
    if |proof| > 1 {
      FoldLast(compare, InternalNode(compare, head, proof[0]), proof[1..]);
      assert proof[..|proof| - 1][1..] == proof[1..][..|proof| - 2];
    }
  }

  lemma SiblingIsParent(compare: Compare, node: Liability, element: Liability)
    requires IsOrder(compare)
    ensures InternalNode(compare, node, element)
            == Liability(Sibling(compare, node.hash, node.sum + element.sum, element.hash), node.sum + element.sum)
  {
  }

  /** Climbing with a hash and a running sum is folding the tree's nodes. */
  lemma {:induction false} ClimbIsFold(compare: Compare, head: Liability, hashes: seq<Digest>, sums: seq<Amount>)
    requires IsOrder(compare) && |hashes| <= |sums|
    ensures var top := Climb(compare, head.hash, head.sum, hashes, sums);
      Fold(compare, head, Pairs(hashes, sums)) == Liability(top.0, top.1)
    decreases |hashes|
  {
    hide IsOrder, InternalNode, Sibling;
    if hashes != [] {
      var n := |hashes| - 1;
      ClimbIsFold(compare, head, hashes[..n], sums[..n]);
      FoldLast(compare, head, Pairs(hashes, sums));
      assert Pairs(hashes, sums)[..n] == Pairs(hashes[..n], sums[..n]);
      SiblingIsParent(compare, Fold(compare, head, Pairs(hashes[..n], sums[..n])), Liability(hashes[n], sums[n]));
    }
  }

  /**
   * The contract accepts a proof of non-negative sums if and only if the tree's own check does against the
   * committed hash and sum, and height and width are the committed ones.
   */
  lemma {:induction false} ContractAgrees(compare: Compare, p: BalanceProof, root: PaddedRoot)
    requires IsOrder(compare) && |p.hashes| <= |p.sums| && p.clientOpeningBalance >= 0.0
    requires forall i :: 0 <= i < |p.hashes| ==> p.sums[i] >= 0.0
    ensures MerkleProofValid(compare, p.hashes, p.sums, root, LeafHash(p.clientOpeningBalance, p.clientAddress, p.round),
                             p.clientOpeningBalance, p.height, p.width)
            <==> ValidateProof(compare, Pairs(p.hashes, p.sums), Liability(root.content, root.sum),
                               Entry(p.clientAddress, p.clientOpeningBalance, p.round))
                 && p.height == root.height && p.width == root.width
  {
    hide IsOrder, Climb, Fold;
    ClimbIsFold(compare, Hash(Entry(p.clientAddress, p.clientOpeningBalance, p.round)), p.hashes, p.sums);
  }
}
