// The Merkle sum tree over account balances (src/common/GenericMerkleTree.ts and
// src/common/accounting/SolvencyTree.ts).
module MerkleTree {
  import opened BasicTypes
  import opened BigNumbers
  import opened Wrappers
  import opened Sums

  /**
   * Keccak as an injective function: a digest is the preimage it was made from. Leaf and node
   * preimages are packed to different lengths, so no leaf digest is a node digest.
   */
  datatype Digest =
    | LeafHash(sum: Amount, address: Address, round: Round)
    | NodeHash(sum: Amount, left: Digest, right: Digest)

  datatype Liability = Liability(hash: Digest, sum: Amount)

  datatype Entry = Entry(address: Address, sum: Amount, round: Round)

  /** The order of digests as strings. */
  type Compare = (Digest, Digest) -> int

  ghost predicate IsOrder(compare: Compare) {
    && (forall a, b :: compare(a, b) > 0 <==> compare(b, a) < 0)
    && (forall a, b :: compare(a, b) == 0 <==> a == b)
  }

  function Hash(e: Entry): Liability {
    Liability(LeafHash(e.sum, e.address, e.round), e.sum)
  }

  function CombineHash(a: Liability, b: Liability): Liability {
    var sum := a.sum + b.sum;
    Liability(NodeHash(sum, a.hash, b.hash), sum)
  }

  predicate IsValidNode(node: Liability) {
    node.sum >= 0.0
  }

  /** The digests of siblings are sorted before they are combined. */
  function InternalNode(compare: Compare, a: Liability, b: Liability): Liability {
    if compare(a.hash, b.hash) > 0 then CombineHash(b, a) else CombineHash(a, b)
  }

  /** Pairs are combined; an odd node at the end is carried up. */
  function NextLevel(compare: Compare, level: seq<Liability>): (r: seq<Liability>)
    ensures |r| == (|level| + 1) / 2
    ensures forall i :: 0 <= i < |r| ==>
      r[i] == if 2 * i + 1 < |level| then InternalNode(compare, level[2 * i], level[2 * i + 1]) else level[2 * i]
  {
    if |level| <= 1 then level
    else [InternalNode(compare, level[0], level[1])] + NextLevel(compare, level[2..])
  }

  function Levels(compare: Compare, leaves: seq<Liability>): (r: seq<seq<Liability>>)
    ensures |r| >= 1 && r[0] == leaves
    decreases |leaves|
  {
    if |leaves| <= 1 then [leaves] else [leaves] + Levels(compare, NextLevel(compare, leaves))
  }

  function TopLevel(levels: seq<seq<Liability>>): seq<Liability>
    requires levels != []
  {
    levels[|levels| - 1]
  }

  /** Growing a tower of levels by the next one does not change where it is going. */
  lemma LevelsGrow(compare: Compare, below: seq<seq<Liability>>, top: seq<Liability>)
    requires |top| > 1
    ensures below + Levels(compare, top) == (below + [top]) + Levels(compare, NextLevel(compare, top))
  {
  }

  /** The levels grow one at a time until the top one has a single node. */
  method ComputeLevels(compare: Compare, leaves: seq<Liability>) returns (levels: seq<seq<Liability>>)
    ensures levels == Levels(compare, leaves)
  {
    if |leaves| == 0 {
      return [[]];
    }
    levels := [leaves];
    ghost var below := [];
    while |TopLevel(levels)| != 1
      invariant levels != [] && levels == below + [TopLevel(levels)] && |TopLevel(levels)| >= 1
      invariant below + Levels(compare, TopLevel(levels)) == Levels(compare, leaves)
      decreases |TopLevel(levels)|
    {
      hide Levels, NextLevel;
      var currentLevel := TopLevel(levels);
      LevelsGrow(compare, below, currentLevel);
      below := levels;
      levels := levels + [NextLevel(compare, currentLevel)];
      assert TopLevel(levels) == NextLevel(compare, currentLevel);
    }
  }

  function SiblingIndex(idx: nat): nat {
    if idx % 2 == 0 then idx + 1 else idx - 1
  }

  /** Where the proof for leaf `idx` finds its nodes, from level `level` up. */
  function IndicesFrom(idx: nat, tree: seq<seq<Liability>>, level: nat): seq<(nat, nat)>
    requires level <= |tree|
    decreases |tree| - level
  {
    if level == |tree| then []
    else
      var pos := SiblingIndex(idx);
      (if pos < |tree[level]| then [(level, pos)] else []) + IndicesFrom(idx / 2, tree, level + 1)
  }

  method ProofIndices(idx: nat, tree: seq<seq<Liability>>) returns (indices: seq<(nat, nat)>)
    ensures indices == IndicesFrom(idx, tree, 0)
    ensures forall i :: 0 <= i < |indices| ==> indices[i].0 < |tree| && indices[i].1 < |tree[indices[i].0]|
  {
    indices := [];
    var currentIdx := idx;
    for level := 0 to |tree|
      invariant indices + IndicesFrom(currentIdx, tree, level) == IndicesFrom(idx, tree, 0)
      invariant forall i :: 0 <= i < |indices| ==> indices[i].0 < |tree| && indices[i].1 < |tree[indices[i].0]|
    {
      var pos := SiblingIndex(currentIdx);
      ghost var rest := IndicesFrom(currentIdx / 2, tree, level + 1);
      ghost var before := indices;
      if pos < |tree[level]| {
        indices := indices + [(level, pos)];
      }
      currentIdx := currentIdx / 2;
      assert indices + rest == before + ((if pos < |tree[level]| then [(level, pos)] else []) + rest);
    }
  }

  /** The sibling nodes on the way from leaf `idx` to the root. */
  function Path(idx: nat, tree: seq<seq<Liability>>): seq<Liability>
    decreases |tree|
  {
    if tree == [] then []
    else
      var pos := SiblingIndex(idx);
      (if pos < |tree[0]| then [tree[0][pos]] else []) + Path(idx / 2, tree[1..])
  }

  function FindLeaf(leaves: seq<Liability>, node: Liability): (i: nat)
    ensures i <= |leaves| && (i < |leaves| ==> leaves[i] == node)
    ensures i == |leaves| ==> node !in leaves
  {
    if leaves == [] then 0 else if leaves[0] == node then 0 else 1 + FindLeaf(leaves[1..], node)
  }

  function HashAll(entries: seq<Entry>): (r: seq<Liability>)
    ensures |r| == |entries|
    ensures forall i :: 0 <= i < |r| ==> r[i] == Hash(entries[i])
  {
    if entries == [] then [] else [Hash(entries[0])] + HashAll(entries[1..])
  }

  datatype SolvencyTree = SolvencyTree(levels: seq<seq<Liability>>, rawLeaves: seq<Entry>) {

    predicate Built(compare: Compare) {
      levels == Levels(compare, HashAll(rawLeaves))
    }

    function GetHeight(): nat {
      |levels|
    }

    function GetWidth(): nat {
      |rawLeaves|
    }
  }

  datatype MerkleError = ElementNotFound

  method Build(compare: Compare, entries: seq<Entry>) returns (tree: SolvencyTree)
    ensures tree.Built(compare) && tree.rawLeaves == entries
  {
    var levels := ComputeLevels(compare, HashAll(entries));
    tree := SolvencyTree(levels, entries);
  }

  function Root(tree: SolvencyTree): Liability
    requires tree.levels != [] && TopLevel(tree.levels) != []
  {
    TopLevel(tree.levels)[0]
  }

  /** The proof of liability for an element, as a value. */
  function Liabilities(tree: SolvencyTree, e: Entry): Result<seq<Liability>, MerkleError>
    requires tree.levels != []
  {
    var idx := FindLeaf(tree.levels[0], Hash(e));
    if idx == |tree.levels[0]| then Failure(ElementNotFound) else Success(Path(idx, tree.levels))
  }

  method GetLiabilities(tree: SolvencyTree, e: Entry) returns (r: Result<seq<Liability>, MerkleError>)
    requires tree.levels != []
    ensures r == Liabilities(tree, e)
  {
    var idx := FindLeaf(tree.levels[0], Hash(e));
    if idx == |tree.levels[0]| {
      return Failure(ElementNotFound);
    }
    var indices := ProofIndices(idx, tree.levels);
    var proof: seq<Liability> := [];
    for i := 0 to |indices|
      invariant |proof| == i
      invariant forall j :: 0 <= j < i ==> proof[j] == tree.levels[indices[j].0][indices[j].1]
    {
      proof := proof + [tree.levels[indices[i].0][indices[i].1]];
    }
    IndicesGivePath(idx, tree.levels, 0, proof);
    assert tree.levels[0..] == tree.levels;
    r := Success(proof);
  }

  lemma {:induction false} IndicesGivePath(idx: nat, tree: seq<seq<Liability>>, level: nat, proof: seq<Liability>)
    requires level <= |tree|
    requires var indices := IndicesFrom(idx, tree, level);
      && |proof| == |indices|
      && forall j :: 0 <= j < |proof| ==>
           indices[j].0 < |tree| && indices[j].1 < |tree[indices[j].0]| && proof[j] == tree[indices[j].0][indices[j].1]
    ensures proof == Path(idx, tree[level..])
    decreases |tree| - level
  {
    if level < |tree| {
      var pos := SiblingIndex(idx);
      var indices := IndicesFrom(idx, tree, level);
      var rest := IndicesFrom(idx / 2, tree, level + 1);
      assert tree[level..][1..] == tree[level + 1..];
      if pos < |tree[level]| {
        assert indices[1..] == rest && indices[0] == (level, pos);
        assert forall j :: 0 <= j < |rest| ==> rest[j] == indices[j + 1];
        IndicesGivePath(idx / 2, tree, level + 1, proof[1..]);
      } else {
        assert indices == rest;
        IndicesGivePath(idx / 2, tree, level + 1, proof);
      }
    }
  }

  /** Folds a proof onto a leaf, nearest sibling first. */
  function Fold(compare: Compare, head: Liability, proof: seq<Liability>): Liability
    decreases |proof|
  {
    if proof == [] then head else Fold(compare, InternalNode(compare, head, proof[0]), proof[1..])
  }

  predicate ValidateProof(compare: Compare, proof: seq<Liability>, root: Liability, item: Entry) {
    var leaf := Hash(item);
    && IsValidNode(leaf)
    && (forall n :: n in proof ==> IsValidNode(n))
    && Fold(compare, leaf, proof) == root
  }

  /** Nothing on the way to the root takes away from the sum. */
  lemma {:induction false} FoldAddsUp(compare: Compare, head: Liability, proof: seq<Liability>)
    requires forall n :: n in proof ==> IsValidNode(n)
    ensures head.sum <= Fold(compare, head, proof).sum
    decreases |proof|
  {
    if proof != [] {
      FoldAddsUp(compare, InternalNode(compare, head, proof[0]), proof[1..]);
      assert proof[0] in proof;
    }
  }

  /** Whatever tree it is of, a proof that verifies claims no negative balance and no more than the root sums up. */
  lemma {:induction false} ClaimWithinRoot(compare: Compare, proof: seq<Liability>, root: Liability, item: Entry)
    requires ValidateProof(compare, proof, root, item)
    ensures 0.0 <= item.sum <= root.sum
  {
    FoldAddsUp(compare, Hash(item), proof);
  }

  // --- Completeness ---------------------------------------------------------------------------

  lemma InternalNodeCommutes(compare: Compare, a: Liability, b: Liability)
    requires IsOrder(compare)
    ensures InternalNode(compare, a, b) == InternalNode(compare, b, a)
  {
  }

  /** Combining a node with its sibling gives its parent; a node without one is its own parent. */
  lemma ParentOf(compare: Compare, level: seq<Liability>, idx: nat)
    requires IsOrder(compare) && idx < |level| && |level| > 1
    ensures idx / 2 < |NextLevel(compare, level)|
    ensures var pos := SiblingIndex(idx);
      NextLevel(compare, level)[idx / 2]
      == if pos < |level| then InternalNode(compare, level[idx], level[pos]) else level[idx]
  {
    hide InternalNode;
    var pos := SiblingIndex(idx);
    if pos < |level| {
      InternalNodeCommutes(compare, level[idx], level[pos]);
    }
  }

  /** From any leaf, the path leads to the root. */
  lemma {:induction false} PathLeadsToRoot(compare: Compare, leaves: seq<Liability>, idx: nat)
    requires IsOrder(compare) && idx < |leaves|
    ensures var levels := Levels(compare, leaves);
      TopLevel(levels) != [] && Fold(compare, leaves[idx], Path(idx, levels)) == TopLevel(levels)[0]
    decreases |leaves|
  {
    hide InternalNode, IsOrder, NextLevel;
    var levels := Levels(compare, leaves);
    if |leaves| == 1 {
      assert levels == [leaves] && levels[1..] == [];
      assert Path(0, []) == [];
    } else {
      var next := NextLevel(compare, leaves);
      var upper := Levels(compare, next);
      assert levels[1..] == upper;
      ParentOf(compare, leaves, idx);
      PathLeadsToRoot(compare, next, idx / 2);
      var pos := SiblingIndex(idx);
      var path := Path(idx, levels);
      assert path == (if pos < |leaves| then [leaves[pos]] else []) + Path(idx / 2, upper);
      hide Levels, Path, SiblingIndex;
      if pos < |leaves| {
        assert path[0] == leaves[pos] && path[1..] == Path(idx / 2, upper);
      } else {
        assert path == Path(idx / 2, upper);
      }
    }
  }

  ghost predicate AllValid(level: seq<Liability>) {
    forall i :: 0 <= i < |level| ==> IsValidNode(level[i])
  }

  lemma {:induction false} PathIsValid(compare: Compare, leaves: seq<Liability>, idx: nat)
    requires AllValid(leaves) && idx < |leaves|
    ensures forall n :: n in Path(idx, Levels(compare, leaves)) ==> IsValidNode(n)
    decreases |leaves|
  {
    var levels := Levels(compare, leaves);
    if |leaves| == 1 {
      assert levels == [leaves] && levels[1..] == [];
      assert Path(0, []) == [];
    } else {
      var next := NextLevel(compare, leaves);
      assert levels[1..] == Levels(compare, next);
      PathIsValid(compare, next, idx / 2);
    }
  }

  /** The proof extracted for any element of a tree with non-negative sums verifies against its root. */
  lemma {:induction false} ProofsVerify(compare: Compare, tree: SolvencyTree, e: Entry)
    requires IsOrder(compare) && tree.Built(compare)
    requires e in tree.rawLeaves && forall other :: other in tree.rawLeaves ==> other.sum >= 0.0
    ensures TopLevel(tree.levels) != [] && Liabilities(tree, e).Success?
    ensures ValidateProof(compare, Liabilities(tree, e).value, Root(tree), e)
  {
    var leaves := HashAll(tree.rawLeaves);
    var i :| 0 <= i < |tree.rawLeaves| && tree.rawLeaves[i] == e;
    assert leaves[i] == Hash(e);
    var idx := FindLeaf(leaves, Hash(e));
    PathLeadsToRoot(compare, leaves, idx);
    forall j | 0 <= j < |leaves|
      ensures IsValidNode(leaves[j])
    {
      assert tree.rawLeaves[j] in tree.rawLeaves;
    }
    PathIsValid(compare, leaves, idx);
  }

  // --- Soundness ------------------------------------------------------------------------------

  /** The leaf digests that a digest was made from. */
  function LeavesOf(d: Digest): set<Digest> {
    match d
    case LeafHash(_, _, _) => {d}
    case NodeHash(_, left, right) => LeavesOf(left) + LeavesOf(right)
  }

  lemma {:induction false} FoldKeepsLeaf(compare: Compare, head: Liability, proof: seq<Liability>, leaf: Digest)
    requires leaf in LeavesOf(head.hash)
    ensures leaf in LeavesOf(Fold(compare, head, proof).hash)
    decreases |proof|
  {
    if proof != [] {
      FoldKeepsLeaf(compare, InternalNode(compare, head, proof[0]), proof[1..], leaf);
    }
  }

  lemma {:induction false} TreeHasOnlyItsLeaves(compare: Compare, level: seq<Liability>, leaves: set<Digest>)
    requires level != [] && forall i :: 0 <= i < |level| ==> LeavesOf(level[i].hash) <= leaves
    ensures TopLevel(Levels(compare, level)) != []
    ensures LeavesOf(TopLevel(Levels(compare, level))[0].hash) <= leaves
    decreases |level|
  {
    if |level| > 1 {
      TreeHasOnlyItsLeaves(compare, NextLevel(compare, level), leaves);
    }
  }

  /**
   * Whatever nodes a proof lists, if it verifies against the root of a tree then the item is one of
   * the tree's entries, with exactly that sum, address and round.
   */
  lemma {:induction false} VerifiedIsMember(compare: Compare, tree: SolvencyTree, proof: seq<Liability>, item: Entry)
    requires tree.Built(compare) && tree.rawLeaves != [] && TopLevel(tree.levels) != []
    requires ValidateProof(compare, proof, Root(tree), item)
    ensures item in tree.rawLeaves
  {
    var leaves := HashAll(tree.rawLeaves);
    var digests := set l | l in leaves :: l.hash;
    forall i | 0 <= i < |leaves|
      ensures LeavesOf(leaves[i].hash) <= digests
    {
      assert leaves[i] in leaves;
    }
    TreeHasOnlyItsLeaves(compare, leaves, digests);
    FoldKeepsLeaf(compare, Hash(item), proof, Hash(item).hash);
    assert Hash(item).hash in digests;
    var l :| l in leaves && l.hash == Hash(item).hash;
    var i :| 0 <= i < |leaves| && leaves[i] == l;
    assert tree.rawLeaves[i] == item;
  }

  // --- Sums and sizes -------------------------------------------------------------------------

  function SumOfNode(): Liability -> Amount {
    (node: Liability) => node.sum
  }

  lemma {:induction false} NextLevelKeepsSum(compare: Compare, level: seq<Liability>)
    ensures SumBy(NextLevel(compare, level), SumOfNode()) == SumBy(level, SumOfNode())
  {
    if |level| > 1 {
      var first := InternalNode(compare, level[0], level[1]);
      var rest := NextLevel(compare, level[2..]);
      NextLevelKeepsSum(compare, level[2..]);
      SumConcat([first], rest, SumOfNode());
      assert level == [level[0], level[1]] + level[2..];
      SumConcat([level[0], level[1]], level[2..], SumOfNode());
      SumOfOne(first);
      SumOfTwo(level[0], level[1]);
      assert NextLevel(compare, level) == [first] + rest;
      hide NextLevel, SumBy;
    }
  }

  lemma SumOfOne(a: Liability)
    ensures SumBy([a], SumOfNode()) == a.sum
  {
    assert [a][..0] == [];
  }

  lemma SumOfTwo(a: Liability, b: Liability)
    ensures SumBy([a, b], SumOfNode()) == a.sum + b.sum
  {
    assert [a, b][..1] == [a];
    SumOfOne(a);
  }

  /** The root carries the sum of all leaves. */
  lemma {:induction false} RootSum(compare: Compare, leaves: seq<Liability>)
    requires leaves != []
    ensures TopLevel(Levels(compare, leaves)) != []
    ensures TopLevel(Levels(compare, leaves))[0].sum == SumBy(leaves, SumOfNode())
    decreases |leaves|
  {
    if |leaves| == 1 {
      assert leaves == [leaves[0]];
      SumOfOne(leaves[0]);
    } else {
      NextLevelKeepsSum(compare, leaves);
      RootSum(compare, NextLevel(compare, leaves));
    }
  }

  function Pow2(n: nat): nat {
    if n == 0 then 1 else 2 * Pow2(n - 1)
  }

  lemma {:induction false} LevelsAreLeast(compare: Compare, leaves: seq<Liability>)
    requires leaves != []
    ensures var height := |Levels(compare, leaves)|;
      Pow2(height - 1) >= |leaves| && (height > 1 ==> Pow2(height - 2) < |leaves|)
    decreases |leaves|
  {
    if |leaves| > 1 {
      LevelsAreLeast(compare, NextLevel(compare, leaves));
    }
  }

  /** The height is the least one whose bottom level has room for the tree's width. */
  lemma {:induction false} HeightIsLeast(compare: Compare, tree: SolvencyTree)
    requires tree.Built(compare) && tree.rawLeaves != []
    ensures Pow2(tree.GetHeight() - 1) >= tree.GetWidth()
    ensures tree.GetHeight() > 1 ==> Pow2(tree.GetHeight() - 2) < tree.GetWidth()
  {
    hide Levels, Pow2;
    LevelsAreLeast(compare, HashAll(tree.rawLeaves));
  }

  lemma {:induction false} PathLength(compare: Compare, leaves: seq<Liability>, idx: nat)
    requires idx < |leaves|
    ensures |Path(idx, Levels(compare, leaves))| <= |Levels(compare, leaves)| - 1
    decreases |leaves|
  {
    var levels := Levels(compare, leaves);
    if |leaves| == 1 {
      assert levels[1..] == [];
      assert Path(0, []) == [];
    } else {
      var next := NextLevel(compare, leaves);
      assert levels[1..] == Levels(compare, next);
      PathLength(compare, next, idx / 2);
    }
  }

  /** A proof has at most one node for each level below the root. */
  lemma {:induction false} ProofLength(compare: Compare, tree: SolvencyTree, e: Entry)
    requires tree.Built(compare) && tree.levels != []
    ensures Liabilities(tree, e).Success? ==> |Liabilities(tree, e).value| <= tree.GetHeight() - 1
  {
    var leaves := HashAll(tree.rawLeaves);
    assert leaves != [] ==> tree.levels[0] == leaves;
    var idx := FindLeaf(tree.levels[0], Hash(e));
    if leaves != [] && idx < |leaves| {
      hide Levels, Path, FindLeaf;
      PathLength(compare, leaves, idx);
    }
  }
}
