// An honest operator can close every dispute: the inputs it assembles from a sound ledger pass every
// check (src/server/operator/Operator.ts, closeDispute).
module HonestOperator {
  import opened BasicTypes
  import opened BigNumbers
  import opened Sums
  import opened Sorting
  import opened Ledgers
  import opened LedgerBalances
  import opened LedgerBooks
  import opened LedgerSound
  import opened Settlement
  import opened MerkleTree
  import opened Solvency
  import opened Commitments
  import opened ChainProofs
  import opened Disputes
  import opened DisputeFacts

  // --- What the operator hands in -------------------------------------------------------------

  function OfClient(wallet: Address, round: Round): Fill -> bool {
    (f: Fill) => f.clientAddress == wallet && f.round == round
  }

  predicate IdNotAfter(f: Fill, g: Fill) {
    f.fillId <= g.fillId
  }

  /** The client's fills of the disputed round, sorted by fill id. */
  function FillsFor(s: Ledger, wallet: Address, round: Round): seq<Fill> {
    Sort(IdNotAfter, Keep(OfClient(wallet, round), s.fills))
  }

  predicate AllApproved(approvals: seq<ApprovalRow>, fills: seq<Fill>) {
    forall i :: 0 <= i < |fills| ==> HasApproval(approvals, fills[i].approvalId)
  }

  /** Every fill with its own approval beside it. */
  function ApprovalsFor(approvals: seq<ApprovalRow>, fills: seq<Fill>): (r: seq<Approval>)
    requires AllApproved(approvals, fills)
    ensures |r| == |fills|
    ensures forall i :: 0 <= i < |r| ==> r[i] == approvals[FindApproval(approvals, fills[i].approvalId)].params
  {
    if fills == [] then []
    else [approvals[FindApproval(approvals, fills[0].approvalId)].params] + ApprovalsFor(approvals, fills[1..])
  }

  function OpeningsFor(s: Ledger, tokens: seq<Address>, wallet: Address, round: Round): (r: seq<Amount>)
    ensures |r| == |tokens|
    ensures forall i :: 0 <= i < |r| ==> r[i] == Opening(s.accounts, tokens[i], wallet, round)
  {
    if tokens == [] then [] else [Opening(s.accounts, tokens[0], wallet, round)] + OpeningsFor(s, tokens[1..], wallet, round)
  }

  /** The wallet is a leaf of every token's tree. */
  predicate CanProve(compare: Compare, s: Ledger, tokens: seq<Address>, wallet: Address, round: Round) {
    forall i :: 0 <= i < |tokens| ==>
      Liabilities(TreeFor(compare, s, tokens[i], round), EntryFor(s.accounts, tokens[i], round, wallet)).Success?
  }

  /** A proof of the client's opening balance of every token. */
  function ProofsFor(compare: Compare, s: Ledger, tokens: seq<Address>, wallet: Address, round: Round): (r: seq<BalanceProof>)
    requires CanProve(compare, s, tokens, wallet, round)
    ensures |r| == |tokens|
    ensures forall i :: 0 <= i < |r| ==> r[i] == ProofFor(compare, s, tokens[i], wallet, round)
  {
    seq(|tokens|, i requires 0 <= i < |tokens| => ProofFor(compare, s, tokens[i], wallet, round))
  }

  // --- The fills in table order ---------------------------------------------------------------

  lemma {:induction false} KeptIncreasing(p: Fill -> bool, fills: seq<Fill>)
    requires FillsNumbered(fills)
    ensures forall i, j :: 0 <= i < j < |Keep(p, fills)| ==> Keep(p, fills)[i].fillId < Keep(p, fills)[j].fillId
  {
    if fills != [] {
      var n := |fills| - 1;
      KeptIncreasing(p, fills[..n]);
      KeptAreMembers(p, fills[..n]);
      var earlier := Keep(p, fills[..n]);
      forall i | 0 <= i < |earlier|
        ensures earlier[i].fillId < fills[n].fillId
      {
        assert earlier[i] in fills[..n];
      }
    }
  }

  /** Sorting by id changes nothing: the table is numbered in order. */
  lemma {:induction false} FillsForIsKept(s: Ledger, wallet: Address, round: Round)
    requires FillsNumbered(s.fills)
    ensures FillsFor(s, wallet, round) == Keep(OfClient(wallet, round), s.fills)
    ensures forall f :: f in FillsFor(s, wallet, round) <==> f in s.fills && OfClient(wallet, round)(f)
    ensures forall i, j :: 0 <= i < j < |FillsFor(s, wallet, round)| ==>
      FillsFor(s, wallet, round)[i].fillId < FillsFor(s, wallet, round)[j].fillId
  {
    hide OfClient;
    var kept := Keep(OfClient(wallet, round), s.fills);
    KeptIncreasing(OfClient(wallet, round), s.fills);
    KeptAreMembers(OfClient(wallet, round), s.fills);
    SortOfSorted(IdNotAfter, kept);
  }

  /** A prefix of the kept rows is what a prefix of the table keeps. */
  lemma {:induction false} PrefixOfKept<E>(p: E -> bool, xs: seq<E>, n: nat) returns (m: nat)
    requires n <= |Keep(p, xs)|
    ensures m <= |xs| && Keep(p, xs[..m]) == Keep(p, xs)[..n]
  {
    if n == |Keep(p, xs)| {
      m := |xs|;
      assert xs[..m] == xs && Keep(p, xs)[..n] == Keep(p, xs);
    } else {
      var last := |xs| - 1;
      assert Keep(p, xs)[..n] == Keep(p, xs[..last])[..n];
      m := PrefixOfKept(p, xs[..last], n);
      assert xs[..last][..m] == xs[..m];
    }
  }

  // --- Balances through the fills -------------------------------------------------------------

  /** Replaying the client's fills from its opening balance and deposits follows the ledger's running balance. */
  lemma {:induction false} ReplayFollowsLedger(s: Ledger, wallet: Address, round: Round, token: Address, n: nat) returns (m: nat)
    requires FillsNumbered(s.fills) && n <= |FillsFor(s, wallet, round)|
    ensures m <= |s.fills|
    ensures n == |FillsFor(s, wallet, round)| ==> m == |s.fills|
    ensures var k := Key(round, token, wallet);
      SumBy(FillsFor(s, wallet, round)[..n], NetOf(token)) == SumBy(s.fills[..m], NetAt(k))
  {
    var k := Key(round, token, wallet);
    var p := OfClient(wallet, round);
    FillsForIsKept(s, wallet, round);
    if n == |FillsFor(s, wallet, round)| {
      m := |s.fills|;
      assert s.fills[..m] == s.fills && Keep(p, s.fills)[..n] == Keep(p, s.fills);
    } else {
      m := PrefixOfKept(p, s.fills, n);
    }
    var rows := s.fills[..m];
    KeptAreMembers(p, rows);
    forall f | f in rows && !p(f)
      ensures NetAt(k)(f) == 0.0
    {
      assert BoughtAt(k)(f) == 0.0 && SoldAt(k)(f) == 0.0;
    }
    SumOfKept(p, rows, NetAt(k));
    NetAgrees(Keep(p, rows), k);
  }

  lemma {:induction false} NetAgrees(fills: seq<Fill>, k: Key)
    requires forall f :: f in fills ==> OfClient(k.wallet, k.round)(f)
    ensures SumBy(fills, NetOf(k.asset)) == SumBy(fills, NetAt(k))
  {
    forall i | 0 <= i < |fills|
      ensures NetOf(k.asset)(fills[i]) == NetAt(k)(fills[i])
    {
      assert fills[i] in fills;
      assert NetAt(k)(fills[i]) == BoughtAt(k)(fills[i]) - SoldAt(k)(fills[i]);
    }
    SumEqual(fills, NetOf(k.asset), NetAt(k));
  }

  // --- Approved totals through the fills ------------------------------------------------------

  /** The part of a use that belongs to one approval id. */
  function UseFor(id: Id, use: ((Approval, Fill)) -> Amount): ((Approval, Fill)) -> Amount {
    (p: (Approval, Fill)) => if p.0.approvalId == id then use(p) else 0.0
  }

  function UsePerApproval(pairs: seq<(Approval, Fill)>, use: ((Approval, Fill)) -> Amount): Approval -> Amount {
    (a: Approval) => SumBy(pairs, UseFor(a.approvalId, use))
  }

  /** One more pair adds its use to its own approval, if that approval occurred among the first `n`. */
  lemma {:induction false} UseAdded(approvals: seq<Approval>, n: nat, pairs: seq<(Approval, Fill)>, p: (Approval, Fill),
                                    use: ((Approval, Fill)) -> Amount)
    requires n <= |approvals|
    ensures DistinctSum(approvals, n, UsePerApproval(pairs + [p], use))
            == DistinctSum(approvals, n, UsePerApproval(pairs, use))
               + if OccursBefore(approvals, n, p.0.approvalId) then use(p) else 0.0
  {
    if n > 0 {
      UseAdded(approvals, n - 1, pairs, p, use);
      SumAppend(pairs, p, UseFor(approvals[n - 1].approvalId, use));
      assert OccursBefore(approvals, n, p.0.approvalId)
        <==> OccursBefore(approvals, n - 1, p.0.approvalId) || approvals[n - 1].approvalId == p.0.approvalId;
    }
  }

  /** An approval id that has not occurred has not been used. */
  lemma {:induction false} UnusedSoFar(approvals: seq<Approval>, fills: seq<Fill>, n: nat, id: Id, use: ((Approval, Fill)) -> Amount)
    requires |approvals| == |fills| && n <= |fills| && !OccursBefore(approvals, n, id)
    ensures SumBy(Zip(approvals, fills)[..n], UseFor(id, use)) == 0.0
  {
    hide SumBy;
    var before := Zip(approvals, fills)[..n];
    forall i | 0 <= i < |before|
      ensures UseFor(id, use)(before[i]) == 0.0
    {
      assert before[i].0 == approvals[i];
    }
    SumZero(before, UseFor(id, use));
  }

  /** Summing uses approval by approval counts every use once. */
  lemma {:induction false} UsesByApproval(approvals: seq<Approval>, fills: seq<Fill>, n: nat, use: ((Approval, Fill)) -> Amount)
    requires |approvals| == |fills| && n <= |fills|
    ensures SumBy(Zip(approvals, fills)[..n], use)
            == DistinctSum(approvals, n, UsePerApproval(Zip(approvals, fills)[..n], use))
  {
    hide OccursBefore;
    var pairs := Zip(approvals, fills);
    if n > 0 {
      UsesByApproval(approvals, fills, n - 1, use);
      hide SumBy, DistinctSum;
      var p := pairs[n - 1];
      var before := pairs[..n - 1];
      assert pairs[..n] == before + [p];
      var f, g := UsePerApproval(before, use), UsePerApproval(before + [p], use);
      SumAppend(before, p, use);
      UseAdded(approvals, n - 1, before, p, use);
      SumAppend(before, p, UseFor(p.0.approvalId, use));
      NextApproval(approvals, n - 1);
      assert g(approvals[n - 1]) == f(approvals[n - 1]) + use(p);
      if !OccursBefore(approvals, n - 1, p.0.approvalId) {
        UnusedSoFar(approvals, fills, n - 1, p.0.approvalId, use);
      }
    } else {
      assert pairs[..0] == [];
    }
  }

  lemma {:induction false} DistinctSumMonotone(approvals: seq<Approval>, n: nat, f: Approval -> Amount, g: Approval -> Amount)
    requires n <= |approvals| && forall i :: 0 <= i < n ==> f(approvals[i]) <= g(approvals[i])
    ensures DistinctSum(approvals, n, f) <= DistinctSum(approvals, n, g)
  {
    if n > 0 {
      DistinctSumMonotone(approvals, n - 1, f, g);
    }
  }

  /** If no approval is used beyond its cap, no prefix of the fills exceeds the distinct total. */
  lemma {:induction false} UsesWithinTotal(approvals: seq<Approval>, fills: seq<Fill>, n: nat,
                                           use: ((Approval, Fill)) -> Amount, cap: Approval -> Amount)
    requires |approvals| == |fills| && n <= |fills|
    requires forall i :: 0 <= i < |fills| ==> use(Zip(approvals, fills)[i]) >= 0.0
    requires forall i :: 0 <= i < |approvals| ==> UsePerApproval(Zip(approvals, fills), use)(approvals[i]) <= cap(approvals[i])
    ensures SumBy(Zip(approvals, fills)[..n], use) <= DistinctSum(approvals, |approvals|, cap)
  {
    var pairs := Zip(approvals, fills);
    SumPrefix(pairs, n, use);
    assert pairs[..|fills|] == pairs;
    UsesByApproval(approvals, fills, |fills|, use);
    DistinctSumMonotone(approvals, |approvals|, UsePerApproval(pairs, use), cap);
  }

  lemma {:induction false} PairsToFills(approvals: seq<Approval>, fills: seq<Fill>, use: ((Approval, Fill)) -> Amount, f: Fill -> Amount)
    requires |approvals| == |fills|
    requires forall i :: 0 <= i < |fills| ==> use((approvals[i], fills[i])) <= f(fills[i])
    ensures SumBy(Zip(approvals, fills), use) <= SumBy(fills, f)
  {
    if fills != [] {
      var n := |fills| - 1;
      PairsToFills(approvals[..n], fills[..n], use, f);
      assert Zip(approvals, fills)[..n] == Zip(approvals[..n], fills[..n]);
    }
  }

  // --- Fills and approvals of one client ------------------------------------------------------

  /** Each fill is backed and honoured by the approval handed in beside it. */
  lemma {:induction false} FillsHaveApprovals(s: Ledger, wallet: Address, round: Round)
    requires BooksBalance(s)
    ensures AllApproved(s.approvals, FillsFor(s, wallet, round))
    ensures var fills := FillsFor(s, wallet, round);
      var approvals := ApprovalsFor(s.approvals, fills);
      forall i :: 0 <= i < |fills| ==> Backs(approvals[i], fills[i]) && Honours(approvals[i], fills[i])
  {
    hide Backs, Honours, FindApproval, NoneOverfilled, FilledExactly, RowsExist;
    FillsForIsKept(s, wallet, round);
    var fills := FillsFor(s, wallet, round);
    forall f | f in fills
      ensures BackedFill(s.approvals, f)
    {
      var j :| 0 <= j < |s.fills| && s.fills[j] == f;
      assert BackedFill(s.approvals, s.fills[j]);
    }
    assert forall i :: 0 <= i < |fills| ==> fills[i] in fills;
  }

  /** What the client's fills use of one approval is at most what the whole table filled of it. */
  lemma {:induction false} PartOfFilled(s: Ledger, wallet: Address, round: Round, f: Fill -> Amount)
    requires FillsNumbered(s.fills) && forall j :: 0 <= j < |s.fills| ==> f(s.fills[j]) >= 0.0
    ensures SumBy(FillsFor(s, wallet, round), f) <= SumBy(s.fills, f)
  {
    FillsForIsKept(s, wallet, round);
    KeptIsPart(OfClient(wallet, round), s.fills, f);
  }

  lemma {:induction false} KeptIsPart<E>(p: E -> bool, xs: seq<E>, f: E -> Amount)
    requires forall j :: 0 <= j < |xs| ==> f(xs[j]) >= 0.0
    ensures SumBy(Keep(p, xs), f) <= SumBy(xs, f)
  {
    if xs != [] {
      var n := |xs| - 1;
      KeptIsPart(p, xs[..n], f);
      if p(xs[n]) {
        SumAppend(Keep(p, xs[..n]), xs[n], f);
      } else {
        assert Keep(p, xs) == Keep(p, xs[..n]);
      }
    }
  }

  /** The whole table fills of one approval what its row says, and no more than it approved. */
  lemma {:induction false} ApprovalCaps(s: Ledger, f: Fill)
    requires BooksBalance(s) && HasApproval(s.approvals, f.approvalId)
    ensures var a := s.approvals[FindApproval(s.approvals, f.approvalId)].params;
      && SumBy(s.fills, SellFor(f.approvalId)) <= a.sell
      && (a.intent.BuyAll? ==> SumBy(s.fills, BuyFor(f.approvalId)) <= a.buy)
  {
    hide FindApproval, Times, FillsBacked, RowsExist;
    var i := FindApproval(s.approvals, f.approvalId);
    assert FilledBy(s.approvals[i], s.fills) && NotOverfilled(s.approvals[i]);
  }

  /** Each fill alone is inside its approval. */
  lemma {:induction false} FillWithinApproval(s: Ledger, f: Fill)
    requires BooksBalance(s) && f in s.fills && HasApproval(s.approvals, f.approvalId)
    ensures var a := s.approvals[FindApproval(s.approvals, f.approvalId)].params;
      f.sell <= a.sell && (a.intent.BuyAll? ==> f.buy <= a.buy)
  {
    hide FindApproval, BooksBalance;
    FillAmountsNonNegative(s);
    ApprovalCaps(s, f);
    var j :| 0 <= j < |s.fills| && s.fills[j] == f;
    SumMember(s.fills, j, SellFor(f.approvalId));
    SumMember(s.fills, j, BuyFor(f.approvalId));
  }

  /** Approved totals never run out, at any prefix of the fills. */
  lemma {:induction false} ApprovedTotalsHold(s: Ledger, wallet: Address, round: Round, n: nat, token: Address)
    requires BooksBalance(s) && n <= |FillsFor(s, wallet, round)|
    requires AllApproved(s.approvals, FillsFor(s, wallet, round))
    ensures var fills := FillsFor(s, wallet, round);
      var approvals := ApprovalsFor(s.approvals, fills);
      ApprovedSellLeft(approvals, fills, n, token) >= 0.0 && ApprovedBuyLeft(approvals, fills, n, token) >= 0.0
  {
    hide FindApproval, BooksBalance, FillsFor, SumBy, DistinctSum, Backs, Honours;
    var fills := FillsFor(s, wallet, round);
    var approvals := ApprovalsFor(s.approvals, fills);
    FillsHaveApprovals(s, wallet, round);
    ClientFillsNonNegative(s, wallet, round);
    forall i | 0 <= i < |approvals|
      ensures UsePerApproval(Zip(approvals, fills), SellUse(token))(approvals[i]) <= ApprovedSellOf(token)(approvals[i])
      ensures UsePerApproval(Zip(approvals, fills), BuyUse(token))(approvals[i]) <= ApprovedBuyOf(token)(approvals[i])
    {
      SellUseCapped(s, wallet, round, i, token);
      BuyUseCapped(s, wallet, round, i, token);
    }
    UsesWithinTotal(approvals, fills, n, SellUse(token), ApprovedSellOf(token));
    UsesWithinTotal(approvals, fills, n, BuyUse(token), ApprovedBuyOf(token));
  }

  lemma ClientFillsNonNegative(s: Ledger, wallet: Address, round: Round)
    requires BooksBalance(s)
    ensures forall i :: 0 <= i < |FillsFor(s, wallet, round)| ==>
      FillsFor(s, wallet, round)[i].buy >= 0.0 && FillsFor(s, wallet, round)[i].sell >= 0.0
      && FillsFor(s, wallet, round)[i] in s.fills
  {
    hide FillsFor, FindApproval, NoneOverfilled, FilledExactly, FillsBacked, RowsExist;
    FillAmountsNonNegative(s);
    FillsForIsKept(s, wallet, round);
    var fills := FillsFor(s, wallet, round);
    forall i | 0 <= i < |fills|
      ensures fills[i].buy >= 0.0 && fills[i].sell >= 0.0 && fills[i] in s.fills
    {
      assert fills[i] in fills;
    }
  }

  lemma {:induction false} SellUseCapped(s: Ledger, wallet: Address, round: Round, i: nat, token: Address)
    requires BooksBalance(s) && i < |FillsFor(s, wallet, round)|
    requires AllApproved(s.approvals, FillsFor(s, wallet, round))
    ensures var fills := FillsFor(s, wallet, round);
      var approvals := ApprovalsFor(s.approvals, fills);
      UsePerApproval(Zip(approvals, fills), SellUse(token))(approvals[i]) <= ApprovedSellOf(token)(approvals[i])
  {
    hide FindApproval, FillsFor, SumBy, Honours, NoneOverfilled, FilledExactly, FillsBacked, RowsExist, UniqueIds, FillsNumbered;
    var fills := FillsFor(s, wallet, round);
    var approvals := ApprovalsFor(s.approvals, fills);
    var a := approvals[i];
    FillsHaveApprovals(s, wallet, round);
    ClientFillsNonNegative(s, wallet, round);
    assert Backs(a, fills[i]) && fills[i] in fills;
    SameIdSameApproval(s, fills, a.approvalId);
    if a.sellAsset == token {
      PairsToFills(approvals, fills, UseFor(a.approvalId, SellUse(token)), SellFor(a.approvalId));
      FillAmountsNonNegative(s);
      PartOfFilled(s, wallet, round, SellFor(a.approvalId));
      ApprovalCaps(s, fills[i]);
    } else {
      SumZero(Zip(approvals, fills), UseFor(a.approvalId, SellUse(token)));
    }
  }

  lemma {:induction false} BuyUseCapped(s: Ledger, wallet: Address, round: Round, i: nat, token: Address)
    requires BooksBalance(s) && i < |FillsFor(s, wallet, round)|
    requires AllApproved(s.approvals, FillsFor(s, wallet, round))
    ensures var fills := FillsFor(s, wallet, round);
      var approvals := ApprovalsFor(s.approvals, fills);
      UsePerApproval(Zip(approvals, fills), BuyUse(token))(approvals[i]) <= ApprovedBuyOf(token)(approvals[i])
  {
    hide FindApproval, FillsFor, SumBy, Honours, NoneOverfilled, FilledExactly, FillsBacked, RowsExist, UniqueIds, FillsNumbered;
    var fills := FillsFor(s, wallet, round);
    var approvals := ApprovalsFor(s.approvals, fills);
    var a := approvals[i];
    FillsHaveApprovals(s, wallet, round);
    ClientFillsNonNegative(s, wallet, round);
    assert Backs(a, fills[i]) && fills[i] in fills;
    SameIdSameApproval(s, fills, a.approvalId);
    if a.intent.BuyAll? && a.buyAsset == token {
      PairsToFills(approvals, fills, UseFor(a.approvalId, BuyUse(token)), BuyFor(a.approvalId));
      FillAmountsNonNegative(s);
      PartOfFilled(s, wallet, round, BuyFor(a.approvalId));
      ApprovalCaps(s, fills[i]);
    } else {
      SumZero(Zip(approvals, fills), UseFor(a.approvalId, BuyUse(token)));
    }
  }

  /** Fills with one approval id have one approval beside them. */
  lemma SameIdSameApproval(s: Ledger, fills: seq<Fill>, id: Id)
    requires AllApproved(s.approvals, fills)
    ensures var approvals := ApprovalsFor(s.approvals, fills);
      forall i, j :: 0 <= i < |fills| && 0 <= j < |fills| && approvals[i].approvalId == id == approvals[j].approvalId ==>
        approvals[i] == approvals[j]
  {
    hide FindApproval;
  }

  // --- Counting the client's fills ------------------------------------------------------------

  /** The stored fills recognise exactly the client's among the operator's. */
  lemma {:induction false} RecognisedIffClient(clientFills: seq<Fill>, fills: seq<Fill>, f: Fill)
    requires StrictlyNumbered(clientFills) && StrictlyNumbered(fills)
    requires (forall c :: c in clientFills ==> c in fills) && f in fills && f.fillId > 0
    ensures Recognised(StoreFills(clientFills), f) <==> f in clientFills
  {
    StoredAreClientFills(clientFills);
    if f.fillId in StoreFills(clientFills) {
      var c := StoreFills(clientFills)[f.fillId];
      assert c in fills;
      var i :| 0 <= i < |fills| && fills[i] == c;
      var j :| 0 <= j < |fills| && fills[j] == f;
      assert i == j;
    }
  }

  lemma {:induction false} CountMembers(stored: map<nat, Fill>, fills: seq<Fill>, clientFills: seq<Fill>)
    requires StrictlyNumbered(fills) && StrictlyNumbered(clientFills)
    requires forall c :: c in clientFills ==> c in fills
    requires forall f :: f in fills ==> (Recognised(stored, f) <==> f in clientFills)
    ensures MatchCount(stored, fills) == |clientFills|
    decreases |fills|
  {
    hide Recognised, StrictlyNumbered;
    if fills == [] {
      NoMembersIsEmpty(clientFills);
    } else {
      var n := |fills| - 1;
      var known := if fills[n] in clientFills then clientFills[..|clientFills| - 1] else clientFills;
      WithoutLast(fills, clientFills);
      CountMembers(stored, fills[..n], known);
    }
  }

  lemma NoMembersIsEmpty(fills: seq<Fill>)
    ensures fills == [] || fills[0] in fills
  {
  }

  /** What the client knows of all fills but the last. */
  lemma {:induction false} WithoutLast(fills: seq<Fill>, clientFills: seq<Fill>)
    requires StrictlyNumbered(fills) && StrictlyNumbered(clientFills) && fills != []
    requires forall c :: c in clientFills ==> c in fills
    ensures var n := |fills| - 1;
      var known := if fills[n] in clientFills then clientFills[..|clientFills| - 1] else clientFills;
      && StrictlyNumbered(fills[..n]) && StrictlyNumbered(known)
      && (forall c :: c in known ==> c in fills[..n])
      && (forall f :: f in fills[..n] ==> f in fills && (f in known <==> f in clientFills))
  {
    hide StrictlyNumbered;
    FrontOf(fills);
    if fills[|fills| - 1] in clientFills {
      LastIsLast(fills, clientFills);
      FrontOf(clientFills);
    }
  }

  lemma FrontOf(fills: seq<Fill>)
    requires StrictlyNumbered(fills) && fills != []
    ensures var front := fills[..|fills| - 1];
      StrictlyNumbered(front) && forall f :: f in front <==> f in fills && f != fills[|fills| - 1]
  {
    assert fills == fills[..|fills| - 1] + [fills[|fills| - 1]];
  }

  lemma LastIsLast(fills: seq<Fill>, clientFills: seq<Fill>)
    requires StrictlyNumbered(fills) && StrictlyNumbered(clientFills)
    requires fills != [] && fills[|fills| - 1] in clientFills
    requires forall c :: c in clientFills ==> c in fills
    ensures clientFills != [] && clientFills[|clientFills| - 1] == fills[|fills| - 1]
  {
    var m := |clientFills| - 1;
    var last := clientFills[m];
    assert last in clientFills;
    var i :| 0 <= i < |fills| && fills[i] == last;
    var k :| 0 <= k < |clientFills| && clientFills[k] == fills[|fills| - 1];
    assert clientFills[k].fillId >= last.fillId;
  }

  // --- The dispute ----------------------------------------------------------------------------

  /**
   * A dispute of a client about `round`: it started from its opening balances and stored the fills it
   * knows; the chain saw the deposits and withdrawals of the client that the ledger recorded.
   */
  ghost predicate DisputeAbout(t: Terms, s: Ledger, tokens: seq<Address>, wallet: Address, round: Round, clientFills: seq<Fill>) {
    && t.tokens == tokens && t.client == wallet
    && t.dispute.round == round + 1 && t.dispute.open && t.dispute.fillCount == |clientFills|
    && t.dispute.openingBalances == OpeningsFor(s, tokens, wallet, round)
    && StoredUnder(t.disputeFills, t.dispute.disputeId) == StoreFills(clientFills)
    && forall token :: token in tokens ==>
         && TotalAt(t.deposits, round, token) == AccountAt(s.accounts, Key(round, token, wallet)).deposited
         && TotalAt(t.withdrawals, round, token) == AccountAt(s.accounts, Key(round, token, wallet)).withdrawn
  }

  lemma {:induction false} OpeningLookup(s: Ledger, tokens: seq<Address>, openings: seq<Amount>, wallet: Address, round: Round, token: Address)
    requires |openings| == |tokens| && token in tokens
    requires forall i :: 0 <= i < |tokens| ==> openings[i] == Opening(s.accounts, tokens[i], wallet, round)
    ensures OpeningIn(tokens, openings, token) == Opening(s.accounts, token, wallet, round)
  {
    hide Opening;
    var n := |tokens| - 1;
    if tokens[n] != token {
      assert tokens == tokens[..n] + [tokens[n]];
      OpeningLookup(s, tokens[..n], openings[..n], wallet, round, token);
    }
  }

  lemma OpeningInProofs(s: Ledger, tokens: seq<Address>, wallet: Address, round: Round, token: Address)
    requires token in tokens
    ensures OpeningIn(tokens, OpeningsFor(s, tokens, wallet, round), token) == Opening(s.accounts, token, wallet, round)
  {
    hide Opening, OpeningIn;
    OpeningLookup(s, tokens, OpeningsFor(s, tokens, wallet, round), wallet, round, token);
  }

  /** The mediator's balance after `n` fills is the ledger's running balance at some point. */
  lemma {:induction false} BalanceFollowsLedger(t: Terms, s: Ledger, tokens: seq<Address>, wallet: Address, round: Round,
                                                clientFills: seq<Fill>, n: nat, token: Address) returns (m: nat)
    requires DisputeAbout(t, s, tokens, wallet, round, clientFills)
    requires FillsNumbered(s.fills) && n <= |FillsFor(s, wallet, round)| && token in tokens
    ensures m <= |s.fills|
    ensures n == |FillsFor(s, wallet, round)| ==> m == |s.fills|
    ensures BalanceAfter(t, FillsFor(s, wallet, round), n, token)
            == RunningBalance(s.accounts, s.fills, Key(round, token, wallet), m)
  {
    hide Opening, AccountAt, FillsFor, SumBy;
    m := ReplayFollowsLedger(s, wallet, round, token, n);
    OpeningInProofs(s, tokens, wallet, round, token);
  }

  lemma {:induction false} BalancesStayCovered(t: Terms, s: Ledger, tokens: seq<Address>, wallet: Address, round: Round,
                                               clientFills: seq<Fill>, n: nat, token: Address)
    requires DisputeAbout(t, s, tokens, wallet, round, clientFills)
    requires FillsNumbered(s.fills) && PrefixCovered(s.accounts, s.fills)
    requires n <= |FillsFor(s, wallet, round)| && token in tokens
    ensures BalanceAfter(t, FillsFor(s, wallet, round), n, token) >= 0.0
  {
    hide FillsFor, BalanceAfter, RunningBalance;
    var m := BalanceFollowsLedger(t, s, tokens, wallet, round, clientFills, n, token);
    assert RunningBalance(s.accounts, s.fills, Key(round, token, wallet), m) >= 0.0;
  }

  /** What is left after all fills and withdrawals is the next round's opening balance. */
  lemma {:induction false} FinalIsNextOpening(t: Terms, s: Ledger, tokens: seq<Address>, wallet: Address, round: Round,
                                              clientFills: seq<Fill>, token: Address)
    requires DisputeAbout(t, s, tokens, wallet, round, clientFills)
    requires Represented(s) && FillsNumbered(s.fills) && token in tokens
    ensures FinalBalance(t, FillsFor(s, wallet, round), token)
            == Opening(s.accounts, token, wallet, round + 1)
  {
    hide FillsFor, BalanceAfter, RunningBalance, Opening, Represented;
    var m := BalanceFollowsLedger(t, s, tokens, wallet, round, clientFills, |FillsFor(s, wallet, round)|, token);
    RunningBalanceAtEnd(s, Key(round, token, wallet));
  }

  lemma {:induction false} ClientFillsCounted(t: Terms, s: Ledger, tokens: seq<Address>, wallet: Address, round: Round, clientFills: seq<Fill>)
    requires DisputeAbout(t, s, tokens, wallet, round, clientFills)
    requires FillsNumbered(s.fills) && IdsIncreasing(clientFills)
    requires forall c :: c in clientFills ==> c in FillsFor(s, wallet, round)
    ensures ClientFillsIncluded(t, FillsFor(s, wallet, round))
  {
    hide FillsFor;
    FillsForIsKept(s, wallet, round);
    NeighboursToPairs(clientFills);
    var fills := FillsFor(s, wallet, round);
    assert StoredUnder(t.disputeFills, t.dispute.disputeId) == StoreFills(clientFills);
    forall i | 0 <= i < |fills|
      ensures Recognised(StoreFills(clientFills), fills[i]) <==> fills[i] in clientFills
    {
      assert fills[i] in fills && fills[i] in s.fills;
      RecognisedIffClient(clientFills, fills, fills[i]);
    }
    CountMembers(StoreFills(clientFills), fills, clientFills);
  }

  lemma {:induction false} AllFillsCovered(t: Terms, s: Ledger, tokens: seq<Address>, wallet: Address, round: Round,
                                           clientFills: seq<Fill>, i: nat)
    requires DisputeAbout(t, s, tokens, wallet, round, clientFills)
    requires BooksBalance(s) && PrefixCovered(s.accounts, s.fills)
    requires i < |FillsFor(s, wallet, round)| && TokensListed(tokens, FillsFor(s, wallet, round))
    requires AllApproved(s.approvals, FillsFor(s, wallet, round))
    ensures FillCovered(t,
                        ApprovalsFor(s.approvals, FillsFor(s, wallet, round)), FillsFor(s, wallet, round), i)
  {
    hide FillsFor, BalanceAfter, ApprovedBuyLeft, ApprovedSellLeft, PrefixCovered, FindApproval;
    hide NoneOverfilled, FilledExactly, FillsBacked, RowsExist, UniqueIds;
    var f := FillsFor(s, wallet, round)[i];
    BalancesStayCovered(t, s, tokens, wallet, round, clientFills, i + 1, f.buyAsset);
    BalancesStayCovered(t, s, tokens, wallet, round, clientFills, i + 1, f.sellAsset);
    ApprovedTotalsHold(s, wallet, round, i + 1, f.buyAsset);
    ApprovedTotalsHold(s, wallet, round, i + 1, f.sellAsset);
    ClientFillsNonNegative(s, wallet, round);
    FillWithinApproval(s, f);
  }

  lemma {:induction false} FillsMatch(s: Ledger, wallet: Address, round: Round)
    requires BooksBalance(s)
    ensures AllApproved(s.approvals, FillsFor(s, wallet, round))
    ensures FillsMatchApprovals(ApprovalsFor(s.approvals, FillsFor(s, wallet, round)), FillsFor(s, wallet, round))
  {
    hide FillsFor, FindApproval, Times, NoneOverfilled, FilledExactly, FillsBacked, RowsExist, UniqueIds;
    FillsHaveApprovals(s, wallet, round);
    var fills := FillsFor(s, wallet, round);
    var approvals := ApprovalsFor(s.approvals, fills);
    forall i | 0 <= i < |approvals|
      ensures FillMatchesApproval(approvals[i], fills[i])
    {
      assert Backs(approvals[i], fills[i]) && Honours(approvals[i], fills[i]);
      ApprovalBuysNonNegative(s, fills[i]);
    }
  }

  lemma ApprovalBuysNonNegative(s: Ledger, f: Fill)
    requires BooksBalance(s) && HasApproval(s.approvals, f.approvalId)
    ensures s.approvals[FindApproval(s.approvals, f.approvalId)].params.buy >= 0.0
  {
    hide FindApproval, Times, FilledExactly, FillsBacked, RowsExist, UniqueIds;
    assert NotOverfilled(s.approvals[FindApproval(s.approvals, f.approvalId)]);
  }

  /** Every balance check of the mediator passes, and the proofs are of the final balances. */
  lemma {:induction false} BalancesClose(t: Terms, s: Ledger, tokens: seq<Address>, wallet: Address, round: Round, clientFills: seq<Fill>)
    requires DisputeAbout(t, s, tokens, wallet, round, clientFills)
    requires Sound(s)
    ensures var fills := FillsFor(s, wallet, round);
      forall token :: token in tokens ==>
        && BalanceAfter(t, fills, 0, token) >= 0.0
        && FinalBalance(t, fills, token) == Opening(s.accounts, token, wallet, round + 1) >= 0.0
  {
    hide FillsFor, BalanceAfter, FinalBalance, Opening, Represented, NonNegative, PrefixCovered, CacheExact, WalletsKnown;
    hide NoneOverfilled, FilledExactly, FillsBacked, RowsExist, FillsNumbered;
    forall token | token in tokens
      ensures BalanceAfter(t, FillsFor(s, wallet, round), 0, token) >= 0.0
      ensures FinalBalance(t, FillsFor(s, wallet, round), token)
              == Opening(s.accounts, token, wallet, round + 1) >= 0.0
    {
      BalancesStayCovered(t, s, tokens, wallet, round, clientFills, 0, token);
      FinalIsNextOpening(t, s, tokens, wallet, round, clientFills, token);
      OpeningNonNegative(s.accounts, token, wallet, round + 1);
    }
  }

  lemma {:induction false} AllOfDispute(t: Terms, s: Ledger, tokens: seq<Address>, wallet: Address, round: Round, clientFills: seq<Fill>)
    requires DisputeAbout(t, s, tokens, wallet, round, clientFills)
    requires BooksBalance(s) && AllApproved(s.approvals, FillsFor(s, wallet, round))
    ensures OfDispute(t,
                      ApprovalsFor(s.approvals, FillsFor(s, wallet, round)), FillsFor(s, wallet, round))
  {
    hide FillsFor, FindApproval, Honours, NoneOverfilled, FilledExactly, FillsBacked, RowsExist, UniqueIds;
    FillsForIsKept(s, wallet, round);
    FillsHaveApprovals(s, wallet, round);
    var fills := FillsFor(s, wallet, round);
    assert forall i :: 0 <= i < |fills| ==> fills[i] in fills;
  }

  /**
   * From a sound ledger, the operator's fills, approvals and new opening balances pass the whole accounting
   * of a dispute, whatever part of its fills the client handed in, none included.
   */
  lemma {:induction false} HonestAccountsSettle(t: Terms, s: Ledger, tokens: seq<Address>, wallet: Address, round: Round,
                                                clientFills: seq<Fill>, proofs: seq<BalanceProof>)
    requires DisputeAbout(t, s, tokens, wallet, round, clientFills)
    requires Sound(s)
    requires TokensListed(tokens, FillsFor(s, wallet, round))
    requires IdsIncreasing(clientFills) && forall c :: c in clientFills ==> c in FillsFor(s, wallet, round)
    requires ProofsInOrder(tokens, proofs)
    requires forall i :: 0 <= i < |proofs| ==> proofs[i].clientOpeningBalance == Opening(s.accounts, tokens[i], wallet, round + 1)
    ensures AllApproved(s.approvals, FillsFor(s, wallet, round))
    ensures Settles(t, proofs, ApprovalsFor(s.approvals, FillsFor(s, wallet, round)), FillsFor(s, wallet, round))
  {
    hide FillsFor, BalanceAfter, FillCovered, FinalBalance, FillMatchesApproval, Opening, ClientFillsIncluded, TokensListed, StoreFills;
    hide Represented, NonNegative, CacheExact, WalletsKnown, FindApproval, NoneOverfilled, FilledExactly, FillsBacked, RowsExist;
    hide PrefixCovered, FillsNumbered, UniqueIds, WithdrawalsInOrder, DepositsPositive, OfDispute, TotalAt;
    var fills := FillsFor(s, wallet, round);
    var approvals := ApprovalsFor(s.approvals, fills) by { FillsMatch(s, wallet, round); }
    assert IdsIncreasing(fills) by { FillsForIsKept(s, wallet, round); }
    FillsMatch(s, wallet, round);
    AllOfDispute(t, s, tokens, wallet, round, clientFills);
    ClientFillsCounted(t, s, tokens, wallet, round, clientFills);
    ListedAreTheirSlots(tokens, approvals, fills);
    BalancesClose(t, s, tokens, wallet, round, clientFills);
    forall i | 0 <= i < |fills|
      ensures FillCovered(t, approvals, fills, i)
    {
      AllFillsCovered(t, s, tokens, wallet, round, clientFills, i);
    }
  }

  // --- Proofs ---------------------------------------------------------------------------------

  /** The contract holds the operator's roots of a round, and saw what the ledger holds before it. */
  ghost predicate CommittedRound(compare: Compare, s: Ledger, tokens: seq<Address>, commits: Commits, openings: Totals, deposits: Totals,
                                 withdrawals: Totals, round: Round) {
    forall token :: token in tokens ==>
      && CommittedFor(compare, s, commits, openings, token, round)
      && TotalsAgree(s, deposits, withdrawals, token, round)
      && Carried(openings, deposits, withdrawals, token, round)
  }

  /** No wallet that joined in the round or later opens it with any of the tokens. */
  ghost predicate NoLateHoldings(s: Ledger, tokens: seq<Address>, round: Round) {
    forall token :: token in tokens ==> LatecomersHoldNothing(s, token, round)
  }

  lemma {:induction false} ProofsValidIff(compare: Compare, s: Ledger, tokens: seq<Address>, wallet: Address, round: Round,
                                          commits: Commits, openings: Totals, deposits: Totals, withdrawals: Totals)
    requires IsOrder(compare) && Sound(s) && Conserved(s.fills) && wallet in JoinedBefore(s.wallets, round)
    requires CommittedRound(compare, s, tokens, commits, openings, deposits, withdrawals, round)
    ensures CanProve(compare, s, tokens, wallet, round)
    ensures ProofArrayValid(compare, commits, tokens, wallet, round, ProofsFor(compare, s, tokens, wallet, round))
            <==> NoLateHoldings(s, tokens, round)
  {
    hide IsOrder, Sound, Conserved, CommittedFor, TotalsAgree, Carried, LatecomersHoldNothing, IsProofValid, Liabilities, TreeFor, Opening;
    forall i | 0 <= i < |tokens|
      ensures Liabilities(TreeFor(compare, s, tokens[i], round), EntryFor(s.accounts, tokens[i], round, wallet)).Success?
      ensures IsProofValid(compare, commits, ProofFor(compare, s, tokens[i], wallet, round), round)
              <==> LatecomersHoldNothing(s, tokens[i], round)
    {
      assert tokens[i] in tokens;
      MembersProveOnChainIff(compare, s, commits, openings, deposits, withdrawals, tokens[i], wallet, round);
    }
    var proofs := ProofsFor(compare, s, tokens, wallet, round);
    assert forall i :: 0 <= i < |tokens| ==> proofs[i] == ProofFor(compare, s, tokens[i], wallet, round);
  }

  /** The operator finds every approval and proof, and what it hands in passes the accounting. */
  predicate OperatorSettles(compare: Compare, t: Terms, s: Ledger, tokens: seq<Address>, wallet: Address, round: Round) {
    && AllApproved(s.approvals, FillsFor(s, wallet, round))
    && CanProve(compare, s, tokens, wallet, round + 1)
    && Settles(t, ProofsFor(compare, s, tokens, wallet, round + 1), ApprovalsFor(s.approvals, FillsFor(s, wallet, round)),
               FillsFor(s, wallet, round))
  }

  /** The operator finds every approval and proof, and what it hands in closes the dispute. */
  predicate OperatorCloses(compare: Compare, now: Clock, t: Terms, s: Ledger, tokens: seq<Address>, wallet: Address, round: Round) {
    && AllApproved(s.approvals, FillsFor(s, wallet, round))
    && CanProve(compare, s, tokens, wallet, round + 1)
    && Closes(compare, now, t, ProofsFor(compare, s, tokens, wallet, round + 1), ApprovalsFor(s.approvals, FillsFor(s, wallet, round)),
              FillsFor(s, wallet, round))
  }

  lemma ClosesWhenSettled(compare: Compare, now: Clock, t: Terms, s: Ledger, tokens: seq<Address>, wallet: Address, round: Round)
    requires OperatorSettles(compare, t, s, tokens, wallet, round) && OnTime(now, t.dispute)
    requires t.tokens == tokens && t.client == wallet && t.dispute.round == round + 1
    ensures OperatorCloses(compare, now, t, s, tokens, wallet, round)
            <==> ProofArrayValid(compare, t.commits, tokens, wallet, round + 1, ProofsFor(compare, s, tokens, wallet, round + 1))
  {
    hide AllApproved, FillsFor, CanProve, Settles, ProofArrayValid, OnTime;
  }

  lemma {:induction false} HonestOperatorSettles(compare: Compare, t: Terms, s: Ledger, tokens: seq<Address>, wallet: Address, round: Round,
                                                 clientFills: seq<Fill>)
    requires DisputeAbout(t, s, tokens, wallet, round, clientFills) && Sound(s)
    requires CanProve(compare, s, tokens, wallet, round + 1)
    requires TokensListed(tokens, FillsFor(s, wallet, round))
    requires IdsIncreasing(clientFills) && forall c :: c in clientFills ==> c in FillsFor(s, wallet, round)
    ensures OperatorSettles(compare, t, s, tokens, wallet, round)
  {
    hide Sound, FillsFor, CanProve, Settles, DisputeAbout, TokensListed, IdsIncreasing, Opening;
    ProvedBalances(compare, s, tokens, wallet, round + 1);
    HonestAccountsSettle(t, s, tokens, wallet, round, clientFills, ProofsFor(compare, s, tokens, wallet, round + 1));
  }

  /**
   * From a sound, conserving ledger whose roots the operator committed, it can close a member's dispute in
   * time, whatever part of its fills the client handed in, if and only if no wallet that joined after the
   * disputed round opens the next one with anything. The accounting passes in any case.
   */
  lemma {:induction false} HonestOperatorClosesIff(compare: Compare, now: Clock, t: Terms, s: Ledger, tokens: seq<Address>,
                                                   wallet: Address, round: Round, clientFills: seq<Fill>,
                                                   openings: Totals, deposits: Totals, withdrawals: Totals)
    requires DisputeAbout(t, s, tokens, wallet, round, clientFills) && OnTime(now, t.dispute)
    requires IsOrder(compare) && Sound(s) && Conserved(s.fills) && wallet in JoinedBefore(s.wallets, round + 1)
    requires TokensListed(tokens, FillsFor(s, wallet, round))
    requires IdsIncreasing(clientFills) && forall c :: c in clientFills ==> c in FillsFor(s, wallet, round)
    requires CommittedRound(compare, s, tokens, t.commits, openings, deposits, withdrawals, round + 1)
    ensures OperatorSettles(compare, t, s, tokens, wallet, round)
    ensures OperatorCloses(compare, now, t, s, tokens, wallet, round) <==> NoLateHoldings(s, tokens, round + 1)
  {
    hide *;
    DisputeTerms(t, s, tokens, wallet, round, clientFills);
    ProofsValidIff(compare, s, tokens, wallet, round + 1, t.commits, openings, deposits, withdrawals);
    HonestOperatorSettles(compare, t, s, tokens, wallet, round, clientFills);
    ClosesWhenSettled(compare, now, t, s, tokens, wallet, round);
  }

  lemma DisputeTerms(t: Terms, s: Ledger, tokens: seq<Address>, wallet: Address, round: Round, clientFills: seq<Fill>)
    requires DisputeAbout(t, s, tokens, wallet, round, clientFills)
    ensures t.tokens == tokens && t.client == wallet && t.dispute.round == round + 1
  {
  }

  lemma ProvedBalances(compare: Compare, s: Ledger, tokens: seq<Address>, wallet: Address, round: Round)
    requires CanProve(compare, s, tokens, wallet, round)
    ensures var proofs := ProofsFor(compare, s, tokens, wallet, round);
      && ProofsInOrder(tokens, proofs)
      && forall i :: 0 <= i < |proofs| ==> proofs[i].clientOpeningBalance == Opening(s.accounts, tokens[i], wallet, round)
  {
    hide Liabilities, TreeFor, Opening;
  }
}
