// What a client can rely on once a dispute is closed, whoever assembled the inputs.
module DisputeFacts {
  import opened BasicTypes
  import opened BigNumbers
  import opened Sums
  import opened Ledgers
  import opened MerkleTree
  import opened Solvency
  import opened Commitments
  import opened ChainProofs
  import opened Disputes

  /** The contract's amounts are unsigned. */
  predicate UnsignedApprovals(approvals: seq<Approval>) {
    forall i :: 0 <= i < |approvals| ==> approvals[i].buy >= 0.0 && approvals[i].sell >= 0.0
  }

  lemma {:induction false} DistinctSumNonNegative(approvals: seq<Approval>, n: nat, f: Approval -> Amount)
    requires n <= |approvals| && forall i :: 0 <= i < n ==> f(approvals[i]) >= 0.0
    ensures DistinctSum(approvals, n, f) >= 0.0
  {
    if n > 0 {
      DistinctSumNonNegative(approvals, n - 1, f);
    }
  }

  /** The rules check only the two assets of each fill, which is enough for every asset at every prefix. */
  lemma {:induction false} AccountedPrefix(t: Terms, proofs: seq<BalanceProof>, approvals: seq<Approval>, fills: seq<Fill>, n: nat,
                                           token: Address)
    requires |t.tokens| == |t.dispute.openingBalances| && |approvals| == |fills|
    requires Accounted(t, proofs, approvals, fills) && UnsignedApprovals(approvals) && n <= |fills|
    ensures ApprovedSellLeft(approvals, fills, n, token) >= 0.0
    ensures ApprovedBuyLeft(approvals, fills, n, token) >= 0.0
    ensures token in t.tokens ==> BalanceAfter(t, fills, n, token) >= 0.0
  {
    hide BalanceAfter, ApprovedSellLeft, ApprovedBuyLeft, FinalBalance, DistinctSum;
    if n == 0 {
      BeforeFirstFill(approvals, fills);
      DistinctSumNonNegative(approvals, |approvals|, ApprovedSellOf(token));
      DistinctSumNonNegative(approvals, |approvals|, ApprovedBuyOf(token));
    } else {
      AccountedPrefix(t, proofs, approvals, fills, n - 1, token);
      NextFill(t, approvals, fills, n - 1);
      assert FillCovered(t, approvals, fills, n - 1);
    }
  }

  /** Every accepted fill is priced within the approval beside it. */
  lemma AcceptedAtPrice(t: Terms, proofs: seq<BalanceProof>, approvals: seq<Approval>, fills: seq<Fill>, i: nat)
    requires Settles(t, proofs, approvals, fills) && i < |fills| && approvals[i].buy > 0.0
    ensures fills[i].buy > 0.0 && Times(fills[i].sell, approvals[i].buy) <= Times(approvals[i].sell, fills[i].buy)
  {
    hide Accounted, Times, ClientFillsIncluded;
    assert FillMatchesApproval(approvals[i], fills[i]);
  }

  /**
   * After a dispute has been closed, the accepted fills sold no more of any asset than the client's
   * distinct approvals allow, bought no more under buy-all approvals than those allow, never
   * overdrew the client on the way nor by its withdrawals at the end, kept every approval's price, and
   * the new opening balances are exactly what opening balances, deposits, fills and withdrawals make.
   * Assets are told apart as the contract indexes them.
   */
  lemma {:induction false} ClosedWithinApproved(t: Terms, proofs: seq<BalanceProof>, approvals: seq<Approval>, fills: seq<Fill>,
                                                token: Address)
    requires Settles(t, proofs, approvals, fills) && UnsignedApprovals(approvals)
    ensures |approvals| == |fills|
    ensures var a, f := SlottedApprovals(t.tokens, approvals), SlottedFills(t.tokens, fills);
      && SumBy(Zip(a, f), SellUse(token)) <= DistinctSum(a, |a|, ApprovedSellOf(token))
      && SumBy(Zip(a, f), BuyUse(token)) <= DistinctSum(a, |a|, ApprovedBuyOf(token))
      && (forall n :: 0 <= n <= |f| && token in t.tokens ==> BalanceAfter(t, f, n, token) >= 0.0)
      && (token in t.tokens ==> TotalAt(t.withdrawals, t.Disputed(), token) <= BalanceAfter(t, f, |f|, token))
      && (forall i :: 0 <= i < |proofs| && proofs[i].tokenAddress == token ==>
            proofs[i].clientOpeningBalance
            == OpeningIn(t.tokens, t.dispute.openingBalances, token) + TotalAt(t.deposits, t.Disputed(), token)
               + SumBy(f, NetOf(token)) - TotalAt(t.withdrawals, t.Disputed(), token))
    ensures forall i :: 0 <= i < |fills| && approvals[i].buy > 0.0 ==>
      fills[i].buy > 0.0 && Times(fills[i].sell, approvals[i].buy) <= Times(approvals[i].sell, fills[i].buy)
  {
    hide FillCovered, DistinctSum, OpeningIn, SumBy, ClientFillsIncluded, Times;
    var a, f := SlottedApprovals(t.tokens, approvals), SlottedFills(t.tokens, fills);
    AccountedPrefix(t, proofs, a, f, |f|, token);
    assert Zip(a, f)[..|f|] == Zip(a, f);
    assert f[..|f|] == f;
    forall i | 0 <= i < |fills| && approvals[i].buy > 0.0
      ensures fills[i].buy > 0.0 && Times(fills[i].sell, approvals[i].buy) <= Times(approvals[i].sell, fills[i].buy)
    {
      AcceptedAtPrice(t, proofs, approvals, fills, i);
    }
    forall n | 0 <= n <= |f| && token in t.tokens
      ensures BalanceAfter(t, f, n, token) >= 0.0
    {
      AccountedPrefix(t, proofs, a, f, n, token);
    }
  }

  /** Two fills of one buy-all approval that together buy more than it approved can never be part of a closed dispute. */
  lemma {:induction false} OverboughtNeverCloses(t: Terms, proofs: seq<BalanceProof>, a: Approval, first: Fill, second: Fill)
    requires a.buy >= 0.0 && a.sell >= 0.0 && a.intent.BuyAll?
    requires first.buy + second.buy > a.buy
    ensures !Settles(t, proofs, [a, a], [first, second])
  {
    if Settles(t, proofs, [a, a], [first, second]) {
      var approvals, fills := SlottedApprovals(t.tokens, [a, a]), SlottedFills(t.tokens, [first, second]);
      assert FillMatchesApproval([a, a][0], [first, second][0]) && FillMatchesApproval([a, a][1], [first, second][1]);
      hide Closes, FillsMatchApprovals, FillMatchesApproval;
      ClosedWithinApproved(t, proofs, [a, a], [first, second], approvals[0].buyAsset);
      assert approvals == [approvals[0], approvals[0]] && fills == [fills[0], fills[1]];
      BothUsed(approvals[0], fills[0], fills[1]);
      CountedOnce(approvals[0]);
      assert false;
    }
  }

  lemma BothUsed(a: Approval, first: Fill, second: Fill)
    requires a.intent.BuyAll? && first.buyAsset == a.buyAsset && second.buyAsset == a.buyAsset
    ensures SumBy(Zip([a, a], [first, second]), BuyUse(a.buyAsset)) == first.buy + second.buy
  {
    var pairs := Zip([a, a], [first, second]);
    assert pairs == [(a, first)] + [(a, second)];
    SumAppend([(a, first)], (a, second), BuyUse(a.buyAsset));
    SumAppend([], (a, first), BuyUse(a.buyAsset));
    assert [] + [(a, first)] == [(a, first)];
  }

  lemma CountedOnce(a: Approval)
    ensures DistinctSum([a, a], 2, ApprovedBuyOf(a.buyAsset)) == if a.intent.BuyAll? then a.buy else 0.0
  {
    var approvals := [a, a];
    assert approvals[0].approvalId == a.approvalId && OccursBefore(approvals, 1, a.approvalId);
    assert !OccursBefore(approvals, 0, a.approvalId);
    assert DistinctSum(approvals, 1, ApprovedBuyOf(a.buyAsset)) == ApprovedBuyOf(a.buyAsset)(approvals[0]);
  }

  ghost predicate StrictlyNumbered(fills: seq<Fill>) {
    forall i, j :: 0 <= i < j < |fills| ==> fills[i].fillId < fills[j].fillId
  }

  lemma {:induction false} NeighboursToPairs(fills: seq<Fill>)
    requires IdsIncreasing(fills)
    ensures StrictlyNumbered(fills)
  {
    if fills != [] {
      var n := |fills| - 1;
      NeighboursToPairs(fills[..n]);
      forall i | 0 <= i < n
        ensures fills[i].fillId < fills[n].fillId
      {
        assert fills[n - 1].fillId < fills[n - 1 + 1].fillId;
        assert i < n - 1 ==> fills[..n][i].fillId < fills[..n][n - 1].fillId;
      }
    }
  }

  /**
   * Only an open dispute closes, so it closes once. Everything handed in is the client's, of the disputed
   * round and under its own approval, and no fill is handed in twice.
   */
  lemma {:induction false} ClosedIsOfDispute(t: Terms, proofs: seq<BalanceProof>, approvals: seq<Approval>, fills: seq<Fill>)
    requires Settles(t, proofs, approvals, fills)
    ensures t.dispute.open && t.dispute.round >= 1 && |approvals| == |fills| && (fills != [] ==> t.tokens != [])
    ensures forall i, j :: 0 <= i < |fills| && 0 <= j < |fills| && fills[i].fillId == fills[j].fillId ==> i == j
    ensures forall i :: 0 <= i < |fills| ==>
      && fills[i].clientAddress == t.client
      && fills[i].round == approvals[i].round == t.dispute.round - 1
      && fills[i].approvalId == approvals[i].approvalId
      && fills[i].buyAsset == approvals[i].buyAsset && fills[i].sellAsset == approvals[i].sellAsset
      && if approvals[i].intent.BuyAll? then fills[i].buy <= approvals[i].buy else fills[i].sell <= approvals[i].sell
  {
    hide BalanceAfter, ApprovedBuyLeft, ApprovedSellLeft, FinalBalance, ClientFillsIncluded, Times;
    NeighboursToPairs(fills);
    var a, f := SlottedApprovals(t.tokens, approvals), SlottedFills(t.tokens, fills);
    forall i | 0 <= i < |fills|
      ensures FillMatchesApproval(approvals[i], fills[i]) && FillCovered(t, a, f, i)
    {
    }
  }

  // --- Proofs against the operator's roots ----------------------------------------------------

  /** The contract holds the operator's root of every token for the round, each of a tree with a leaf. */
  ghost predicate RootsCommitted(compare: Compare, s: Ledger, tokens: seq<Address>, commits: Commits, openings: Totals, round: Round) {
    forall token :: token in tokens ==>
      SolvencyEntries(s, token, round) != [] && CommittedFor(compare, s, commits, openings, token, round)
  }

  /** A valid proof array states the client's true opening balances, all of them. */
  lemma {:induction false} ValidProofsAreTrue(compare: Compare, s: Ledger, commits: Commits, openings: Totals, tokens: seq<Address>,
                                              client: Address, round: Round, proofs: seq<BalanceProof>)
    requires IsOrder(compare) && RootsCommitted(compare, s, tokens, commits, openings, round)
    requires ProofArrayValid(compare, commits, tokens, client, round, proofs)
    requires forall i :: 0 <= i < |proofs| ==> Unsigned(proofs[i])
    ensures |proofs| == |tokens| && (tokens != [] ==> client in JoinedBefore(s.wallets, round))
    ensures forall i :: 0 <= i < |tokens| ==> proofs[i].clientOpeningBalance == Opening(s.accounts, tokens[i], client, round)
  {
    hide IsOrder, CommittedFor, SolvencyEntries, IsProofValid, Unsigned, Opening;
    forall i | 0 <= i < |tokens|
      ensures client in JoinedBefore(s.wallets, round)
      ensures proofs[i].clientOpeningBalance == Opening(s.accounts, tokens[i], client, round)
    {
      assert tokens[i] in tokens;
      AcceptedIsTrue(compare, s, commits, openings, proofs[i], round);
    }
    if tokens != [] {
      assert proofs[0].clientOpeningBalance == Opening(s.accounts, tokens[0], client, round);
    }
  }

  /** A dispute opened with proofs starts from the true opening balances. */
  lemma {:induction false} OpenedFromTruth(compare: Compare, s: Ledger, commits: Commits, openings: Totals, tokens: seq<Address>,
                                           client: Address, round: Round, proofs: seq<BalanceProof>)
    requires IsOrder(compare) && RootsCommitted(compare, s, tokens, commits, openings, round)
    requires ProofArrayValid(compare, commits, tokens, client, round, proofs) && proofs != []
    requires forall i :: 0 <= i < |proofs| ==> Unsigned(proofs[i])
    ensures client in JoinedBefore(s.wallets, round)
    ensures |StartingBalances(tokens, proofs)| == |tokens|
    ensures forall i :: 0 <= i < |tokens| ==> StartingBalances(tokens, proofs)[i] == Opening(s.accounts, tokens[i], client, round)
  {
    hide IsOrder, RootsCommitted, ProofArrayValid, Unsigned, Opening;
    ValidProofsAreTrue(compare, s, commits, openings, tokens, client, round, proofs);
  }

  /**
   * Whatever the operator hands in: once its roots of the round are committed, a dispute closes only if
   * the replayed balances are what its own books open that round with, token by token.
   */
  lemma {:induction false} ClosedOnTruth(compare: Compare, now: Clock, t: Terms, s: Ledger, openings: Totals,
                                         proofs: seq<BalanceProof>, approvals: seq<Approval>, fills: seq<Fill>)
    requires IsOrder(compare) && RootsCommitted(compare, s, t.tokens, t.commits, openings, t.dispute.round)
    requires Closes(compare, now, t, proofs, approvals, fills)
    requires forall i :: 0 <= i < |proofs| ==> Unsigned(proofs[i])
    ensures forall token :: token in t.tokens ==>
      Opening(s.accounts, token, t.client, t.dispute.round)
      == OpeningIn(t.tokens, t.dispute.openingBalances, token) + TotalAt(t.deposits, t.dispute.round - 1, token)
         + SumBy(SlottedFills(t.tokens, fills), NetOf(token)) - TotalAt(t.withdrawals, t.dispute.round - 1, token)
  {
    hide IsOrder, RootsCommitted, Unsigned, Opening, OpeningIn, FillCovered, SumBy, ClientFillsIncluded, OfDispute, FillsMatchApprovals;
    hide IsProofValid, OnTime, TotalAt;
    ValidProofsAreTrue(compare, s, t.commits, openings, t.tokens, t.client, t.dispute.round, proofs);
    var f := SlottedFills(t.tokens, fills);
    assert f[..|f|] == f;
    forall token | token in t.tokens
      ensures Opening(s.accounts, token, t.client, t.dispute.round) == FinalBalance(t, f, token)
    {
      var i :| 0 <= i < |t.tokens| && t.tokens[i] == token;
      assert proofs[i].clientOpeningBalance == FinalBalance(t, f, proofs[i].tokenAddress);
    }
  }

  /** A dispute is answered in its own quarter or the one after, across the end of a round too. */
  lemma OnTimeIff(now: Clock, d: Dispute)
    requires now.quarter < 4 && d.quarter < 4
    ensures OnTime(now, d) <==>
      || (now.round == d.round && (now.quarter == d.quarter || now.quarter == d.quarter + 1))
      || (now.round == d.round + 1 && now.quarter == 0 && d.quarter == 3)
  {
  }

  // --- The client's own fills -----------------------------------------------------------------

  lemma {:induction false} StoredAreClientFills(clientFills: seq<Fill>)
    requires StrictlyNumbered(clientFills)
    ensures forall i :: 0 <= i < |clientFills| ==>
      clientFills[i].fillId in StoreFills(clientFills) && StoreFills(clientFills)[clientFills[i].fillId] == clientFills[i]
    ensures forall id :: id in StoreFills(clientFills) ==>
      StoreFills(clientFills)[id] in clientFills && StoreFills(clientFills)[id].fillId == id
  {
    if clientFills != [] {
      var n := |clientFills| - 1;
      StoredAreClientFills(clientFills[..n]);
      assert clientFills == clientFills[..n] + [clientFills[n]];
    }
  }

  /** Among the fills handed in is this one, whatever mediator it names: every other field is the same. */
  predicate HandedIn(fills: seq<Fill>, c: Fill) {
    exists i :: 0 <= i < |fills| && fills[i].(instanceId := c.instanceId) == c
  }

  ghost function RecognisedIds(stored: map<nat, Fill>, fills: seq<Fill>): set<nat> {
    set i | 0 <= i < |fills| && Recognised(stored, fills[i]) :: fills[i].fillId
  }

  lemma {:induction false} NextRecognised(stored: map<nat, Fill>, fills: seq<Fill>, n: nat)
    requires StrictlyNumbered(fills) && n + 1 == |fills|
    ensures fills[n].fillId !in RecognisedIds(stored, fills[..n])
    ensures RecognisedIds(stored, fills)
            == RecognisedIds(stored, fills[..n]) + if Recognised(stored, fills[n]) then {fills[n].fillId} else {}
  {
    hide Recognised;
    forall id | id in RecognisedIds(stored, fills)
      ensures id in RecognisedIds(stored, fills[..n]) || (Recognised(stored, fills[n]) && id == fills[n].fillId)
    {
      var i :| 0 <= i < |fills| && Recognised(stored, fills[i]) && fills[i].fillId == id;
      assert i < n ==> fills[..n][i] == fills[i];
    }
    forall id | id in RecognisedIds(stored, fills[..n])
      ensures id in RecognisedIds(stored, fills) && id != fills[n].fillId
    {
      var i :| 0 <= i < n && Recognised(stored, fills[..n][i]) && fills[..n][i].fillId == id;
      assert fills[..n][i] == fills[i];
    }
  }

  /** Fills under increasing ids are counted once each. */
  lemma {:induction false} CountIsIds(stored: map<nat, Fill>, fills: seq<Fill>)
    requires StrictlyNumbered(fills)
    ensures MatchCount(stored, fills) == |RecognisedIds(stored, fills)|
  {
    hide Recognised;
    if fills != [] {
      CountIsIds(stored, fills[..|fills| - 1]);
      NextRecognised(stored, fills, |fills| - 1);
    }
  }

  lemma {:induction false} StoredIdsCounted(clientFills: seq<Fill>)
    requires StrictlyNumbered(clientFills)
    ensures |StoreFills(clientFills).Keys| == |clientFills|
  {
    if clientFills != [] {
      var n := |clientFills| - 1;
      StoredIdsCounted(clientFills[..n]);
      StoredAreClientFills(clientFills[..n]);
      assert StoreFills(clientFills).Keys == StoreFills(clientFills[..n]).Keys + {clientFills[n].fillId};
    }
  }

  lemma FullSubset<E>(a: set<E>, b: set<E>)
    requires a <= b
    ensures |a| <= |b| && (|a| == |b| <==> a == b)
  {
    assert b == a + (b - a);
  }

  /** An absent fill names no client, so only stored fills are recognised. */
  lemma RecognisedAreStored(stored: map<nat, Fill>, fills: seq<Fill>)
    requires forall i :: 0 <= i < |fills| ==> fills[i].clientAddress != ""
    ensures RecognisedIds(stored, fills) <= stored.Keys
  {
  }

  lemma RecognisedIffHandedIn(clientFills: seq<Fill>, fills: seq<Fill>, c: Fill)
    requires StrictlyNumbered(clientFills) && c in clientFills
    ensures c.fillId in StoreFills(clientFills).Keys
    ensures c.fillId in RecognisedIds(StoreFills(clientFills), fills) <==> HandedIn(fills, c)
  {
    StoredAreClientFills(clientFills);
    assert StoreFills(clientFills)[c.fillId] == c;
    forall i | 0 <= i < |fills| && fills[i].fillId == c.fillId
      ensures Recognised(StoreFills(clientFills), fills[i]) <==> fills[i].(instanceId := c.instanceId) == c
    {
    }
  }

  /** The count is right exactly when no fill of the client was left out or changed. */
  lemma {:induction false} CountedIffHandedIn(clientFills: seq<Fill>, fills: seq<Fill>)
    requires StrictlyNumbered(clientFills) && StrictlyNumbered(fills)
    requires forall i :: 0 <= i < |fills| ==> fills[i].clientAddress != ""
    ensures MatchCount(StoreFills(clientFills), fills) == |clientFills| <==> forall c :: c in clientFills ==> HandedIn(fills, c)
  {
    hide Recognised, HandedIn, StrictlyNumbered, RecognisedIds;
    var stored := StoreFills(clientFills);
    var ids := RecognisedIds(stored, fills);
    CountIsIds(stored, fills);
    StoredIdsCounted(clientFills);
    RecognisedAreStored(stored, fills);
    FullSubset(ids, stored.Keys);
    forall c | c in clientFills
      ensures c.fillId in stored.Keys && (c.fillId in ids <==> HandedIn(fills, c))
    {
      RecognisedIffHandedIn(clientFills, fills, c);
    }
    forall id | id in stored.Keys
      ensures exists c :: c in clientFills && c.fillId == id
    {
      StoredAreClientFills(clientFills);
      assert stored[id] in clientFills;
    }
  }

  /**
   * A dispute of a named client, who handed in these fills when opening it, closes only if every one of
   * them is among the operator's, the same in id, approval, round, assets, amounts and client. Nothing
   * else about the client's fills matters.
   */
  lemma {:induction false} ClosedIncludesClientFills(t: Terms, proofs: seq<BalanceProof>, approvals: seq<Approval>, fills: seq<Fill>,
                                                     clientFills: seq<Fill>)
    requires t.client != "" && IdsIncreasing(clientFills) && t.dispute.fillCount == |clientFills|
    requires StoredUnder(t.disputeFills, t.dispute.disputeId) == StoreFills(clientFills)
    ensures Settles(t, proofs, approvals, fills) ==> forall c :: c in clientFills ==> HandedIn(fills, c)
    ensures IdsIncreasing(fills) && OfDispute(t, approvals, fills) ==>
      (ClientFillsIncluded(t, fills) <==> forall c :: c in clientFills ==> HandedIn(fills, c))
  {
    hide MatchCount, HandedIn, StrictlyNumbered, IdsIncreasing, Accounted, FillsMatchApprovals;
    if IdsIncreasing(fills) && OfDispute(t, approvals, fills) {
      NeighboursToPairs(clientFills);
      NeighboursToPairs(fills);
      CountedIffHandedIn(clientFills, fills);
    }
  }

  // --- A fill that was left out ---------------------------------------------------------------

  /** The client bought 1 ETH for 3 USD and handed in the fill. */
  const KNOWN_FILL := Fill(1, "order", 0, "ETH", 1.0, "USD", 3.0, "alice", "mediator")

  /** Opened in round 1 by a client that held 5 USD. */
  function DisputeOver(clientFills: seq<Fill>): Terms {
    Terms(["USD"], "alice", Dispute(1, 0, 1, [5.0], |clientFills|, true), map[1 := StoreFills(clientFills)], map[], map[], map[])
  }

  function ProofOf5(): BalanceProof {
    BalanceProof(5.0, "USD", "alice", [], [], 0, 0, 1)
  }

  /** Replaying no fill leaves what the client held. */
  lemma NothingHandedIn(t: Terms)
    requires t.tokens == ["USD"] && t.dispute.openingBalances == [5.0] && t.deposits == map[] == t.withdrawals
    ensures BalanceAfter(t, [], 0, "USD") == 5.0 == FinalBalance(t, [], "USD")
  {
    var none: seq<Fill> := [];
    assert none[..0] == none && SumBy(none, NetOf("USD")) == 0.0;
  }

  /** Handing in nothing keeps the opening balance, and closes a dispute only of a client that handed in nothing. */
  lemma {:induction false} OmittedFillKeepsOpen()
    ensures Settles(DisputeOver([]), [ProofOf5()], [], [])
    ensures !Settles(DisputeOver([KNOWN_FILL]), [ProofOf5()], [], [])
  {
    NothingHandedIn(DisputeOver([]));
    assert KNOWN_FILL in [KNOWN_FILL];
    var t := DisputeOver([KNOWN_FILL]);
    assert IdsIncreasing([KNOWN_FILL]);
    ClosedIncludesClientFills(t, [ProofOf5()], [], [], [KNOWN_FILL]);
  }
}
