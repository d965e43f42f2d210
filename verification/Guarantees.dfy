// What every reachable ledger guarantees to its clients: proofs that verify, solvent roots, and
// disputes that close.
module Guarantees {
  import opened BasicTypes
  import opened BigNumbers
  import opened Sums
  import opened Ledgers
  import opened LedgerBalances
  import opened LedgerBooks
  import opened LedgerSound
  import opened Exchanges
  import opened Settlement
  import opened OrderFlow
  import opened RoundChanges
  import opened Runs
  import opened MerkleTree
  import opened Solvency
  import opened Commitments
  import opened ChainProofs
  import opened Disputes
  import opened HonestOperator
  import opened KnownAssets

  /** No approval is ever filled beyond its amounts or below its price, whatever matches it took part in. */
  lemma {:induction false} NeverOverfilled(cfg: Config, assets: set<Address>, s: Ledger, i: nat)
    requires Reachable(cfg, assets, s) && i < |s.approvals|
    ensures var row := s.approvals[i];
      && row.filledBuy == SumBy(s.fills, BuyFor(row.params.approvalId))
      && row.filledSell == SumBy(s.fills, SellFor(row.params.approvalId))
      && Times(row.filledSell, row.params.buy) <= Times(row.params.sell, row.filledBuy)
      && row.filledSell <= row.params.sell
      && (row.params.intent.BuyAll? ==> row.filledBuy <= row.params.buy)
  {
    hide Reachable, SumBy, Times, FillsBacked, UniqueIds, RowsExist;
    ReachableSound(cfg, assets, s);
    SoundParts(s);
    assert NotOverfilled(s.approvals[i]) && FilledBy(s.approvals[i], s.fills);
  }

  /**
   * From every reachable ledger, an accepted orderly order has its fee paid in full. When matching, in
   * whatever round the operator is by then, returns normally, every fill of every trade is accepted and
   * conservation holds if and only if the round has not moved or there is no trade.
   */
  lemma {:induction false} TradesSettleInFullIff(cfg: Config, assets: set<Address>, s: Ledger, round: Round, later: Round,
                                                 order: Approval, fee: Approval, id: Id)
    requires Reachable(cfg, assets, s) && OrderlyOrder(cfg, s, round, order, fee, id)
    requires CheckOrder(cfg, s, round, order, fee).None? && InsertOrder(s, order, fee).Ok()
    ensures ProcessFeeApproval(cfg, InsertOrder(s, order, fee).ledger, fee, id).Ok()
    ensures order.buy > 0.0 && order.sell > 0.0
    ensures var ready := ReadyToMatch(cfg, s, order, fee, id);
      var matched := CreateTradesForApproval(cfg, ready, later, order);
      matched.Success? ==>
        var after := RegisterTrades(ready, matched.value);
        && (after.Ok() <==> later == round || matched.value == [])
        && (Conserved(after.ledger.fills) <==> later == round || matched.value == [])
  {
    hide Reachable, Sound, Conserved, InsertOrder, ProcessFeeApproval, CreateTradesForApproval, RegisterTrades, FindApproval;
    hide BookedWithinLimits, IsRegistered, AlignedMatching, Current, FreshIds, CoversBoth, ReadyToMatch;
    ReachableSound(cfg, assets, s);
    OrderIsReady(cfg, s, round, order, fee, id);
    StoredAmounts(s, order, fee);
    var ready := ReadyToMatch(cfg, s, order, fee, id);
    if CreateTradesForApproval(cfg, ready, later, order).Success? {
      TradesSettleIffRoundHolds(cfg, ready, later, order);
    }
  }

  /** In every reachable ledger and for every round, a member's proof verifies against the root, and proves only the truth. */
  lemma {:induction false} MembersCanProve(cfg: Config, assets: set<Address>, s: Ledger, compare: Compare, asset: Address,
                                           round: Round, wallet: Address, tree: SolvencyTree)
    requires Reachable(cfg, assets, s) && IsOrder(compare)
    requires tree.Built(compare) && tree.rawLeaves == SolvencyEntries(s, asset, round)
    requires wallet in JoinedBefore(s.wallets, round)
    ensures TopLevel(tree.levels) != [] && tree.rawLeaves != []
    ensures Opening(s.accounts, asset, wallet, round) >= 0.0
    ensures var e := EntryFor(s.accounts, asset, round, wallet);
      Liabilities(tree, e).Success? && ValidateProof(compare, Liabilities(tree, e).value, Root(tree), e)
    ensures forall proof, sum :: ValidateProof(compare, proof, Root(tree), Entry(wallet, sum, round)) ==>
      sum == Opening(s.accounts, asset, wallet, round)
  {
    hide Reachable, Opening, ValidateProof, Liabilities, NonNegative;
    ReachableSound(cfg, assets, s);
    SoundParts(s);
    CompleteProofVerifies(compare, s, asset, round, wallet, tree);
    OpeningNonNegative(s.accounts, asset, wallet, round);
    var k :| 0 <= k < |JoinedBefore(s.wallets, round)| && JoinedBefore(s.wallets, round)[k] == wallet;
    assert tree.rawLeaves[k] == EntryFor(s.accounts, asset, round, wallet);
    forall proof, sum | ValidateProof(compare, proof, Root(tree), Entry(wallet, sum, round))
      ensures sum == Opening(s.accounts, asset, wallet, round)
    {
      OnlyTrueBalancesProve(compare, s, asset, round, tree, proof, Entry(wallet, sum, round));
    }
  }

  /**
   * In every reachable ledger, the root committed for a round after the first is what depositors are
   * owed if and only if no wallet that joined in the round or later opens it with anything.
   */
  lemma {:induction false} RootsAreSolventIff(cfg: Config, assets: set<Address>, s: Ledger, compare: Compare, asset: Address,
                                              round: Round, tree: SolvencyTree)
    requires Reachable(cfg, assets, s) && round >= 1
    requires tree.Built(compare) && tree.rawLeaves == SolvencyEntries(s, asset, round)
    ensures TopLevel(tree.levels) != []
    ensures Root(tree).sum
            == SumBy(s.deposits, DepositedBefore(asset, round)) - SumBy(s.withdrawals, WithdrawnBefore(asset, round))
            <==> LatecomersHoldNothing(s, asset, round)
  {
    hide Reachable, Sound, Conserved, LatecomersHoldNothing, Opening;
    ReachableSound(cfg, assets, s);
    assert cfg.operator in JoinedBefore(s.wallets, round);
    RootIsSolventIff(compare, s, asset, round, tree);
  }

  lemma ExchangeParts(cfg: Config, s: Ledger)
    requires ExchangeSound(cfg, s)
    ensures Sound(s) && Conserved(s.fills)
  {
  }

  /**
   * In every reachable ledger, with the contract's token list naming the ledger's assets and its books
   * agreeing with the ledger's: the operator can close, in time, a dispute of any member about any round,
   * whatever part of its true fills the client handed in, if and only if no wallet that joined after the
   * round opens the next one with anything. The accounting itself passes in any case.
   */
  lemma {:induction false} DisputesCloseIff(cfg: Config, assets: set<Address>, s: Ledger, compare: Compare, now: Clock, t: Terms,
                                            tokens: seq<Address>, wallet: Address, round: Round, clientFills: seq<Fill>,
                                            openings: Totals, deposits: Totals, withdrawals: Totals)
    requires Reachable(cfg, assets, s) && IsOrder(compare) && forall asset :: asset in assets ==> asset in tokens
    requires DisputeAbout(t, s, tokens, wallet, round, clientFills) && OnTime(now, t.dispute)
    requires IdsIncreasing(clientFills) && forall c :: c in clientFills ==> c in FillsFor(s, wallet, round)
    requires wallet in JoinedBefore(s.wallets, round + 1)
    requires CommittedRound(compare, s, tokens, t.commits, openings, deposits, withdrawals, round + 1)
    ensures OperatorSettles(compare, t, s, tokens, wallet, round)
    ensures OperatorCloses(compare, now, t, s, tokens, wallet, round) <==> NoLateHoldings(s, tokens, round + 1)
  {
    hide *;
    ReachableSound(cfg, assets, s);
    ExchangeParts(cfg, s);
    FillsOfKnownAssets(cfg, assets, s, tokens, wallet, round);
    HonestOperatorClosesIff(compare, now, t, s, tokens, wallet, round, clientFills, openings, deposits, withdrawals);
  }

  /**
   * In every reachable ledger whose roots are committed, a member's balance proof is accepted by the
   * contract under the same condition, and whatever it accepts, from anyone, is the truth.
   */
  lemma {:induction false} MembersProveOnChain(cfg: Config, assets: set<Address>, s: Ledger, compare: Compare, commits: Commits,
                                               openings: Totals, deposits: Totals, withdrawals: Totals, asset: Address,
                                               wallet: Address, round: Round)
    requires Reachable(cfg, assets, s) && IsOrder(compare) && wallet in JoinedBefore(s.wallets, round)
    requires CommittedFor(compare, s, commits, openings, asset, round)
    requires TotalsAgree(s, deposits, withdrawals, asset, round) && Carried(openings, deposits, withdrawals, asset, round)
    ensures Liabilities(TreeFor(compare, s, asset, round), EntryFor(s.accounts, asset, round, wallet)).Success?
    ensures IsProofValid(compare, commits, ProofFor(compare, s, asset, wallet, round), round) <==> LatecomersHoldNothing(s, asset, round)
    ensures forall p: BalanceProof :: Unsigned(p) && p.tokenAddress == asset && IsProofValid(compare, commits, p, round) ==>
      p.clientAddress in JoinedBefore(s.wallets, round)
      && p.clientOpeningBalance == Opening(s.accounts, asset, p.clientAddress, round)
  {
    hide Reachable, Sound, Conserved, IsOrder, CommittedFor, TotalsAgree, Carried, IsProofValid, LatecomersHoldNothing, Unsigned, Opening;
    hide IsRegistered, BookedWithinLimits, Liabilities, TreeFor;
    ReachableSound(cfg, assets, s);
    MembersProveOnChainIff(compare, s, commits, openings, deposits, withdrawals, asset, wallet, round);
    assert SolvencyEntries(s, asset, round) != [];
    forall p: BalanceProof | Unsigned(p) && p.tokenAddress == asset && IsProofValid(compare, commits, p, round)
      ensures p.clientAddress in JoinedBefore(s.wallets, round)
      ensures p.clientOpeningBalance == Opening(s.accounts, asset, p.clientAddress, round)
    {
      AcceptedIsTrue(compare, s, commits, openings, p, round);
    }
  }
}
