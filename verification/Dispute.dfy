// The rules under which roots are committed, and a balance dispute is opened and closed
// (src/contracts/Mediator.sol).
module Disputes {
  import opened BasicTypes
  import opened BigNumbers
  import opened Wrappers
  import opened Sums
  import opened Ledgers
  import opened MerkleTree
  import opened Commitments

  /** Round and quarter of the current block. */
  datatype Clock = Clock(round: Round, quarter: nat)

  datatype Dispute = Dispute(disputeId: nat, quarter: nat, round: Round, openingBalances: seq<Amount>, fillCount: nat, open: bool)

  // --- What closing a dispute demands, clause by clause ---------------------------------------

  /** A dispute is answered in the quarter it was opened in or the next. */
  predicate OnTime(now: Clock, d: Dispute) {
    var elapsed := (4 * now.round + now.quarter) - (4 * d.round + d.quarter);
    0 <= elapsed <= 1
  }

  predicate ProofsInOrder(tokens: seq<Address>, proofs: seq<BalanceProof>) {
    |proofs| == |tokens| && forall i :: 0 <= i < |proofs| ==> proofs[i].tokenAddress == tokens[i]
  }

  /** One valid proof of the client for every token, in the order of the token list. */
  predicate ProofArrayValid(compare: Compare, commits: Commits, tokens: seq<Address>, client: Address, round: Round,
                            proofs: seq<BalanceProof>) {
    && ProofsInOrder(tokens, proofs)
    && forall i :: 0 <= i < |proofs| ==> proofs[i].clientAddress == client && IsProofValid(compare, commits, proofs[i], round)
  }

  predicate IdsIncreasing(fills: seq<Fill>) {
    forall i :: 0 <= i < |fills| - 1 ==> fills[i].fillId < fills[i + 1].fillId
  }

  predicate AreFillsEqual(f: Fill, g: Fill) {
    && f.fillId == g.fillId && f.approvalId == g.approvalId && f.round == g.round
    && f.buy == g.buy && f.buyAsset == g.buyAsset && f.sell == g.sell && f.sellAsset == g.sellAsset
    && f.clientAddress == g.clientAddress
  }

  /** What the contract's storage holds where nothing was written. */
  const EMPTY_FILL := Fill(0, "", 0, "", 0.0, "", 0.0, "", "")

  function StoredFill(stored: map<nat, Fill>, fillId: nat): Fill {
    if fillId in stored then stored[fillId] else EMPTY_FILL
  }

  predicate Recognised(stored: map<nat, Fill>, f: Fill) {
    AreFillsEqual(f, StoredFill(stored, f.fillId))
  }

  /** How many of the fills the client had handed in. */
  function MatchCount(stored: map<nat, Fill>, fills: seq<Fill>): nat {
    if fills == [] then 0
    else MatchCount(stored, fills[..|fills| - 1]) + if Recognised(stored, fills[|fills| - 1]) then 1 else 0
  }

  predicate FillMatchesApproval(a: Approval, f: Fill) {
    && f.approvalId == a.approvalId && f.buyAsset == a.buyAsset && f.sellAsset == a.sellAsset
    && (a.buy == 0.0 || (f.buy > 0.0 && Times(f.sell, a.buy) <= Times(a.sell, f.buy)))
  }

  predicate FillsMatchApprovals(approvals: seq<Approval>, fills: seq<Fill>) {
    |fills| == |approvals| && forall i :: 0 <= i < |approvals| ==> FillMatchesApproval(approvals[i], fills[i])
  }

  function NetOf(token: Address): Fill -> Amount {
    (f: Fill) => (if f.buyAsset == token then f.buy else 0.0) - (if f.sellAsset == token then f.sell else 0.0)
  }

  function OpeningIn(tokens: seq<Address>, openings: seq<Amount>, token: Address): Amount
    requires |tokens| == |openings|
  {
    if tokens == [] then 0.0
    else if tokens[|tokens| - 1] == token then openings[|openings| - 1]
    else OpeningIn(tokens[..|tokens| - 1], openings[..|openings| - 1], token)
  }

  /** Everything about one dispute that its closing depends on. */
  datatype Terms = Terms(
    tokens: seq<Address>,
    client: Address,
    dispute: Dispute,
    disputeFills: map<nat, map<nat, Fill>>,
    deposits: Totals,
    withdrawals: Totals,
    commits: Commits)
  {
    /** A dispute is about the round before the one it was opened in. */
    function Disputed(): Round {
      if dispute.round > 0 then dispute.round - 1 else 0
    }
  }

  /** The client's balance of a token after the first `n` fills. */
  function BalanceAfter(t: Terms, fills: seq<Fill>, n: nat, token: Address): Amount
    requires |t.tokens| == |t.dispute.openingBalances| && n <= |fills|
  {
    OpeningIn(t.tokens, t.dispute.openingBalances, token) + TotalAt(t.deposits, t.Disputed(), token) + SumBy(fills[..n], NetOf(token))
  }

  predicate OccursBefore(approvals: seq<Approval>, n: nat, id: Id)
    requires n <= |approvals|
  {
    exists j :: 0 <= j < n && approvals[j].approvalId == id
  }

  /** A sum over approvals that counts each approval id once, at its first occurrence. */
  function DistinctSum(approvals: seq<Approval>, n: nat, f: Approval -> Amount): Amount
    requires n <= |approvals|
  {
    if n == 0 then 0.0
    else
      DistinctSum(approvals, n - 1, f)
      + if OccursBefore(approvals, n - 1, approvals[n - 1].approvalId) then 0.0 else f(approvals[n - 1])
  }

  function ApprovedBuyOf(token: Address): Approval -> Amount {
    (a: Approval) => if a.intent.BuyAll? && a.buyAsset == token then a.buy else 0.0
  }

  function ApprovedSellOf(token: Address): Approval -> Amount {
    (a: Approval) => if a.sellAsset == token then a.sell else 0.0
  }

  function Zip(approvals: seq<Approval>, fills: seq<Fill>): (r: seq<(Approval, Fill)>)
    requires |approvals| == |fills|
    ensures |r| == |fills| && forall i :: 0 <= i < |r| ==> r[i] == (approvals[i], fills[i])
  {
    if fills == [] then [] else [(approvals[0], fills[0])] + Zip(approvals[1..], fills[1..])
  }

  function BuyUse(token: Address): ((Approval, Fill)) -> Amount {
    (p: (Approval, Fill)) => if p.0.intent.BuyAll? && p.1.buyAsset == token then p.1.buy else 0.0
  }

  function SellUse(token: Address): ((Approval, Fill)) -> Amount {
    (p: (Approval, Fill)) => if p.1.sellAsset == token then p.1.sell else 0.0
  }

  /** What is left of all approved purchases of a token after the first `n` fills. */
  function ApprovedBuyLeft(approvals: seq<Approval>, fills: seq<Fill>, n: nat, token: Address): Amount
    requires |approvals| == |fills| && n <= |fills|
  {
    DistinctSum(approvals, |approvals|, ApprovedBuyOf(token)) - SumBy(Zip(approvals, fills)[..n], BuyUse(token))
  }

  function ApprovedSellLeft(approvals: seq<Approval>, fills: seq<Fill>, n: nat, token: Address): Amount
    requires |approvals| == |fills| && n <= |fills|
  {
    DistinctSum(approvals, |approvals|, ApprovedSellOf(token)) - SumBy(Zip(approvals, fills)[..n], SellUse(token))
  }

  /** One fill stays within its approval, and leaves no balance or approved total negative. */
  predicate FillCovered(t: Terms, approvals: seq<Approval>, fills: seq<Fill>, i: nat)
    requires |t.tokens| == |t.dispute.openingBalances| && |approvals| == |fills| && i < |fills|
  {
    var a, f := approvals[i], fills[i];
    && (if a.intent.BuyAll? then f.buy <= a.buy else f.sell <= a.sell)
    && BalanceAfter(t, fills, i + 1, f.buyAsset) >= 0.0
    && BalanceAfter(t, fills, i + 1, f.sellAsset) >= 0.0
    && ApprovedBuyLeft(approvals, fills, i + 1, f.buyAsset) >= 0.0
    && ApprovedSellLeft(approvals, fills, i + 1, f.sellAsset) >= 0.0
  }

  function FinalBalance(t: Terms, fills: seq<Fill>, token: Address): Amount
    requires |t.tokens| == |t.dispute.openingBalances|
  {
    BalanceAfter(t, fills, |fills|, token) - TotalAt(t.withdrawals, t.Disputed(), token)
  }

  // --- Unlisted assets ------------------------------------------------------------------------

  /** The accounting looks an asset up by its token index, which is zero for assets that are not listed. */
  function Slot(tokens: seq<Address>, asset: Address): Address {
    if asset in tokens || tokens == [] then asset else tokens[0]
  }

  function SlottedFills(tokens: seq<Address>, fills: seq<Fill>): (r: seq<Fill>)
    ensures |r| == |fills|
    ensures forall i :: 0 <= i < |r| ==>
      r[i] == fills[i].(buyAsset := Slot(tokens, fills[i].buyAsset), sellAsset := Slot(tokens, fills[i].sellAsset))
  {
    seq(|fills|, i requires 0 <= i < |fills| =>
      fills[i].(buyAsset := Slot(tokens, fills[i].buyAsset), sellAsset := Slot(tokens, fills[i].sellAsset)))
  }

  function SlottedApprovals(tokens: seq<Address>, approvals: seq<Approval>): (r: seq<Approval>)
    ensures |r| == |approvals|
    ensures forall i :: 0 <= i < |r| ==>
      r[i] == approvals[i].(buyAsset := Slot(tokens, approvals[i].buyAsset), sellAsset := Slot(tokens, approvals[i].sellAsset))
  {
    seq(|approvals|, i requires 0 <= i < |approvals| =>
      approvals[i].(buyAsset := Slot(tokens, approvals[i].buyAsset), sellAsset := Slot(tokens, approvals[i].sellAsset)))
  }

  // --- All rules together ---------------------------------------------------------------------

  /** The client's own fills are all among those handed in. */
  predicate ClientFillsIncluded(t: Terms, fills: seq<Fill>) {
    MatchCount(StoredUnder(t.disputeFills, t.dispute.disputeId), fills) == t.dispute.fillCount
  }

  /** Everything handed in is of the disputed round, and the fills are the client's. */
  predicate OfDispute(t: Terms, approvals: seq<Approval>, fills: seq<Fill>) {
    && (forall i :: 0 <= i < |approvals| ==> approvals[i].round == t.Disputed())
    && (forall i :: 0 <= i < |fills| ==> fills[i].round == t.Disputed() && fills[i].clientAddress == t.client)
  }

  /** The accounting, over assets as the contract indexes them. */
  predicate Accounted(t: Terms, proofs: seq<BalanceProof>, approvals: seq<Approval>, fills: seq<Fill>)
    requires |t.tokens| == |t.dispute.openingBalances| && |approvals| == |fills|
  {
    && (forall token :: token in t.tokens ==> BalanceAfter(t, fills, 0, token) >= 0.0)
    && (forall i :: 0 <= i < |fills| ==> FillCovered(t, approvals, fills, i))
    && (forall token :: token in t.tokens ==> FinalBalance(t, fills, token) >= 0.0)
    && (forall i :: 0 <= i < |proofs| ==> proofs[i].clientOpeningBalance == FinalBalance(t, fills, proofs[i].tokenAddress))
  }

  /** All but the deadline and the proofs. Without any token there is no index to account fills under. */
  predicate Settles(t: Terms, proofs: seq<BalanceProof>, approvals: seq<Approval>, fills: seq<Fill>) {
    && |t.tokens| == |t.dispute.openingBalances|
    && t.dispute.open
    && t.dispute.round > 0
    && IdsIncreasing(fills)
    && ClientFillsIncluded(t, fills)
    && OfDispute(t, approvals, fills)
    && FillsMatchApprovals(approvals, fills)
    && (fills == [] || t.tokens != [])
    && Accounted(t, proofs, SlottedApprovals(t.tokens, approvals), SlottedFills(t.tokens, fills))
  }

  /** A dispute closes when all of this holds. */
  predicate Closes(compare: Compare, now: Clock, t: Terms, proofs: seq<BalanceProof>, approvals: seq<Approval>, fills: seq<Fill>) {
    && OnTime(now, t.dispute)
    && ProofArrayValid(compare, t.commits, t.tokens, t.client, t.dispute.round, proofs)
    && Settles(t, proofs, approvals, fills)
  }

  function StoreFills(fills: seq<Fill>): map<nat, Fill> {
    if fills == [] then map[]
    else
      var f := fills[|fills| - 1];
      StoreFills(fills[..|fills| - 1])[f.fillId := f]
  }

  function StoredUnder(disputeFills: map<nat, map<nat, Fill>>, disputeId: nat): map<nat, Fill> {
    if disputeId in disputeFills then disputeFills[disputeId] else map[]
  }

  function OpeningsOf(proofs: seq<BalanceProof>): (r: seq<Amount>)
    ensures |r| == |proofs|
    ensures forall i :: 0 <= i < |r| ==> r[i] == proofs[i].clientOpeningBalance
  {
    if proofs == [] then [] else [proofs[0].clientOpeningBalance] + OpeningsOf(proofs[1..])
  }

  /** The proved balances, or nothing at all. */
  function StartingBalances(tokens: seq<Address>, proofs: seq<BalanceProof>): seq<Amount> {
    if proofs == [] then seq(|tokens|, i => 0.0) else OpeningsOf(proofs)
  }

  predicate TokensListed(tokens: seq<Address>, fills: seq<Fill>) {
    forall i :: 0 <= i < |fills| ==> fills[i].buyAsset in tokens && fills[i].sellAsset in tokens
  }

  // --- The mediator ---------------------------------------------------------------------------

  class Mediator {
    const compare: Compare
    const tokens: seq<Address>
    const client: Address
    var dispute: Option<Dispute>
    var totalDisputes: nat
    var disputeFills: map<nat, map<nat, Fill>>
    var clientDeposits: Totals
    var clientRequestedWithdrawals: Totals
    var openingBalances: Totals
    var totalDeposits: Totals
    var totalRequestedWithdrawals: Totals
    var commits: Commits

    /** Disputes are numbered from one, and no fills are stored ahead of the last. */
    ghost predicate NothingStoredAhead()
      reads this
    {
      forall id :: id in disputeFills ==> 1 <= id <= totalDisputes
    }

    constructor (compare: Compare, tokens: seq<Address>, client: Address)
      ensures NothingStoredAhead()
      ensures this.compare == compare && this.tokens == tokens && this.client == client
      ensures dispute.None? && totalDisputes == 0 && disputeFills == map[] && commits == map[]
      ensures clientDeposits == map[] == clientRequestedWithdrawals
      ensures openingBalances == map[] == totalDeposits && totalRequestedWithdrawals == map[]
    {
      this.compare, this.tokens, this.client := compare, tokens, client;
      dispute := None;
      totalDisputes := 0;
      disputeFills, commits := map[], map[];
      clientDeposits, clientRequestedWithdrawals := map[], map[];
      openingBalances, totalDeposits, totalRequestedWithdrawals := map[], map[], map[];
    }

    function CurrentTerms(): Terms
      reads this
      requires dispute.Some?
    {
      Terms(tokens, client, dispute.value, disputeFills, clientDeposits, clientRequestedWithdrawals, commits)
    }

    /**
     * Stores the root of a token for the current round, once and in its first quarter. The operator hands
     * in hash, height and width; the closing balance is the contract's own.
     */
    method Commit(now: Clock, content: Digest, height: nat, width: nat, token: Address) returns (accepted: bool)
      modifies this`openingBalances, this`commits
      ensures accepted <==>
        && now.round > 0 && now.quarter == 0 && token in tokens && (now.round, token) !in old(commits)
        && ClosingBalance(old(openingBalances), totalDeposits, totalRequestedWithdrawals, now.round - 1, token) >= 0.0
      ensures accepted ==>
        var closing := ClosingBalance(old(openingBalances), totalDeposits, totalRequestedWithdrawals, now.round - 1, token);
        && openingBalances == old(openingBalances)[(now.round, token) := closing]
        && commits == old(commits)[(now.round, token) := PaddedRoot(content, closing, height, width)]
      ensures !accepted ==> openingBalances == old(openingBalances) && commits == old(commits)
    {
      if now.round == 0 || now.quarter != 0 || token !in tokens || (now.round, token) in commits {
        return false;
      }
      var previousRound := now.round - 1;
      var previousClosingBalance := TotalAt(openingBalances, previousRound, token) + TotalAt(totalDeposits, previousRound, token)
                                    - TotalAt(totalRequestedWithdrawals, previousRound, token);
      if previousClosingBalance < 0.0 {
        return false;
      }
      openingBalances := openingBalances[(now.round, token) := previousClosingBalance];
      commits := commits[(now.round, token) := PaddedRoot(content, previousClosingBalance, height, width)];
      return true;
    }

    /**
     * Without proofs the client shows that it was admitted in the disputed round, and starts from nothing:
     * `admitted` is the round of its authorisation, if it has one.
     */
    method OpenDispute(now: Clock, proofs: seq<BalanceProof>, fills: seq<Fill>, admitted: Option<Round>) returns (accepted: bool)
      modifies this`dispute, this`totalDisputes, this`disputeFills
      ensures accepted <==>
        && !(old(dispute).Some? && old(dispute).value.open)
        && now.round > 0
        && (if proofs == [] then admitted == Some(now.round - 1)
            else ProofArrayValid(compare, commits, tokens, client, now.round - 1, proofs))
        && (forall i :: 0 <= i < |fills| ==> fills[i].round == now.round - 1 && fills[i].clientAddress == client)
        && IdsIncreasing(fills)
      ensures accepted ==>
        && totalDisputes == old(totalDisputes) + 1
        && dispute == Some(Dispute(totalDisputes, now.quarter, now.round, StartingBalances(tokens, proofs), |fills|, true))
        && disputeFills == (if fills == [] then old(disputeFills)
                            else old(disputeFills)[totalDisputes := StoredUnder(old(disputeFills), totalDisputes) + StoreFills(fills)])
      ensures !accepted ==> dispute == old(dispute) && totalDisputes == old(totalDisputes) && disputeFills == old(disputeFills)
      ensures old(NothingStoredAhead()) ==> NothingStoredAhead()
      ensures accepted && old(NothingStoredAhead()) ==> StoredUnder(disputeFills, dispute.value.disputeId) == StoreFills(fills)
      ensures accepted ==> |dispute.value.openingBalances| == |tokens| && forall i :: 0 <= i < |tokens| ==>
        dispute.value.openingBalances[i] == if proofs == [] then 0.0 else proofs[i].clientOpeningBalance
    {
      if dispute.Some? && dispute.value.open {
        return false;
      }
      if now.round == 0 {
        return false;
      }
      if !(if proofs == [] then admitted == Some(now.round - 1)
           else ProofArrayValid(compare, commits, tokens, client, now.round - 1, proofs)) {
        return false;
      }
      var disputeId := totalDisputes + 1;
      var stored := StoredUnder(disputeFills, disputeId);
      ghost var before := stored;
      for i := 0 to |fills|
        invariant stored == before + StoreFills(fills[..i])
        invariant forall j :: 0 <= j < i ==> fills[j].round == now.round - 1 && fills[j].clientAddress == client
      {
        if fills[i].round != now.round - 1 || fills[i].clientAddress != client {
          return false;
        }
        stored := stored[fills[i].fillId := fills[i]];
        assert fills[..i + 1][..i] == fills[..i];
      }
      assert fills[..|fills|] == fills;
      if !IdsIncreasing(fills) {
        return false;
      }
      if fills != [] {
        disputeFills := disputeFills[disputeId := stored];
      }
      dispute := Some(Dispute(disputeId, now.quarter, now.round, StartingBalances(tokens, proofs), |fills|, true));
      totalDisputes := disputeId;
      return true;
    }

    /** Counts the handed-in fills that the client had stored. */
    method CountClientFills(stored: map<nat, Fill>, fills: seq<Fill>) returns (fillCount: nat)
      ensures fillCount == MatchCount(stored, fills)
    {
      fillCount := 0;
      for i := 0 to |fills|
        invariant fillCount == MatchCount(stored, fills[..i])
      {
        assert fills[..i + 1][..i] == fills[..i];
        if Recognised(stored, fills[i]) {
          fillCount := fillCount + 1;
        }
      }
      assert fills[..|fills|] == fills;
    }

    /** Sums each approval once, by kind and token. */
    method SumApprovals(approvals: seq<Approval>) returns (approvedBuy: map<Address, Amount>, approvedSell: map<Address, Amount>)
      requires forall i :: 0 <= i < |approvals| ==> approvals[i].buyAsset in tokens && approvals[i].sellAsset in tokens
      ensures forall token :: token in tokens ==> token in approvedBuy && token in approvedSell
      ensures forall token :: token in tokens ==>
        && approvedBuy[token] == DistinctSum(approvals, |approvals|, ApprovedBuyOf(token))
        && approvedSell[token] == DistinctSum(approvals, |approvals|, ApprovedSellOf(token))
    {
      hide DistinctSum, OccursBefore;
      approvedBuy := map token | token in tokens :: 0.0;
      approvedSell := approvedBuy;
      var didProcess: set<Id> := {};
      NoApprovals(approvals);
      for i := 0 to |approvals|
        invariant forall token :: token in tokens ==> token in approvedBuy && token in approvedSell
        invariant forall id :: id in didProcess <==> OccursBefore(approvals, i, id)
        invariant forall token :: token in tokens ==>
          && approvedBuy[token] == DistinctSum(approvals, i, ApprovedBuyOf(token))
          && approvedSell[token] == DistinctSum(approvals, i, ApprovedSellOf(token))
      {
        var approval := approvals[i];
        NextApproval(approvals, i);
        if approval.approvalId !in didProcess {
          if approval.intent.BuyAll? {
            approvedBuy := approvedBuy[approval.buyAsset := approvedBuy[approval.buyAsset] + approval.buy];
          }
          approvedSell := approvedSell[approval.sellAsset := approvedSell[approval.sellAsset] + approval.sell];
          didProcess := didProcess + {approval.approvalId};
        }
      }
    }

    /** The three tables of a replay, before fill `i`. */
    ghost predicate Replayed(approvals: seq<Approval>, fills: seq<Fill>, i: nat, balances: map<Address, Amount>,
                             approvedBuy: map<Address, Amount>, approvedSell: map<Address, Amount>)
      reads this
      requires dispute.Some? && |tokens| == |dispute.value.openingBalances| && |approvals| == |fills| && i <= |fills|
    {
      forall token :: token in tokens ==>
        && token in balances && balances[token] == BalanceAfter(CurrentTerms(), fills, i, token)
        && token in approvedBuy && approvedBuy[token] == ApprovedBuyLeft(approvals, fills, i, token)
        && token in approvedSell && approvedSell[token] == ApprovedSellLeft(approvals, fills, i, token)
    }

    /** Replays one fill. */
    method ReplayFill(approvals: seq<Approval>, fills: seq<Fill>, i: nat, balances: map<Address, Amount>,
                      approvedBuy: map<Address, Amount>, approvedSell: map<Address, Amount>)
      returns (covered: bool, balances': map<Address, Amount>, approvedBuy': map<Address, Amount>, approvedSell': map<Address, Amount>)
      requires dispute.Some? && |tokens| == |dispute.value.openingBalances| && |approvals| == |fills| && i < |fills|
      requires fills[i].buyAsset in tokens && fills[i].sellAsset in tokens
      requires Replayed(approvals, fills, i, balances, approvedBuy, approvedSell)
      ensures covered <==> FillCovered(CurrentTerms(), approvals, fills, i)
      ensures covered ==> Replayed(approvals, fills, i + 1, balances', approvedBuy', approvedSell')
    {
      hide BalanceAfter, ApprovedBuyLeft, ApprovedSellLeft, FillCovered;
      var fill, approval := fills[i], approvals[i];
      balances', approvedBuy', approvedSell' := balances, approvedBuy, approvedSell;
      FillCoveredMeans(CurrentTerms(), approvals, fills, i);
      NextFill(CurrentTerms(), approvals, fills, i);
      if approval.intent.BuyAll? {
        if fill.buy > approval.buy {
          covered := false;
          return;
        }
        approvedBuy' := approvedBuy'[fill.buyAsset := approvedBuy'[fill.buyAsset] - fill.buy];
      } else if fill.sell > approval.sell {
        covered := false;
        return;
      }
      approvedSell' := approvedSell'[fill.sellAsset := approvedSell'[fill.sellAsset] - fill.sell];
      balances' := balances'[fill.buyAsset := balances'[fill.buyAsset] + fill.buy];
      balances' := balances'[fill.sellAsset := balances'[fill.sellAsset] - fill.sell];
      assert Replayed(approvals, fills, i + 1, balances', approvedBuy', approvedSell');
      covered := balances'[fill.buyAsset] >= 0.0 && balances'[fill.sellAsset] >= 0.0
                 && approvedBuy'[fill.buyAsset] >= 0.0 && approvedSell'[fill.sellAsset] >= 0.0;
    }

    /** Replays the fills over the client's balances and the approved totals. */
    method ReplayFills(approvals: seq<Approval>, fills: seq<Fill>, start: map<Address, Amount>)
      returns (covered: bool, balances: map<Address, Amount>)
      requires dispute.Some? && |tokens| == |dispute.value.openingBalances|
      requires TokensListed(tokens, fills) && FillsMatchApprovals(approvals, fills)
      requires forall token :: token in tokens ==> token in start && start[token] == BalanceAfter(CurrentTerms(), fills, 0, token)
      ensures covered <==> forall i :: 0 <= i < |fills| ==> FillCovered(CurrentTerms(), approvals, fills, i)
      ensures covered ==> forall token :: token in tokens ==>
        token in balances && balances[token] == BalanceAfter(CurrentTerms(), fills, |fills|, token)
    {
      hide BalanceAfter, ApprovedBuyLeft, ApprovedSellLeft, DistinctSum, FillCovered, Times;
      balances := start;
      assert forall i :: 0 <= i < |fills| ==> FillMatchesApproval(approvals[i], fills[i]);
      var approvedBuy, approvedSell := SumApprovals(approvals);
      BeforeFirstFill(approvals, fills);
      for i := 0 to |fills|
        invariant Replayed(approvals, fills, i, balances, approvedBuy, approvedSell)
        invariant forall j :: 0 <= j < i ==> FillCovered(CurrentTerms(), approvals, fills, j)
      {
        covered, balances, approvedBuy, approvedSell := ReplayFill(approvals, fills, i, balances, approvedBuy, approvedSell);
        if !covered {
          return;
        }
      }
      covered := true;
    }

    /** Replays and settles, over assets as the contract indexes them. */
    method CheckDisputeAccounting(proofs: seq<BalanceProof>, approvals: seq<Approval>, fills: seq<Fill>) returns (settled: bool)
      requires dispute.Some? && |tokens| == |dispute.value.openingBalances| && ProofsInOrder(tokens, proofs)
      requires TokensListed(tokens, fills) && FillsMatchApprovals(approvals, fills)
      ensures settled <==> Accounted(CurrentTerms(), proofs, approvals, fills)
    {
      hide BalanceAfter, FillCovered, FinalBalance, Times, FillMatchesApproval, OpeningIn;
      var balances := OpeningBalances();
      StartBalances(CurrentTerms(), fills);
      if exists token :: token in tokens && balances[token] < 0.0 {
        return false;
      }
      assert forall token :: token in tokens ==> BalanceAfter(CurrentTerms(), fills, 0, token) >= 0.0;
      var covered;
      covered, balances := ReplayFills(approvals, fills, balances);
      if !covered {
        return false;
      }
      settled := CheckSettled(proofs, fills, balances);
    }

    /** Closes the open dispute, or refuses and leaves it as it was. */
    method CloseDispute(now: Clock, proofs: seq<BalanceProof>, approvals: seq<Approval>, fills: seq<Fill>) returns (closed: bool)
      requires dispute.Some? && |tokens| == |dispute.value.openingBalances|
      modifies this`dispute
      ensures closed <==> Closes(compare, now, old(CurrentTerms()), proofs, approvals, fills)
      ensures dispute == if closed then Some(old(dispute).value.(open := false)) else old(dispute)
    {
      hide Accounted, MatchCount, Times, FillMatchesApproval, OfDispute;
      if !dispute.value.open || !OnTime(now, dispute.value) {
        return false;
      }
      if !ProofArrayValid(compare, commits, tokens, client, dispute.value.round, proofs) || !IdsIncreasing(fills) {
        return false;
      }
      if dispute.value.round == 0 {
        return false;
      }
      var fillCount := CountClientFills(StoredUnder(disputeFills, dispute.value.disputeId), fills);
      if fillCount != dispute.value.fillCount {
        return false;
      }
      if !OfDispute(CurrentTerms(), approvals, fills) || !FillsMatchApprovals(approvals, fills) {
        return false;
      }
      if fills != [] && tokens == [] {
        return false;
      }
      SlottedStillMatch(tokens, approvals, fills);
      var settled := CheckDisputeAccounting(proofs, SlottedApprovals(tokens, approvals), SlottedFills(tokens, fills));
      if !settled {
        return false;
      }
      dispute := Some(dispute.value.(open := false));
      return true;
    }

    /** Takes withdrawals off the replayed balances and compares them with the proofs. */
    method CheckSettled(proofs: seq<BalanceProof>, fills: seq<Fill>, balances: map<Address, Amount>) returns (settled: bool)
      requires dispute.Some? && |tokens| == |dispute.value.openingBalances| && ProofsInOrder(tokens, proofs)
      requires forall token :: token in tokens ==>
        token in balances && balances[token] == BalanceAfter(CurrentTerms(), fills, |fills|, token)
      ensures settled <==>
        && (forall token :: token in tokens ==> FinalBalance(CurrentTerms(), fills, token) >= 0.0)
        && (forall i :: 0 <= i < |proofs| ==>
              proofs[i].clientOpeningBalance == FinalBalance(CurrentTerms(), fills, proofs[i].tokenAddress))
    {
      hide BalanceAfter;
      var final := map token | token in tokens :: balances[token] - TotalAt(clientRequestedWithdrawals, CurrentTerms().Disputed(), token);
      assert forall token :: token in tokens ==> final[token] == FinalBalance(CurrentTerms(), fills, token);
      settled :=
        && (forall token :: token in tokens ==> final[token] >= 0.0)
        && (forall i :: 0 <= i < |proofs| ==> proofs[i].clientOpeningBalance == final[proofs[i].tokenAddress]);
    }

    /** Opening balances and deposits of every token. */
    method OpeningBalances() returns (balances: map<Address, Amount>)
      requires dispute.Some? && |tokens| == |dispute.value.openingBalances|
      ensures forall token :: token in tokens ==>
        && token in balances
        && balances[token] == OpeningIn(tokens, dispute.value.openingBalances, token) + TotalAt(clientDeposits, CurrentTerms().Disputed(), token)
    {
      balances := map[];
      for i := 0 to |tokens|
        invariant forall token :: token in tokens[..i] ==>
          token in balances && balances[token] == OpeningIn(tokens[..i], dispute.value.openingBalances[..i], token)
      {
        balances := balances[tokens[i] := dispute.value.openingBalances[i]];
        assert tokens[..i + 1][..i] == tokens[..i];
        assert dispute.value.openingBalances[..i + 1][..i] == dispute.value.openingBalances[..i];
      }
      assert tokens[..|tokens|] == tokens && dispute.value.openingBalances[..|tokens|] == dispute.value.openingBalances;
      balances := map token | token in tokens :: balances[token] + TotalAt(clientDeposits, CurrentTerms().Disputed(), token);
    }
  }

  /** Indexing keeps fills and approvals matched, and names listed tokens only. */
  lemma SlottedStillMatch(tokens: seq<Address>, approvals: seq<Approval>, fills: seq<Fill>)
    requires FillsMatchApprovals(approvals, fills) && (fills == [] || tokens != [])
    ensures FillsMatchApprovals(SlottedApprovals(tokens, approvals), SlottedFills(tokens, fills))
    ensures TokensListed(tokens, SlottedFills(tokens, fills))
  {
    hide Times;
    var a, f := SlottedApprovals(tokens, approvals), SlottedFills(tokens, fills);
    forall i | 0 <= i < |a|
      ensures FillMatchesApproval(a[i], f[i])
    {
      assert FillMatchesApproval(approvals[i], fills[i]);
    }
  }

  /** Where all assets are listed, indexing changes nothing. */
  lemma ListedAreTheirSlots(tokens: seq<Address>, approvals: seq<Approval>, fills: seq<Fill>)
    requires TokensListed(tokens, fills) && FillsMatchApprovals(approvals, fills)
    ensures SlottedApprovals(tokens, approvals) == approvals && SlottedFills(tokens, fills) == fills
    ensures fills == [] || tokens != []
  {
    hide Times;
    assert forall i :: 0 <= i < |fills| ==> FillMatchesApproval(approvals[i], fills[i]);
    assert fills != [] ==> fills[0].buyAsset in tokens;
  }

  lemma NoApprovals(approvals: seq<Approval>)
    ensures forall f: Approval -> Amount :: DistinctSum(approvals, 0, f) == 0.0
    ensures forall id :: !OccursBefore(approvals, 0, id)
  {
  }

  lemma NextApproval(approvals: seq<Approval>, i: nat)
    requires i < |approvals|
    ensures forall f: Approval -> Amount ::
      DistinctSum(approvals, i + 1, f)
      == DistinctSum(approvals, i, f) + if OccursBefore(approvals, i, approvals[i].approvalId) then 0.0 else f(approvals[i])
    ensures forall id :: OccursBefore(approvals, i + 1, id) <==> OccursBefore(approvals, i, id) || id == approvals[i].approvalId
  {
  }

  lemma StartBalances(t: Terms, fills: seq<Fill>)
    requires |t.tokens| == |t.dispute.openingBalances|
    ensures forall token :: BalanceAfter(t, fills, 0, token)
                            == OpeningIn(t.tokens, t.dispute.openingBalances, token) + TotalAt(t.deposits, t.Disputed(), token)
  {
  }

  lemma FillCoveredMeans(t: Terms, approvals: seq<Approval>, fills: seq<Fill>, i: nat)
    requires |t.tokens| == |t.dispute.openingBalances| && |approvals| == |fills| && i < |fills|
    ensures FillCovered(t, approvals, fills, i) <==>
      && (if approvals[i].intent.BuyAll? then fills[i].buy <= approvals[i].buy else fills[i].sell <= approvals[i].sell)
      && BalanceAfter(t, fills, i + 1, fills[i].buyAsset) >= 0.0
      && BalanceAfter(t, fills, i + 1, fills[i].sellAsset) >= 0.0
      && ApprovedBuyLeft(approvals, fills, i + 1, fills[i].buyAsset) >= 0.0
      && ApprovedSellLeft(approvals, fills, i + 1, fills[i].sellAsset) >= 0.0
  {
  }

  lemma BeforeFirstFill(approvals: seq<Approval>, fills: seq<Fill>)
    requires |approvals| == |fills|
    ensures forall token :: ApprovedBuyLeft(approvals, fills, 0, token)
                            == DistinctSum(approvals, |approvals|, ApprovedBuyOf(token))
    ensures forall token :: ApprovedSellLeft(approvals, fills, 0, token)
                            == DistinctSum(approvals, |approvals|, ApprovedSellOf(token))
  {
    assert Zip(approvals, fills)[..0] == [];
  }

  /** How the replayed quantities move with one more fill. */
  lemma {:induction false} NextFill(t: Terms, approvals: seq<Approval>, fills: seq<Fill>, i: nat)
    requires |t.tokens| == |t.dispute.openingBalances| && |approvals| == |fills| && i < |fills|
    ensures forall token :: BalanceAfter(t, fills, i + 1, token) == BalanceAfter(t, fills, i, token) + NetOf(token)(fills[i])
    ensures forall token :: ApprovedBuyLeft(approvals, fills, i + 1, token)
                            == ApprovedBuyLeft(approvals, fills, i, token) - BuyUse(token)((approvals[i], fills[i]))
    ensures forall token :: ApprovedSellLeft(approvals, fills, i + 1, token)
                            == ApprovedSellLeft(approvals, fills, i, token) - SellUse(token)((approvals[i], fills[i]))
  {
    var pairs := Zip(approvals, fills);
    assert fills[..i + 1] == fills[..i] + [fills[i]];
    assert pairs[..i + 1] == pairs[..i] + [pairs[i]];
    forall token
      ensures SumBy(fills[..i + 1], NetOf(token)) == SumBy(fills[..i], NetOf(token)) + NetOf(token)(fills[i])
      ensures SumBy(pairs[..i + 1], BuyUse(token)) == SumBy(pairs[..i], BuyUse(token)) + BuyUse(token)(pairs[i])
      ensures SumBy(pairs[..i + 1], SellUse(token)) == SumBy(pairs[..i], SellUse(token)) + SellUse(token)(pairs[i])
    {
      SumAppend(fills[..i], fills[i], NetOf(token));
      SumAppend(pairs[..i], pairs[i], BuyUse(token));
      SumAppend(pairs[..i], pairs[i], SellUse(token));
    }
  }
}
