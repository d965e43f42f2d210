// Deposit, withdrawal and dispute events read from blocks. A block that was not saved is read again, so
// events can be delivered more than once (src/server/operator/Operator.ts, onDeposit,
// onInitiateWithdrawal and onOpenDispute).
module ChainEvents {
  import opened BasicTypes
  import opened BigNumbers
  import L = Ledgers
  import opened Ledgers
  import opened LedgerBalances
  import opened MetaLedgers

  datatype ChainEvent =
    | DepositCompleted(round: Round, asset: Address, wallet: Address, amount: Amount, txHash: Id)
    | WithdrawalInitiated(round: Round, asset: Address, wallet: Address, amount: Amount, txHash: Id)
    | DisputeOpened(disputeId: nat, round: Round, wallet: Address)

  datatype DisputeRow = DisputeRow(round: Round, wallet: Address)

  /** The ledger, the recorded deposit transactions, the dispute table, and which deposits were credited, in order. */
  datatype Books = Books(ledger: Ledger, recorded: set<Id>, disputes: seq<DisputeRow>, credited: seq<ChainEvent>)

  // --- The handlers as functions --------------------------------------------------------------

  /** What the database does to a handler: it throws before anything is written, at the commit, or at the record. */
  datatype Fault = NoFault | HandlerThrows | CommitThrows | RecordingThrows {
    /** Nothing is written. */
    predicate Thrown() {
      HandlerThrows? || CommitThrows?
    }
  }

  /**
   * The deposit is recorded after it is credited, in a transaction of its own. Whatever is thrown is
   * logged and dropped; the balance cache is patched before the credit is committed.
   */
  function OnDeposit(b: Books, e: ChainEvent, fault: Fault): Books
    requires e.DepositCompleted?
  {
    if fault.HandlerThrows? || e.txHash in b.recorded then b
    else
      var outcome := L.CreditDeposit(b.ledger, e.asset, e.wallet, e.amount, e.round);
      if !outcome.Ok() then b
      else if fault.CommitThrows? then b.(ledger := b.ledger.(cache := outcome.ledger.cache))
      else b.(ledger := outcome.ledger, credited := b.credited + [e],
              recorded := if fault.RecordingThrows? then b.recorded else b.recorded + {e.txHash})
  }

  function RequestOf(e: ChainEvent): Withdrawal
    requires e.WithdrawalInitiated?
  {
    Withdrawal(e.txHash, e.asset, e.wallet, e.amount, e.round, Unchecked)
  }

  function OnInitiateWithdrawal(b: Books, e: ChainEvent): Books
    requires e.WithdrawalInitiated?
  {
    if HasTransaction(b.ledger.withdrawals, e.txHash) then b
    else b.(ledger := L.InsertWithdrawal(b.ledger, RequestOf(e)).ledger)
  }

  /** Rows are numbered from one as they are stored; the contract's dispute id is looked up among those numbers. */
  predicate DisputeKnown(b: Books, e: ChainEvent)
    requires e.DisputeOpened?
  {
    1 <= e.disputeId <= |b.disputes|
  }

  function OnOpenDispute(b: Books, e: ChainEvent): Books
    requires e.DisputeOpened?
  {
    if DisputeKnown(b, e) then b else b.(disputes := b.disputes + [DisputeRow(e.round, e.wallet)])
  }

  function OnEvent(b: Books, e: ChainEvent, fault: Fault): Books {
    match e
    case DepositCompleted(_, _, _, _, _) => OnDeposit(b, e, fault)
    case WithdrawalInitiated(_, _, _, _, _) => if fault.Thrown() then b else OnInitiateWithdrawal(b, e)
    case DisputeOpened(_, _, _) => if fault.Thrown() then b else OnOpenDispute(b, e)
  }

  /** The events of one reading of a block; event `i` meets `faults(i)`. */
  function Deliver(b: Books, events: seq<ChainEvent>, faults: nat -> Fault): Books {
    if events == [] then b
    else
      var n := |events| - 1;
      OnEvent(Deliver(b, events[..n], faults), events[n], faults(n))
  }

  const NEVER: nat -> Fault := (i: nat) => NoFault

  // --- Delivering again -----------------------------------------------------------------------

  /** Delivering the event again would change nothing. */
  predicate Settled(b: Books, e: ChainEvent) {
    match e
    case DepositCompleted(round, asset, wallet, amount, txHash) =>
      txHash in b.recorded || !L.CreditDeposit(b.ledger, asset, wallet, amount, round).Ok()
    case WithdrawalInitiated(_, _, _, _, txHash) => HasTransaction(b.ledger.withdrawals, txHash)
    case DisputeOpened(_, _, _) => DisputeKnown(b, e)
  }

  lemma {:induction false} SettledIff(b: Books, e: ChainEvent, fault: Fault)
    ensures Settled(b, e) ==> OnEvent(b, e, fault) == b
    ensures !Settled(b, e) ==> OnEvent(b, e, NoFault) != b
  {
    hide Post, PatchCache;
    if e.DepositCompleted? && !Settled(b, e) {
      assert |OnEvent(b, e, NoFault).credited| == |b.credited| + 1;
    }
    if e.WithdrawalInitiated? && !Settled(b, e) {
      assert |OnEvent(b, e, NoFault).ledger.withdrawals| == |b.ledger.withdrawals| + 1;
    }
    if e.DisputeOpened? && !Settled(b, e) {
      assert |OnEvent(b, e, NoFault).disputes| == |b.disputes| + 1;
    }
  }

  lemma {:induction false} EventSettles(b: Books, e: ChainEvent)
    ensures e.DisputeOpened? || Settled(OnEvent(b, e, NoFault), e)
  {
    hide Post, PatchCache;
    if e.WithdrawalInitiated? && !HasTransaction(b.ledger.withdrawals, e.txHash) {
      var rows := b.ledger.withdrawals;
      assert (rows + [RequestOf(e)])[|rows|].txHash == e.txHash;
    }
  }

  /** Events register no wallet, and whether a deposit is refused depends on wallets only. */
  lemma {:induction false} SettledStays(b: Books, e: ChainEvent, other: ChainEvent, fault: Fault)
    requires Settled(b, e)
    ensures Settled(OnEvent(b, other, fault), e)
  {
    hide Post, PatchCache, IsRegistered;
    if e.WithdrawalInitiated? {
      var rows := b.ledger.withdrawals;
      var i :| 0 <= i < |rows| && rows[i].txHash == e.txHash;
      assert OnEvent(b, other, fault).ledger.withdrawals[i] == rows[i];
    }
  }

  lemma {:induction false} DisputesGrow(b: Books, events: seq<ChainEvent>, faults: nat -> Fault)
    ensures |b.disputes| <= |Deliver(b, events, faults).disputes|
  {
    hide Post, PatchCache, L.CreditDeposit, HasTransaction;
    if events != [] {
      DisputesGrow(b, events[..|events| - 1], faults);
    }
  }

  lemma {:induction false} DeliveredAreSettled(b: Books, events: seq<ChainEvent>)
    ensures forall e :: e in events && !e.DisputeOpened? ==> Settled(Deliver(b, events, NEVER), e)
  {
    hide OnEvent, Settled;
    if events != [] {
      var n := |events| - 1;
      DeliveredAreSettled(b, events[..n]);
      var before := Deliver(b, events[..n], NEVER);
      forall e | e in events && !e.DisputeOpened?
        ensures Settled(OnEvent(before, events[n], NoFault), e)
      {
        if e in events[..n] {
          SettledStays(before, e, events[n], NoFault);
        } else {
          EventSettles(before, events[n]);
        }
      }
    }
  }

  lemma {:induction false} SettledChangeNothing(b: Books, events: seq<ChainEvent>, faults: nat -> Fault)
    requires forall e :: e in events ==> Settled(b, e)
    ensures Deliver(b, events, faults) == b
  {
    hide OnEvent, Settled;
    if events != [] {
      var n := |events| - 1;
      SettledChangeNothing(b, events[..n], faults);
      SettledIff(b, events[n], faults(n));
    }
  }

  /** The dispute events of a reading are all found in the table. */
  predicate DisputesNumbered(b: Books, events: seq<ChainEvent>) {
    forall i :: 0 <= i < |events| && events[i].DisputeOpened? ==> DisputeKnown(b, events[i])
  }

  /**
   * Reading blocks again, in any order, any part of them and any number of times, changes nothing if
   * and only if the contract's dispute ids are among the numbers of the stored disputes.
   */
  lemma {:induction false} RedeliveryHarmlessIff(b: Books, events: seq<ChainEvent>)
    ensures var done := Deliver(b, events, NEVER);
      (forall again, faults :: (forall e :: e in again ==> e in events) ==> Deliver(done, again, faults) == done)
      <==> DisputesNumbered(done, events)
  {
    hide OnEvent, Deliver;
    var done := Deliver(b, events, NEVER);
    DeliveredAreSettled(b, events);
    if DisputesNumbered(done, events) {
      forall again, faults | forall e :: e in again ==> e in events
        ensures Deliver(done, again, faults) == done
      {
        assert forall e :: e in again ==> Settled(done, e);
        SettledChangeNothing(done, again, faults);
      }
    } else {
      var i :| 0 <= i < |events| && events[i].DisputeOpened? && !DisputeKnown(done, events[i]);
      var again := [events[i]];
      SettledIff(done, events[i], NoFault);
      OneEvent(done, events[i], NEVER);
      assert forall e :: e in again ==> e in events;
      assert Deliver(done, again, NEVER) != done;
    }
  }

  lemma OneEvent(b: Books, e: ChainEvent, faults: nat -> Fault)
    ensures Deliver(b, [e], faults) == OnEvent(b, e, faults(0))
  {
    hide OnEvent;
    assert [e][..0] == [];
  }

  /** The contract numbers its disputes one after the other. */
  predicate NumberedFrom(events: seq<ChainEvent>, first: nat) {
    if events == [] then true
    else
      var n := |events| - 1;
      NumberedFrom(events[..n], first) && (events[n].DisputeOpened? ==> events[n].disputeId == first + DisputeCount(events[..n]))
  }

  function DisputeCount(events: seq<ChainEvent>): nat {
    if events == [] then 0
    else DisputeCount(events[..|events| - 1]) + if events[|events| - 1].DisputeOpened? then 1 else 0
  }

  /** The handler of no dispute event throws. */
  predicate DisputesHandled(events: seq<ChainEvent>, faults: nat -> Fault) {
    forall i :: 0 <= i < |events| && events[i].DisputeOpened? ==> !faults(i).Thrown()
  }

  /**
   * Read from the first dispute on, the table numbers disputes as the contract does if and only if no
   * handler of a dispute throws: one that is missed shifts the numbers of all later ones.
   */
  lemma {:induction false} TableFollowsContractIff(b: Books, events: seq<ChainEvent>, faults: nat -> Fault)
    requires NumberedFrom(events, |b.disputes| + 1)
    ensures var after := Deliver(b, events, faults);
      && (DisputesNumbered(after, events) <==> DisputesHandled(events, faults))
      && |after.disputes| <= |b.disputes| + DisputeCount(events)
      && (|after.disputes| == |b.disputes| + DisputeCount(events) <==> DisputesHandled(events, faults))
  {
    hide Post, PatchCache, L.CreditDeposit, HasTransaction;
    if events != [] {
      var n := |events| - 1;
      TableFollowsContractIff(b, events[..n], faults);
      assert forall i :: 0 <= i < n ==> events[..n][i] == events[i];
      if DisputeCount(events) > 0 {
        LastDispute(events, |b.disputes| + 1);
      }
    }
  }

  /** The last of the disputes has the highest number. */
  lemma {:induction false} LastDispute(events: seq<ChainEvent>, first: nat)
    requires NumberedFrom(events, first) && DisputeCount(events) > 0
    ensures exists i :: 0 <= i < |events| && events[i].DisputeOpened? && events[i].disputeId == first + DisputeCount(events) - 1
    ensures forall i :: 0 <= i < |events| && events[i].DisputeOpened? ==>
      first <= events[i].disputeId < first + DisputeCount(events)
  {
    var n := |events| - 1;
    if DisputeCount(events[..n]) > 0 {
      LastDispute(events[..n], first);
      var i :| 0 <= i < n && events[..n][i].DisputeOpened? && events[..n][i].disputeId == first + DisputeCount(events[..n]) - 1;
      assert events[i] == events[..n][i];
      assert forall k :: 0 <= k < n ==> events[..n][k] == events[k];
    } else {
      NoDisputes(events[..n]);
      assert forall k :: 0 <= k < n ==> events[..n][k] == events[k];
    }
  }

  lemma {:induction false} NoDisputes(events: seq<ChainEvent>)
    requires DisputeCount(events) == 0
    ensures forall i :: 0 <= i < |events| ==> !events[i].DisputeOpened?
  {
    if events != [] {
      NoDisputes(events[..|events| - 1]);
      assert forall k :: 0 <= k < |events| - 1 ==> events[..|events| - 1][k] == events[k];
    }
  }

  // --- What a reading leaves in the tables ----------------------------------------------------

  /** The row of a request event that was handled. */
  ghost predicate RequestedBy(events: seq<ChainEvent>, faults: nat -> Fault, w: Withdrawal) {
    exists i :: 0 <= i < |events| && !faults(i).Thrown()
      && events[i] == WithdrawalInitiated(w.round, w.asset, w.wallet, w.amount, w.txHash)
  }

  /**
   * A reading adds rows to the withdrawals and changes none: each new one is an unchecked request, just as
   * one of the handled events says, and every handled request is in the table.
   */
  lemma {:induction false} RequestsStored(b: Books, events: seq<ChainEvent>, faults: nat -> Fault)
    ensures var before, after := b.ledger.withdrawals, Deliver(b, events, faults).ledger.withdrawals;
      && before <= after
      && (forall k :: |before| <= k < |after| ==> after[k].status == Unchecked && RequestedBy(events, faults, after[k]))
      && (forall i :: 0 <= i < |events| && events[i].WithdrawalInitiated? && !faults(i).Thrown() ==>
            HasTransaction(after, events[i].txHash))
  {
    hide Post, PatchCache, IsRegistered, RequestedBy, HasTransaction;
    if events != [] {
      var n := |events| - 1;
      RequestsStored(b, events[..n], faults);
      var before, middle, after := b.ledger.withdrawals, Deliver(b, events[..n], faults).ledger.withdrawals,
        Deliver(b, events, faults).ledger.withdrawals;
      RequestStored(Deliver(b, events[..n], faults), events[n], faults(n));
      forall k | |before| <= k < |after|
        ensures after[k].status == Unchecked && RequestedBy(events, faults, after[k])
      {
        StillRequested(events, faults, after[k]);
      }
      forall i | 0 <= i < |events| && events[i].WithdrawalInitiated? && !faults(i).Thrown()
        ensures HasTransaction(after, events[i].txHash)
      {
        if i < n {
          assert events[..n][i] == events[i];
          StillKnown(middle, after, events[i].txHash);
        }
      }
    }
  }

  lemma StillKnown(before: seq<Withdrawal>, after: seq<Withdrawal>, txHash: Id)
    requires before <= after && HasTransaction(before, txHash)
    ensures HasTransaction(after, txHash)
  {
    var i :| 0 <= i < |before| && before[i].txHash == txHash;
    assert after[i] == before[i];
  }

  lemma StillRequested(events: seq<ChainEvent>, faults: nat -> Fault, w: Withdrawal)
    requires events != []
    ensures RequestedBy(events[..|events| - 1], faults, w) ==> RequestedBy(events, faults, w)
    ensures !faults(|events| - 1).Thrown() && events[|events| - 1] == WithdrawalInitiated(w.round, w.asset, w.wallet, w.amount, w.txHash)
            ==> RequestedBy(events, faults, w)
  {
  }

  lemma {:induction false} RequestStored(b: Books, e: ChainEvent, fault: Fault)
    ensures var before, after := b.ledger.withdrawals, OnEvent(b, e, fault).ledger.withdrawals;
      && before <= after && |after| <= |before| + 1
      && (|after| > |before| ==> !fault.Thrown() && after[|before|].status == Unchecked
                                 && e == WithdrawalInitiated(after[|before|].round, after[|before|].asset, after[|before|].wallet,
                                                             after[|before|].amount, after[|before|].txHash))
      && (e.WithdrawalInitiated? && !fault.Thrown() ==> HasTransaction(after, e.txHash))
  {
    hide Post, PatchCache, IsRegistered;
    if e.WithdrawalInitiated? && !fault.Thrown() && !HasTransaction(b.ledger.withdrawals, e.txHash) {
      assert OnEvent(b, e, fault).ledger.withdrawals[|b.ledger.withdrawals|].txHash == e.txHash;
    }
  }

  /** The row of a dispute event that was handled. */
  ghost predicate DisputedBy(events: seq<ChainEvent>, faults: nat -> Fault, row: DisputeRow) {
    exists i :: 0 <= i < |events| && !faults(i).Thrown() && events[i].DisputeOpened?
      && events[i].round == row.round && events[i].wallet == row.wallet
  }

  lemma StillDisputed(events: seq<ChainEvent>, faults: nat -> Fault, row: DisputeRow)
    requires events != []
    ensures DisputedBy(events[..|events| - 1], faults, row) ==> DisputedBy(events, faults, row)
  {
    assert forall i :: 0 <= i < |events| - 1 ==> events[..|events| - 1][i] == events[i];
  }

  /** A reading adds rows to the disputes and changes none: each new one names the round and client of a handled event. */
  lemma {:induction false} DisputesStored(b: Books, events: seq<ChainEvent>, faults: nat -> Fault)
    ensures var before, after := b.disputes, Deliver(b, events, faults).disputes;
      && before <= after
      && forall k :: |before| <= k < |after| ==> DisputedBy(events, faults, after[k])
  {
    hide Post, PatchCache, IsRegistered, HasTransaction, L.CreditDeposit;
    if events != [] {
      var n := |events| - 1;
      DisputesStored(b, events[..n], faults);
      var after := Deliver(b, events, faults).disputes;
      forall k | |b.disputes| <= k < |after|
        ensures DisputedBy(events, faults, after[k])
      {
        StillDisputed(events, faults, after[k]);
      }
    }
  }

  // --- How often a deposit is credited --------------------------------------------------------

  /** A deposit that crediting accepts. */
  predicate Creditable(b: Books, e: ChainEvent) {
    e.DepositCompleted? && IsRegistered(b.ledger.wallets, e.wallet) && e.amount > 0.0
  }

  /** One event credits only itself, and only while its transaction is not recorded. */
  lemma {:induction false} EventEffect(b: Books, e: ChainEvent, other: ChainEvent, fault: Fault)
    requires e.DepositCompleted? && (other.DepositCompleted? && other != e ==> other.txHash != e.txHash)
    ensures var after := OnEvent(b, other, fault);
      var effective := other == e && Creditable(b, e) && !fault.Thrown();
      && after.ledger.wallets == b.ledger.wallets
      && multiset(after.credited)[e] == multiset(b.credited)[e] + (if effective && e.txHash !in b.recorded then 1 else 0)
      && (e.txHash in after.recorded <==> e.txHash in b.recorded || (effective && fault.NoFault?))
  {
    hide Post, PatchCache, IsRegistered, HasTransaction;
  }

  /** Whatever else is delivered, a deposit that is not among the events is left alone. */
  lemma {:induction false} OthersLeaveAlone(b: Books, events: seq<ChainEvent>, faults: nat -> Fault, e: ChainEvent)
    requires e.DepositCompleted?
    requires forall i :: 0 <= i < |events| && events[i].DepositCompleted? ==> events[i].txHash != e.txHash
    ensures var after := Deliver(b, events, faults);
      && after.ledger.wallets == b.ledger.wallets
      && multiset(after.credited)[e] == multiset(b.credited)[e]
      && (e.txHash in after.recorded <==> e.txHash in b.recorded)
  {
    hide OnEvent;
    if events != [] {
      var n := |events| - 1;
      OthersLeaveAlone(b, events[..n], faults, e);
      EventEffect(Deliver(b, events[..n], faults), e, events[n], faults(n));
    }
  }

  /** A deposit at position `i` of a reading, under its own transaction, is credited unless recorded. */
  lemma {:induction false} ReadingEffect(b: Books, events: seq<ChainEvent>, faults: nat -> Fault, i: nat)
    requires i < |events| && events[i].DepositCompleted?
    requires forall j :: 0 <= j < |events| && j != i && events[j].DepositCompleted? ==> events[j].txHash != events[i].txHash
    ensures var e := events[i];
      var after := Deliver(b, events, faults);
      var effective := Creditable(b, e) && !faults(i).Thrown();
      && after.ledger.wallets == b.ledger.wallets
      && multiset(after.credited)[e] == multiset(b.credited)[e] + (if effective && e.txHash !in b.recorded then 1 else 0)
      && (e.txHash in after.recorded <==> e.txHash in b.recorded || (effective && faults(i).NoFault?))
  {
    hide OnEvent, IsRegistered;
    var e := events[i];
    var n := |events| - 1;
    var before := Deliver(b, events[..n], faults);
    if i == n {
      OthersLeaveAlone(b, events[..n], faults, e);
      EventEffect(before, e, e, faults(n));
    } else {
      ReadingEffect(b, events[..n], faults, i);
      EventEffect(before, e, events[n], faults(n));
    }
  }

  /** The event is a deposit under this transaction that is credited and recorded when it is read first. */
  predicate Records(b: Books, e: ChainEvent, fault: Fault, txHash: Id) {
    Creditable(b, e) && e.txHash == txHash && fault.NoFault?
  }

  lemma {:induction false} RecordedIff(b: Books, events: seq<ChainEvent>, faults: nat -> Fault, txHash: Id)
    ensures var after := Deliver(b, events, faults);
      && after.ledger.wallets == b.ledger.wallets
      && (txHash in after.recorded
          <==> txHash in b.recorded || exists j :: 0 <= j < |events| && Records(b, events[j], faults(j), txHash))
  {
    hide Post, PatchCache, IsRegistered, HasTransaction;
    if events != [] {
      var n := |events| - 1;
      RecordedIff(b, events[..n], faults, txHash);
      assert forall j :: 0 <= j < n ==> events[..n][j] == events[j];
    }
  }

  /**
   * Deposits are recorded by transaction alone. A deposit is credited in its turn if and only if
   * crediting does not throw, its transaction was not recorded before, and recording failed for every
   * earlier deposit of that transaction in the reading: of several deposits in one transaction, only the
   * first is credited when nothing fails.
   */
  lemma {:induction false} CreditedInTurnIff(b: Books, events: seq<ChainEvent>, faults: nat -> Fault, i: nat)
    requires i < |events| && Creditable(b, events[i])
    ensures var before, after := Deliver(b, events[..i], faults), Deliver(b, events[..i + 1], faults);
      var e := events[i];
      && after.credited == before.credited + (if faults(i).Thrown() || e.txHash in before.recorded then [] else [e])
      && (e.txHash !in before.recorded
          <==> e.txHash !in b.recorded && forall j :: 0 <= j < i ==> !Records(b, events[j], faults(j), e.txHash))
  {
    hide Post, PatchCache, IsRegistered;
    RecordedIff(b, events[..i], faults, events[i].txHash);
    assert events[..i + 1][..i] == events[..i];
    assert forall j :: 0 <= j < i ==> events[..i][j] == events[j];
  }

  /**
   * The balance cache is patched before a credit is committed, and is not rolled back when the commit
   * throws: it stays exact if and only if the account was not remembered for the deposit's round.
   */
  lemma {:induction false} FailedCommitKeepsCacheIff(b: Books, e: ChainEvent)
    requires Creditable(b, e) && e.txHash !in b.recorded && CacheExact(b.ledger.accounts, b.ledger.cache)
    ensures var after := OnDeposit(b, e, CommitThrows);
      && after == b.(ledger := b.ledger.(cache := after.ledger.cache))
      && (CacheExact(after.ledger.accounts, after.ledger.cache)
          <==> !((e.asset, e.wallet) in b.ledger.cache && b.ledger.cache[(e.asset, e.wallet)].round == e.round))
  {
    hide Post, IsRegistered, Available;
    var after := OnDeposit(b, e, CommitThrows).ledger;
    var key := (e.asset, e.wallet);
    if key in b.ledger.cache && b.ledger.cache[key].round == e.round {
      assert key in after.cache && after.cache[key].balance == b.ledger.cache[key].balance + e.amount;
    }
  }

  function DepositsOf(events: seq<ChainEvent>): seq<Deposit> {
    if events == [] then []
    else
      var e := events[|events| - 1];
      DepositsOf(events[..|events| - 1])
      + if e.DepositCompleted? then [Deposit(e.asset, e.wallet, e.amount, e.round)] else []
  }

  /** The ledger holds one more deposit for every crediting, and no other. */
  lemma {:induction false} CreditedAreDeposits(b: Books, events: seq<ChainEvent>, faults: nat -> Fault)
    ensures var after := Deliver(b, events, faults);
      && b.credited <= after.credited
      && after.ledger.deposits == b.ledger.deposits + DepositsOf(after.credited[|b.credited|..])
  {
    hide Post, PatchCache, IsRegistered, HasTransaction;
    if events != [] {
      var n := |events| - 1;
      CreditedAreDeposits(b, events[..n], faults);
      var before, after := Deliver(b, events[..n], faults), Deliver(b, events, faults);
      if after.credited != before.credited {
        var more := after.credited[|b.credited|..];
        assert more[..|more| - 1] == before.credited[|b.credited|..];
      }
    }
  }

  // --- The handlers ---------------------------------------------------------------------------

  class EventHandler {
    const ledger: MetaLedger
    var recorded: set<Id>
    var disputes: seq<DisputeRow>
    ghost var credited: seq<ChainEvent>

    constructor (ledger: MetaLedger)
      ensures this.ledger == ledger && Current() == Books(ledger.State(), {}, [], [])
    {
      this.ledger := ledger;
      recorded, disputes, credited := {}, [], [];
    }

    ghost function Current(): Books
      reads this, ledger
    {
      Books(ledger.State(), recorded, disputes, credited)
    }

    method HandleDeposit(e: ChainEvent, fault: Fault)
      requires e.DepositCompleted?
      modifies this, ledger
      ensures Current() == OnDeposit(old(Current()), e, fault)
    {
      hide L.CreditDeposit;
      if fault.HandlerThrows? || e.txHash in recorded {
        return;
      }
      if fault.CommitThrows? {
        ledger.CreditUncommitted(e.asset, e.wallet, e.amount, e.round);
        UncommittedIsRefused(old(ledger.State()), e);
        return;
      }
      var error := ledger.CreditDeposit(e.asset, e.wallet, e.amount, e.round);
      if error.Some? {
        Refused(old(ledger.State()), e);
        return;
      }
      credited := credited + [e];
      if !fault.RecordingThrows? {
        recorded := recorded + {e.txHash};
      }
    }

    method HandleInitiateWithdrawal(e: ChainEvent)
      requires e.WithdrawalInitiated?
      modifies ledger
      ensures Current() == OnInitiateWithdrawal(old(Current()), e)
    {
      if HasTransaction(ledger.withdrawals, e.txHash) {
        return;
      }
      var request := Withdrawal(e.txHash, e.asset, e.wallet, e.amount, e.round, Unchecked);
      var error := ledger.InsertWithdrawal(request);
    }

    method HandleOpenDispute(e: ChainEvent)
      requires e.DisputeOpened?
      modifies this
      ensures Current() == OnOpenDispute(old(Current()), e)
    {
      if 1 <= e.disputeId <= |disputes| {
        return;
      }
      disputes := disputes + [DisputeRow(e.round, e.wallet)];
    }

    /** The events of a block, one after the other; what a handler throws is logged. */
    method ProcessEvents(events: seq<ChainEvent>, faults: nat -> Fault)
      modifies this, ledger
      ensures Current() == Deliver(old(Current()), events, faults)
    {
      hide OnDeposit, OnInitiateWithdrawal, OnOpenDispute;
      ghost var before := Current();
      var i := 0;
      while i < |events|
        invariant 0 <= i <= |events|
        invariant Current() == Deliver(before, events[..i], faults)
      {
        assert events[..i + 1][..i] == events[..i];
        match events[i] {
          case DepositCompleted(_, _, _, _, _) => HandleDeposit(events[i], faults(i));
          case WithdrawalInitiated(_, _, _, _, _) =>
            if !faults(i).Thrown() {
              HandleInitiateWithdrawal(events[i]);
            }
          case DisputeOpened(_, _, _) =>
            if !faults(i).Thrown() {
              HandleOpenDispute(events[i]);
            }
        }
        i := i + 1;
      }
      assert events[..|events|] == events;
    }
  }

  lemma UncommittedIsRefused(s: Ledger, e: ChainEvent)
    requires e.DepositCompleted?
    ensures var outcome := L.CreditDeposit(s, e.asset, e.wallet, e.amount, e.round);
      !outcome.Ok() ==> s.(cache := outcome.ledger.cache) == s
  {
  }

  lemma Refused(s: Ledger, e: ChainEvent)
    requires e.DepositCompleted? && !L.CreditDeposit(s, e.asset, e.wallet, e.amount, e.round).Ok()
    ensures L.CreditDeposit(s, e.asset, e.wallet, e.amount, e.round).ledger == s
  {
  }
}
