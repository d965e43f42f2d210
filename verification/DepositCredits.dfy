// How often the operator credits a deposit, over every sequence of calls, restarts and admissions with any
// halts and failures (src/server/operator/Operator.ts, processBlocksUpTo and onDeposit).
module DepositCredits {
  import opened BasicTypes
  import opened Ledgers
  import opened ChainEvents
  import opened BlockProcessing

  function Happened(cfg: Settings, books: Books, h: Happening): Books {
    match h
    case Reading(block, faults) => Deliver(books, cfg.events(block), faults)
    case Admission(wallet, round) => Joined(books, wallet, round)
    case Reboot => Reopened(books)
  }

  /** The books after everything in the log. */
  function Replayed(cfg: Settings, books: Books, log: seq<Happening>): Books {
    if log == [] then books
    else Happened(cfg, Replayed(cfg, books, log[..|log| - 1]), log[|log| - 1])
  }

  predicate IsReadingOf(h: Happening, n: nat) {
    h.Reading? && h.block == n
  }

  predicate WasRead(p: Progress, n: nat) {
    exists k :: 0 <= k < |p.log| && IsReadingOf(p.log[k], n)
  }

  /** The books are what the log made them, and every saved block was read. */
  ghost predicate Booked(cfg: Settings, books: Books, p: Progress) {
    && p.books == Replayed(cfg, books, p.log)
    && (forall i :: 0 <= i < |p.saved| ==> WasRead(p, p.saved[i]))
  }

  lemma {:induction false} OneMoreBooked(cfg: Settings, books: Books, p: Progress, q: Progress, h: Happening)
    requires Booked(cfg, books, p) && q.saved == p.saved
    requires q.log == p.log + [h] && q.books == Happened(cfg, p.books, h)
    ensures Booked(cfg, books, q) && (h.Reading? ==> WasRead(q, h.block))
  {
    hide Happened;
    var k := |p.log|;
    assert q.log[..k] == p.log && q.log[k] == h;
    forall i | 0 <= i < |q.saved|
      ensures WasRead(q, q.saved[i])
    {
      var j :| 0 <= j < |p.log| && IsReadingOf(p.log[j], p.saved[i]);
      assert IsReadingOf(q.log[j], q.saved[i]);
    }
  }

  lemma {:induction false} BlockBooked(cfg: Settings, books: Books, p: Progress, n: nat, env: Environment)
    requires cfg.Proper() && n >= cfg.creation && Booked(cfg, books, p)
    ensures Booked(cfg, books, OneBlock(cfg, p, n, env).progress)
  {
    hide Deliver, RoundOf, QuarterOf, Replayed;
    if !env.mishap(n).ReadingFails? {
      var read := ReadEvents(cfg, p, n, env.faults(n));
      OneMoreBooked(cfg, books, p, read, Reading(n, env.faults(n)));
      var done := ProcessSingleBlock(cfg, p, n, env.faults(n), RoundOf(cfg, n), QuarterOf(cfg, n), env.mishap(n)).progress;
      var end := OneBlock(cfg, p, n, env).progress;
      SameReadings(cfg, books, read, done);
      assert WasRead(done, n) && done.saved == p.saved;
      KeptSaved(cfg, p, n, env);
      assert forall m :: WasRead(done, m) ==> WasRead(end, m);
      forall i | 0 <= i < |end.saved|
        ensures WasRead(end, end.saved[i])
      {
        if i < |p.saved| {
          assert WasRead(done, done.saved[i]);
        }
      }
    }
  }

  lemma SameReadings(cfg: Settings, books: Books, p: Progress, q: Progress)
    requires Booked(cfg, books, p) && q.books == p.books && q.log == p.log && q.saved == p.saved
    ensures Booked(cfg, books, q) && forall m :: WasRead(p, m) ==> WasRead(q, m)
  {
    hide Replayed;
    assert forall m :: WasRead(p, m) ==> WasRead(q, m);
  }

  lemma KeptSaved(cfg: Settings, p: Progress, n: nat, env: Environment)
    requires cfg.Proper() && n >= cfg.creation
    ensures var end := OneBlock(cfg, p, n, env).progress;
      end.saved == p.saved || end.saved == p.saved + [n]
  {
    hide Deliver, RoundOf, QuarterOf;
  }

  lemma {:induction false} BlocksBooked(cfg: Settings, books: Books, p: Progress, n: nat, upTo: nat, env: Environment)
    requires cfg.Proper() && n >= cfg.creation && Booked(cfg, books, p)
    ensures Booked(cfg, books, Blocks(cfg, p, n, upTo, env))
    decreases upTo + 1 - n
  {
    hide OneBlock, Booked;
    if n <= upTo && !env.halted(n) {
      BlockBooked(cfg, books, p, n, env);
      var done := OneBlock(cfg, p, n, env);
      if done.ok {
        BlocksBooked(cfg, books, done.progress, n + 1, upTo, env);
      }
    }
  }

  lemma {:induction false} MoveBooked(cfg: Settings, books: Books, p: Progress, move: Move)
    requires cfg.Proper() && Consecutive(cfg, p) && Booked(cfg, books, p)
    ensures Booked(cfg, books, Made(cfg, p, move))
  {
    hide Consecutive, Blocks, Replayed, RoundOf, AtRoundStart, Reopened, Joined;
    match move {
      case Call(upTo, env) =>
        CallConsecutive(cfg, p, upTo, env);
        if !(p.last >= 0 && upTo <= p.last) {
          BlocksBooked(cfg, books, p, StartBlock(cfg, p, upTo), upTo, env);
        }
      case Restart => OneMoreBooked(cfg, books, p, Restarted(cfg, p), Reboot);
      case Admit(wallet) => OneMoreBooked(cfg, books, p, Admitted(p, wallet), Admission(wallet, p.round));
    }
  }

  lemma {:induction false} MovesBooked(cfg: Settings, books: Books, p: Progress, moves: seq<Move>)
    requires cfg.Proper() && Consecutive(cfg, p) && Booked(cfg, books, p)
    ensures Booked(cfg, books, AllMoves(cfg, p, moves))
    decreases |moves|
  {
    hide Consecutive, Booked, Made;
    if moves != [] {
      MoveConsecutive(cfg, p, moves[0]);
      MoveBooked(cfg, books, p, moves[0]);
      MovesBooked(cfg, books, Made(cfg, p, moves[0]), moves[1..]);
    }
  }

  // --- Which readings count -------------------------------------------------------------------

  /** Every deposit of the chain has a transaction of its own. */
  ghost predicate DistinctTransactions(cfg: Settings) {
    forall n: nat, i: nat, m: nat, j: nat ::
      i < |cfg.events(n)| && j < |cfg.events(m)| && cfg.events(n)[i].DepositCompleted? && cfg.events(m)[j].DepositCompleted? &&
      cfg.events(n)[i].txHash == cfg.events(m)[j].txHash ==>
        n == m && i == j
  }

  /** The wallet was known from the start, or was admitted. */
  predicate Known(books: Books, log: seq<Happening>, wallet: Address) {
    IsRegistered(books.ledger.wallets, wallet) || exists k :: 0 <= k < |log| && log[k].Admission? && log[k].wallet == wallet
  }

  /** Entry `k` is a reading of block `n` at which its deposit `i` can be credited: its wallet is known by then, and nothing throws. */
  predicate Effective(cfg: Settings, books: Books, log: seq<Happening>, k: nat, n: nat, i: nat)
    requires k < |log| && i < |cfg.events(n)| && cfg.events(n)[i].DepositCompleted?
  {
    && IsReadingOf(log[k], n) && !log[k].faults(i).Thrown()
    && cfg.events(n)[i].amount > 0.0 && Known(books, log[..k], cfg.events(n)[i].wallet)
  }

  /** For each effective reading in order: is the deposit also recorded? */
  function Attempts(cfg: Settings, books: Books, log: seq<Happening>, n: nat, i: nat): seq<bool>
    requires i < |cfg.events(n)| && cfg.events(n)[i].DepositCompleted?
  {
    if log == [] then []
    else
      var k := |log| - 1;
      Attempts(cfg, books, log[..k], n, i) + if Effective(cfg, books, log, k, n, i) then [log[k].faults(i).NoFault?] else []
  }

  lemma {:induction false} AttemptedIff(cfg: Settings, books: Books, log: seq<Happening>, n: nat, i: nat)
    requires i < |cfg.events(n)| && cfg.events(n)[i].DepositCompleted?
    ensures Attempts(cfg, books, log, n, i) != [] <==> exists k :: 0 <= k < |log| && Effective(cfg, books, log, k, n, i)
  {
    hide Known;
    if log != [] {
      var last := |log| - 1;
      AttemptedIff(cfg, books, log[..last], n, i);
      forall k | 0 <= k < last
        ensures Effective(cfg, books, log[..last], k, n, i) <==> Effective(cfg, books, log, k, n, i)
      {
        assert log[..last][..k] == log[..k];
      }
    }
  }

  lemma {:induction false} KnownGrows(cfg: Settings, books: Books, log: seq<Happening>, wallet: Address)
    requires log != []
    ensures var h := log[|log| - 1];
      Known(books, log, wallet) <==> Known(books, log[..|log| - 1], wallet) || (h.Admission? && h.wallet == wallet)
  {
    hide IsRegistered;
    var front := log[..|log| - 1];
    assert forall k :: 0 <= k < |front| ==> front[k] == log[k];
  }

  lemma RegisteredAfter(s: Ledger, joining: Address, round: Round, wallet: Address)
    ensures IsRegistered(Register(s, joining, round).wallets, wallet) <==> IsRegistered(s.wallets, wallet) || wallet == joining
  {
    var after := Register(s, joining, round).wallets;
    assert forall i :: 0 <= i < |s.wallets| ==> after[i] == s.wallets[i];
    if !IsRegistered(s.wallets, joining) {
      assert after[|s.wallets|].wallet == joining;
    }
  }

  // --- Counting -------------------------------------------------------------------------------

  /** A deposit is credited at every effective reading up to the first that records it. */
  function Credits(attempts: seq<bool>): nat {
    if attempts == [] then 0
    else
      var earlier := attempts[..|attempts| - 1];
      Credits(earlier) + if true in earlier then 0 else 1
  }

  /** How often a deposit was credited, and whether it is recorded, after any log. */
  lemma {:induction false} CreditsCount(cfg: Settings, books: Books, log: seq<Happening>, n: nat, i: nat)
    requires DistinctTransactions(cfg) && i < |cfg.events(n)| && cfg.events(n)[i].DepositCompleted?
    requires cfg.events(n)[i].txHash !in books.recorded && cfg.events(n)[i] !in books.credited
    ensures var e := cfg.events(n)[i];
      var after := Replayed(cfg, books, log);
      && (IsRegistered(after.ledger.wallets, e.wallet) <==> Known(books, log, e.wallet))
      && multiset(after.credited)[e] == Credits(Attempts(cfg, books, log, n, i))
      && (e.txHash in after.recorded <==> true in Attempts(cfg, books, log, n, i))
  {
    hide Deliver, Known, IsRegistered, Register;
    var e := cfg.events(n)[i];
    if log == [] {
      assert Known(books, log, e.wallet) <==> IsRegistered(books.ledger.wallets, e.wallet) by { KnownAtFirst(books, e.wallet); }
    } else {
      var k := |log| - 1;
      CreditsCount(cfg, books, log[..k], n, i);
      KnownGrows(cfg, books, log, e.wallet);
      var before := Replayed(cfg, books, log[..k]);
      HappeningCounts(cfg, before, log[k], n, i);
      var earlier, attempts := Attempts(cfg, books, log[..k], n, i), Attempts(cfg, books, log, n, i);
      if Effective(cfg, books, log, k, n, i) {
        assert attempts[..|attempts| - 1] == earlier;
      } else {
        assert attempts == earlier;
      }
    }
  }

  lemma KnownAtFirst(books: Books, wallet: Address)
    ensures Known(books, [], wallet) <==> IsRegistered(books.ledger.wallets, wallet)
  {
  }

  /** One entry of the log credits the deposit at most once, and only by reading its block. */
  lemma {:induction false} HappeningCounts(cfg: Settings, before: Books, h: Happening, n: nat, i: nat)
    requires DistinctTransactions(cfg) && i < |cfg.events(n)| && cfg.events(n)[i].DepositCompleted?
    ensures var e := cfg.events(n)[i];
      var after := Happened(cfg, before, h);
      var effective := IsReadingOf(h, n) && Creditable(before, e) && !h.faults(i).Thrown();
      && (IsRegistered(after.ledger.wallets, e.wallet)
          <==> IsRegistered(before.ledger.wallets, e.wallet) || (h.Admission? && h.wallet == e.wallet))
      && multiset(after.credited)[e] == multiset(before.credited)[e] + (if effective && e.txHash !in before.recorded then 1 else 0)
      && (e.txHash in after.recorded <==> e.txHash in before.recorded || (effective && h.faults(i).NoFault?))
  {
    hide Deliver, IsRegistered, Register;
    var e := cfg.events(n)[i];
    match h {
      case Reading(block, faults) =>
        if block == n {
          ReadingEffect(before, cfg.events(n), faults, i);
        } else {
          OthersLeaveAlone(before, cfg.events(block), faults, e);
        }
      case Admission(wallet, round) =>
        RegisteredAfter(before.ledger, wallet, round, e.wallet);
      case Reboot =>
    }
  }

  lemma {:induction false} CreditedOnceMeans(attempts: seq<bool>)
    requires attempts != []
    ensures Credits(attempts) >= 1
    ensures Credits(attempts) == 1 <==> (|attempts| == 1 || attempts[0])
  {
    var earlier := attempts[..|attempts| - 1];
    if earlier != [] {
      CreditedOnceMeans(earlier);
      assert earlier[0] == attempts[0];
      assert attempts[0] ==> true in earlier;
      hide Credits;
    }
  }

  /**
   * Over every sequence of calls, restarts and admissions, with any halts and failures: a deposit is
   * credited at all if and only if at some reading of its block its wallet was known and nothing was
   * thrown before the credit was committed. It is credited exactly once if and only if there was only
   * one such reading or recording the deposit did not fail at the first.
   */
  lemma {:induction false} CreditedIff(cfg: Settings, books: Books, moves: seq<Move>, n: nat, i: nat)
    requires cfg.Proper() && DistinctTransactions(cfg)
    requires i < |cfg.events(n)| && cfg.events(n)[i].DepositCompleted?
    requires cfg.events(n)[i].txHash !in books.recorded && cfg.events(n)[i] !in books.credited
    ensures Consecutive(cfg, Fresh(books))
    ensures var p := AllMoves(cfg, Fresh(books), moves);
      var attempts := Attempts(cfg, books, p.log, n, i);
      var credits := multiset(p.books.credited)[cfg.events(n)[i]];
      && (credits >= 1 <==> exists k :: 0 <= k < |p.log| && Effective(cfg, books, p.log, k, n, i))
      && (credits == 1 <==> |attempts| == 1 || (attempts != [] && attempts[0]))
      && (n in p.saved ==> WasRead(p, n))
  {
    hide AllMoves, DistinctTransactions, Credits, Attempts, Replayed, Effective, WasRead;
    assert Booked(cfg, books, Fresh(books)) by { NothingRead(cfg, books); }
    MovesBooked(cfg, books, Fresh(books), moves);
    var p := AllMoves(cfg, Fresh(books), moves);
    var attempts := Attempts(cfg, books, p.log, n, i);
    CreditsCount(cfg, books, p.log, n, i);
    AttemptedIff(cfg, books, p.log, n, i);
    if attempts != [] {
      CreditedOnceMeans(attempts);
    } else {
      NoCredits();
    }
  }

  lemma NoCredits()
    ensures Credits([]) == 0
  {
  }

  lemma NothingRead(cfg: Settings, books: Books)
    ensures Booked(cfg, books, Fresh(books))
  {
  }

  // --- Saved blocks are not read again --------------------------------------------------------

  lemma {:induction false} BlocksReadLater(cfg: Settings, p: Progress, n: nat, upTo: nat, env: Environment, m: nat)
    requires cfg.Proper() && cfg.creation <= n && m < n
    ensures var after := Blocks(cfg, p, n, upTo, env);
      p.log <= after.log && forall k :: |p.log| <= k < |after.log| ==> !IsReadingOf(after.log[k], m)
    decreases upTo + 1 - n
  {
    hide RoundOf, QuarterOf, Deliver;
    if n <= upTo && !env.halted(n) {
      var done := OneBlock(cfg, p, n, env);
      assert done.progress.log == p.log || done.progress.log == p.log + [Reading(n, env.faults(n))];
      if done.ok {
        BlocksReadLater(cfg, done.progress, n + 1, upTo, env, m);
      }
    }
  }

  lemma {:induction false} SavedUpToLast(cfg: Settings, p: Progress, k: nat)
    requires Consecutive(cfg, p) && k < |p.saved|
    ensures p.saved[k] <= p.last
    decreases |p.saved| - k
  {
    if k + 1 < |p.saved| {
      SavedUpToLast(cfg, p, k + 1);
    }
  }

  lemma {:induction false} MoveReadsLater(cfg: Settings, p: Progress, move: Move, m: nat)
    requires cfg.Proper() && Consecutive(cfg, p) && m in p.saved
    ensures var after := Made(cfg, p, move);
      p.log <= after.log && forall k :: |p.log| <= k < |after.log| ==> !IsReadingOf(after.log[k], m)
  {
    hide Consecutive, Blocks, RoundOf, AtRoundStart;
    var k :| 0 <= k < |p.saved| && p.saved[k] == m;
    SavedUpToLast(cfg, p, k);
    if move.Call? {
      CallConsecutive(cfg, p, move.upTo, move.env);
      if move.upTo > p.last {
        BlocksReadLater(cfg, p, p.last + 1, move.upTo, move.env, m);
      }
    }
  }

  lemma {:induction false} MovesReadLater(cfg: Settings, p: Progress, moves: seq<Move>, m: nat)
    requires cfg.Proper() && Consecutive(cfg, p) && m in p.saved
    ensures var after := AllMoves(cfg, p, moves);
      p.log <= after.log && forall k :: |p.log| <= k < |after.log| ==> !IsReadingOf(after.log[k], m)
    decreases |moves|
  {
    hide Consecutive, Made;
    if moves != [] {
      MoveConsecutive(cfg, p, moves[0]);
      MoveReadsLater(cfg, p, moves[0], m);
      var next := Made(cfg, p, moves[0]);
      assert m in next.saved;
      MovesReadLater(cfg, next, moves[1..], m);
      var after := AllMoves(cfg, p, moves);
      assert forall k :: |p.log| <= k < |next.log| ==> after.log[k] == next.log[k];
    }
  }

  lemma {:induction false} SameAttempts(cfg: Settings, books: Books, log: seq<Happening>, more: seq<Happening>, n: nat, i: nat)
    requires i < |cfg.events(n)| && cfg.events(n)[i].DepositCompleted?
    requires log <= more && forall k :: |log| <= k < |more| ==> !IsReadingOf(more[k], n)
    ensures Attempts(cfg, books, more, n, i) == Attempts(cfg, books, log, n, i)
    decreases |more|
  {
    hide Known;
    if |more| > |log| {
      var front := more[..|more| - 1];
      SameAttempts(cfg, books, log, front, n, i);
    } else {
      assert more == log;
    }
  }

  /**
   * Once its block is saved, it is settled how often a deposit is credited: no later call, restart or
   * admission changes it. A deposit that was lost stays lost.
   */
  lemma {:induction false} CreditsAreFinal(cfg: Settings, books: Books, moves: seq<Move>, later: seq<Move>, n: nat, i: nat)
    requires cfg.Proper() && DistinctTransactions(cfg)
    requires i < |cfg.events(n)| && cfg.events(n)[i].DepositCompleted?
    requires cfg.events(n)[i].txHash !in books.recorded && cfg.events(n)[i] !in books.credited
    ensures Consecutive(cfg, Fresh(books)) && Consecutive(cfg, AllMoves(cfg, Fresh(books), moves))
    ensures var p := AllMoves(cfg, Fresh(books), moves);
      n in p.saved ==>
        multiset(AllMoves(cfg, p, later).books.credited)[cfg.events(n)[i]] == multiset(p.books.credited)[cfg.events(n)[i]]
  {
    hide AllMoves, DistinctTransactions, Credits, Attempts, Replayed, Effective, IsReadingOf, WasRead;
    assert Booked(cfg, books, Fresh(books)) by { NothingRead(cfg, books); }
    MovesBooked(cfg, books, Fresh(books), moves);
    SavedConsecutively(cfg, Fresh(books), moves);
    var p := AllMoves(cfg, Fresh(books), moves);
    if n in p.saved {
      MovesBooked(cfg, books, p, later);
      MovesReadLater(cfg, p, later, n);
      var q := AllMoves(cfg, p, later);
      CreditsCount(cfg, books, p.log, n, i);
      CreditsCount(cfg, books, q.log, n, i);
      SameAttempts(cfg, books, p.log, q.log, n, i);
    }
  }

  // --- A lost deposit -------------------------------------------------------------------------

  const EARLY := DepositCompleted(0, "OAX", "alice", 10.0, "tx")

  /** Alice deposits in block 2, and no other block has an event. */
  const CHAIN := Settings(1, 100, (n: nat) => if n == 2 then [EARLY] else [])

  const NEW_BOOKS := Books(Start({"OAX"}, "operator"), {}, [], [])

  function BeforeAdmission(): Progress {
    Blocks(CHAIN, Fresh(NEW_BOOKS), 2, 2, QUIET)
  }

  lemma EarlyIsDropped()
    ensures Deliver(NEW_BOOKS, [EARLY], NEVER) == NEW_BOOKS
    ensures !IsRegistered(NEW_BOOKS.ledger.wallets, "alice")
  {
    OneEvent(NEW_BOOKS, EARLY, NEVER);
    assert "alice" != "operator";
  }

  lemma {:induction false} BlockTwoSaved()
    ensures BeforeAdmission() == Fresh(NEW_BOOKS).(last := 2, saved := [2], log := [Reading(2, NEVER)])
  {
    hide Deliver;
    EarlyIsDropped();
    assert CHAIN.events(2) == [EARLY];
    assert RoundOf(CHAIN, 2) == 0 && QuarterOf(CHAIN, 2) == 0;
    OneMoreBlock(CHAIN, Fresh(NEW_BOOKS), 2, 2, QUIET);
    NoMoreBlocks(CHAIN, OneBlock(CHAIN, Fresh(NEW_BOOKS), 2, QUIET).progress, 3, 2, QUIET);
    assert [] + [2] == [2] && [] + [Reading(2, NEVER)] == [Reading(2, NEVER)];
  }

  lemma {:induction false} OneTransaction()
    ensures DistinctTransactions(CHAIN)
  {
    assert forall n: nat :: CHAIN.events(n) == if n == 2 then [EARLY] else [];
  }

  /**
   * Alice's deposit is read before she joins: the handler's error is logged and the block is saved. She is
   * admitted afterwards, and no later run credits the deposit.
   */
  lemma {:induction false} EarlyDepositIsLost(later: seq<Move>)
    ensures Consecutive(CHAIN, BeforeAdmission())
    ensures var p := Admitted(BeforeAdmission(), "alice");
      && Consecutive(CHAIN, p) && 2 in p.saved && IsRegistered(p.books.ledger.wallets, "alice")
      && EARLY !in AllMoves(CHAIN, p, later).books.credited
  {
    hide AllMoves, Replayed, Attempts, Credits, Known, DistinctTransactions, IsRegistered, Deliver;
    BlockTwoSaved();
    EarlyIsDropped();
    OneTransaction();
    var p := Admitted(BeforeAdmission(), "alice");
    RegisteredAfter(NEW_BOOKS.ledger, "alice", 0, "alice");
    assert p.log == [Reading(2, NEVER), Admission("alice", 0)];
    EarlyLog(p.log);
    MovesReadLater(CHAIN, p, later, 2);
    var q := AllMoves(CHAIN, p, later);
    assert Booked(CHAIN, NEW_BOOKS, p) by { EarlyBooked(p); }
    MovesBooked(CHAIN, NEW_BOOKS, p, later);
    SameAttempts(CHAIN, NEW_BOOKS, p.log, q.log, 2, 0);
    CreditsCount(CHAIN, NEW_BOOKS, q.log, 2, 0);
    NoCredits();
    assert multiset(q.books.credited)[EARLY] == 0;
  }

  lemma {:induction false} EarlyLog(log: seq<Happening>)
    requires log == [Reading(2, NEVER), Admission("alice", 0)]
    ensures Attempts(CHAIN, NEW_BOOKS, log, 2, 0) == []
  {
    hide IsRegistered;
    EarlyIsDropped();
    AttemptedIff(CHAIN, NEW_BOOKS, log, 2, 0);
    assert log[..0] == [];
    assert !Effective(CHAIN, NEW_BOOKS, log, 0, 2, 0) && !Effective(CHAIN, NEW_BOOKS, log, 1, 2, 0);
  }

  lemma {:induction false} EarlyBooked(p: Progress)
    requires p.log == [Reading(2, NEVER), Admission("alice", 0)] && p.saved == [2]
    requires p.books == Joined(NEW_BOOKS, "alice", 0)
    ensures Booked(CHAIN, NEW_BOOKS, p)
  {
    hide Deliver, IsRegistered, Register;
    EarlyIsDropped();
    var first := [Reading(2, NEVER)];
    assert p.log[..1] == first && first[..0] == [];
    assert Replayed(CHAIN, NEW_BOOKS, first) == NEW_BOOKS;
    assert IsReadingOf(p.log[0], 2);
  }
}
