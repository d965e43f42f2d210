// When the round that the operator believes in is the round of its last block, and what an admission in a
// wrong one does (src/server/operator/Operator.ts, onNewQuarter and admit).
module OperatorRounds {
  import opened BasicTypes
  import opened Ledgers
  import opened LedgerBalances
  import opened Solvency
  import opened ChainEvents
  import opened BlockProcessing
  import opened RoundCommits

  /** Round and quarter are those of block `n`. */
  predicate InRound(cfg: Settings, p: Progress, n: nat)
    requires cfg.Proper() && n >= cfg.creation
  {
    p.round == RoundOf(cfg, n) && p.quarter == QuarterOf(cfg, n)
  }

  /** Round and quarter are those of the last block or of the one being attempted, or still zero after a restart. */
  predicate Clock(cfg: Settings, p: Progress) {
    && cfg.roundSize >= 2 && cfg.creation > 0 && NextOf(cfg, p) > cfg.creation
    && (InRound(cfg, p, NextOf(cfg, p) - 1) || InRound(cfg, p, NextOf(cfg, p)) || (p.round == 0 && p.quarter == 0))
  }

  lemma {:induction false} AttemptKeepsClock(cfg: Settings, p: Progress, env: Environment)
    requires Clock(cfg, p)
    ensures var n := NextOf(cfg, p);
      var done := OneBlock(cfg, p, n, env);
      && Clock(cfg, done.progress)
      && done.progress.last == (if done.ok then n else p.last)
  {
    hide RoundOf, QuarterOf, Deliver;
    RoundStart(cfg, NextOf(cfg, p) - 1);
  }

  lemma {:induction false} BlocksKeepClock(cfg: Settings, p: Progress, upTo: nat, env: Environment)
    requires Clock(cfg, p)
    ensures Clock(cfg, Blocks(cfg, p, NextOf(cfg, p), upTo, env))
    decreases upTo + 1 - NextOf(cfg, p)
  {
    hide InRound, OneBlock;
    var n: nat := NextOf(cfg, p);
    if n <= upTo && !env.halted(n) {
      AttemptKeepsClock(cfg, p, env);
      var done := OneBlock(cfg, p, n, env);
      if done.ok {
        BlocksKeepClock(cfg, done.progress, upTo, env);
      }
    }
  }

  lemma {:induction false} MovesKeepClock(cfg: Settings, p: Progress, moves: seq<Move>)
    requires Clock(cfg, p) && Consecutive(cfg, p)
    ensures Clock(cfg, AllMoves(cfg, p, moves))
    decreases |moves|
  {
    hide RoundOf, QuarterOf, Blocks, AtRoundStart, Consecutive;
    if moves != [] {
      MoveConsecutive(cfg, p, moves[0]);
      if moves[0].Call? {
        BlocksKeepClock(cfg, p, moves[0].upTo, moves[0].env);
      }
      MovesKeepClock(cfg, Made(cfg, p, moves[0]), moves[1..]);
    }
  }

  /**
   * Over every sequence of calls, restarts and admissions, with any halts and failures: the operator's
   * round is that of its last block or of the block being attempted if and only if it is not zero or
   * the last block is of round zero.
   */
  lemma {:induction false} RoundIsCurrentIff(cfg: Settings, books: Books, moves: seq<Move>)
    requires cfg.roundSize >= 2 && cfg.creation > 0
    ensures Consecutive(cfg, Fresh(books))
    ensures var p := AllMoves(cfg, Fresh(books), moves);
      && NextOf(cfg, p) > cfg.creation
      && var n := NextOf(cfg, p) - 1;
         p.round == RoundOf(cfg, n) || p.round == RoundOf(cfg, n + 1) <==> p.round != 0 || RoundOf(cfg, n) == 0
  {
    hide AllMoves, RoundOf, QuarterOf;
    MovesKeepClock(cfg, Fresh(books), moves);
    var p := AllMoves(cfg, Fresh(books), moves);
    RoundOfMonotone(cfg, NextOf(cfg, p) - 1, NextOf(cfg, p));
  }

  // --- After a restart ------------------------------------------------------------------------

  /** Since a restart before block `first`, no new quarter has begun. */
  predicate Stale(cfg: Settings, p: Progress, first: nat)
    requires cfg.Proper() && cfg.creation <= first <= NextOf(cfg, p)
  {
    p.round == 0 && p.quarter == 0
    && (NextOf(cfg, p) > first ==>
          QuarterOf(cfg, NextOf(cfg, p) - 1) == 0 && RoundOf(cfg, NextOf(cfg, p) - 1) == RoundOf(cfg, first))
  }

  /** Since then a new quarter has begun, and round and quarter are those of the last block. */
  predicate Caught(cfg: Settings, p: Progress, first: nat)
    requires cfg.Proper() && cfg.creation <= first < NextOf(cfg, p)
  {
    var n := NextOf(cfg, p) - 1;
    InRound(cfg, p, n) && (QuarterOf(cfg, n) != 0 || RoundOf(cfg, n) > RoundOf(cfg, first))
  }

  ghost predicate SinceRestart(cfg: Settings, p: Progress, first: nat) {
    && cfg.roundSize >= 2 && 0 < cfg.creation < first <= NextOf(cfg, p)
    && (Stale(cfg, p, first) || (first < NextOf(cfg, p) && Caught(cfg, p, first)))
  }

  lemma {:induction false} AttemptSinceRestart(cfg: Settings, p: Progress, first: nat, env: Environment)
    requires SinceRestart(cfg, p, first) && env.mishap(NextOf(cfg, p)).NoMishap?
    ensures var n := NextOf(cfg, p);
      var done := OneBlock(cfg, p, n, env);
      done.ok && done.progress.last == n && SinceRestart(cfg, done.progress, first)
  {
    hide RoundOf, QuarterOf, Deliver;
    var n := NextOf(cfg, p);
    RoundStart(cfg, n - 1);
    if first < n {
      RoundOfMonotone(cfg, first, n - 1);
    }
  }

  lemma {:induction false} BlocksSinceRestart(cfg: Settings, p: Progress, first: nat, upTo: nat, env: Environment)
    requires SinceRestart(cfg, p, first) && Calm(env)
    ensures SinceRestart(cfg, Blocks(cfg, p, NextOf(cfg, p), upTo, env), first)
    decreases upTo + 1 - NextOf(cfg, p)
  {
    hide Stale, Caught, OneBlock;
    var n: nat := NextOf(cfg, p);
    if n <= upTo && !env.halted(n) {
      AttemptSinceRestart(cfg, p, first, env);
      BlocksSinceRestart(cfg, OneBlock(cfg, p, n, env).progress, first, upTo, env);
    }
  }

  lemma SinceRestartIsProper(cfg: Settings, p: Progress, first: nat)
    requires SinceRestart(cfg, p, first)
    ensures cfg.Proper()
  {
  }

  lemma {:induction false} MoveSinceRestart(cfg: Settings, p: Progress, first: nat, move: Move)
    requires SinceRestart(cfg, p, first) && Consecutive(cfg, p) && !move.Restart? && (move.Call? ==> Calm(move.env))
    ensures SinceRestart(cfg, Made(cfg, p, move), first)
  {
    hide RoundOf, QuarterOf, Blocks, Consecutive, Calm;
    match move {
      case Call(upTo, env) => BlocksSinceRestart(cfg, p, first, upTo, env);
      case Admit(wallet) =>
        var after := Admitted(p, wallet);
        assert NextOf(cfg, after) == NextOf(cfg, p);
        assert Stale(cfg, p, first) ==> Stale(cfg, after, first);
    }
  }

  lemma {:induction false} MovesSinceRestart(cfg: Settings, p: Progress, first: nat, moves: seq<Move>)
    requires SinceRestart(cfg, p, first) && Consecutive(cfg, p) && FailureFree(moves)
    ensures SinceRestart(cfg, AllMoves(cfg, p, moves), first)
    decreases |moves|
  {
    hide SinceRestart, Consecutive, Calm, Made;
    if moves != [] {
      SinceRestartIsProper(cfg, p, first);
      MoveConsecutive(cfg, p, moves[0]);
      MoveSinceRestart(cfg, p, first, moves[0]);
      MovesSinceRestart(cfg, Made(cfg, p, moves[0]), first, moves[1..]);
    }
  }

  /**
   * After a restart, in every failure-free run that saves further blocks: the operator's round is that
   * of its last block if and only if that block is of round zero, past its round's first quarter, or of
   * a later round than the first block after the restart.
   */
  lemma {:induction false} RoundAfterRestartIff(cfg: Settings, p: Progress, moves: seq<Move>)
    requires cfg.roundSize >= 2 && cfg.creation > 0 && Consecutive(cfg, p) && FailureFree(moves)
    requires NextOf(cfg, p) > cfg.creation
    ensures Consecutive(cfg, Restarted(cfg, p))
    ensures var first := NextOf(cfg, p);
      var after := AllMoves(cfg, Restarted(cfg, p), moves);
      after.last >= first ==>
        var n := after.last;
        after.round == RoundOf(cfg, n)
        <==> RoundOf(cfg, n) == 0 || QuarterOf(cfg, n) != 0 || RoundOf(cfg, n) > RoundOf(cfg, first)
  {
    hide AllMoves, RoundOf, QuarterOf;
    var first := NextOf(cfg, p);
    MoveConsecutive(cfg, p, Restart);
    MovesSinceRestart(cfg, Restarted(cfg, p), first, moves);
  }

  // --- Admissions -----------------------------------------------------------------------------

  lemma JoinedBeforeAfter(s: Ledger, wallet: Address, joined: Round, round: Round)
    requires !IsRegistered(s.wallets, wallet)
    ensures JoinedBefore(Register(s, wallet, joined).wallets, round)
            == JoinedBefore(s.wallets, round) + if joined < round then [wallet] else []
  {
    var after := Register(s, wallet, joined).wallets;
    assert after[..|after| - 1] == s.wallets;
  }

  /**
   * A client admitted by the operator leaves the solvency trees of the last block's round as they were
   * if and only if it was known before or the operator's round is not behind that block's.
   */
  lemma {:induction false} AdmissionKeepsTreeIff(cfg: Settings, p: Progress, wallet: Address, asset: Address)
    requires cfg.Proper() && p.last >= cfg.creation
    ensures var round := RoundOf(cfg, p.last);
      SolvencyEntries(Admitted(p, wallet).books.ledger, asset, round) == SolvencyEntries(p.books.ledger, asset, round)
      <==> IsRegistered(p.books.ledger.wallets, wallet) || p.round >= round
  {
    hide RoundOf, IsRegistered, Opening;
    var s := p.books.ledger;
    if !IsRegistered(s.wallets, wallet) {
      JoinedBeforeAfter(s, wallet, p.round, RoundOf(cfg, p.last));
      assert |SolvencyEntries(s, asset, RoundOf(cfg, p.last))| == |JoinedBefore(s.wallets, RoundOf(cfg, p.last))|;
    }
  }

  /** Whatever was remembered before, right or wrong, after a restart every balance is read as the full sum again. */
  lemma {:induction false} RestartForgetsBalances(cfg: Settings, p: Progress, asset: Address, wallet: Address, round: Round)
    requires cfg.Proper()
    ensures var ledger := Restarted(cfg, p).books.ledger;
      && ledger == p.books.ledger.(cache := ledger.cache) && CacheExact(ledger.accounts, ledger.cache)
      && ReadBalance(ledger, asset, wallet, round).1 == Available(p.books.ledger.accounts, asset, wallet, round)
  {
    hide Available, PositionOf, RoundOf;
  }
}
