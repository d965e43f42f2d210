// Which rounds the operator commits, over every sequence of calls and restarts with any halts and
// failures (src/server/operator/Operator.ts).
module RoundCommits {
  import opened ChainEvents
  import opened BlockProcessing

  ghost predicate Increasing(s: seq<nat>) {
    forall i :: 0 < i < |s| ==> s[i - 1] < s[i]
  }

  /** Every round from 1 to `r` was either committed once or passed over once, in order. */
  ghost predicate Accounted(p: Progress, r: nat) {
    && Increasing(p.commits) && Increasing(p.lost)
    && (forall k: nat :: k in p.commits || k in p.lost <==> 1 <= k <= r)
    && (forall k: nat :: !(k in p.commits && k in p.lost))
  }

  /** Quarter and rounds are those of block `n`: the last saved one, or the one that was just attempted. */
  ghost predicate InStep(cfg: Settings, p: Progress, n: nat)
    requires cfg.Proper() && n >= cfg.creation
  {
    p.quarter == QuarterOf(cfg, n) && Accounted(p, RoundOf(cfg, n))
  }

  /** After a restart inside a round, past its first quarter. */
  ghost predicate Rewound(cfg: Settings, p: Progress, n: nat)
    requires cfg.Proper() && n > cfg.creation
  {
    p.quarter == 0 && QuarterOf(cfg, n) != 0 && RoundOf(cfg, n) == RoundOf(cfg, n - 1) && Accounted(p, RoundOf(cfg, n))
  }

  ghost predicate OnTrack(cfg: Settings, p: Progress) {
    && cfg.roundSize >= 2 && cfg.creation > 0
    && NextOf(cfg, p) > cfg.creation
    && (InStep(cfg, p, NextOf(cfg, p) - 1) || InStep(cfg, p, NextOf(cfg, p)) || Rewound(cfg, p, NextOf(cfg, p)))
  }

  /** Quarter and rounds are those of the last saved block. */
  ghost predicate Punctual(cfg: Settings, p: Progress) {
    cfg.Proper() && NextOf(cfg, p) > cfg.creation && InStep(cfg, p, NextOf(cfg, p) - 1)
  }

  ghost predicate FailureFree(moves: seq<Move>) {
    forall i :: 0 <= i < |moves| ==> !moves[i].Restart? && (moves[i].Call? ==> Calm(moves[i].env))
  }

  ghost predicate Calm(env: Environment) {
    forall n :: env.mishap(n).NoMishap?
  }

  lemma AccountedOneMore(p: Progress, after: Progress, r: nat)
    requires Accounted(p, r)
    requires
      || (after.commits == p.commits + [r + 1] && after.lost == p.lost)
      || (after.lost == p.lost + [r + 1] && after.commits == p.commits)
    ensures Accounted(after, r + 1)
  {
    hide Increasing;
    if after.lost == p.lost {
      GrowsIncreasing(p.commits, r + 1);
    } else {
      GrowsIncreasing(p.lost, r + 1);
    }
  }

  lemma GrowsIncreasing(s: seq<nat>, x: nat)
    requires Increasing(s) && forall k :: k in s ==> k < x
    ensures Increasing(s + [x]) && forall k :: k in s + [x] <==> k in s || k == x
  {
    if s != [] {
      assert s[|s| - 1] in s;
    }
  }

  lemma AccountedAgrees(p: Progress, after: Progress, r: nat)
    requires p.commits == after.commits && p.lost == after.lost
    ensures Accounted(p, r) <==> Accounted(after, r)
  {
  }

  // --- One step -------------------------------------------------------------------------------

  /** One attempt at the next block, whatever happens. */
  lemma {:induction false} AttemptKeepsTrack(cfg: Settings, p: Progress, env: Environment)
    requires OnTrack(cfg, p)
    ensures var n := NextOf(cfg, p);
      var done := OneBlock(cfg, p, n, env);
      && OnTrack(cfg, done.progress)
      && (done.ok ==> InStep(cfg, done.progress, n) && done.progress.last == n)
      && (!done.ok ==> done.progress.last == p.last)
      && (env.mishap(n).NoMishap? ==> done.ok && done.progress.lost == p.lost)
  {
    hide RoundOf, QuarterOf, Accounted, Deliver;
    var n: nat := NextOf(cfg, p);
    var mishap := env.mishap(n);
    var read := ReadEvents(cfg, p, n, env.faults(n));
    var done := ProcessSingleBlock(cfg, p, n, env.faults(n), RoundOf(cfg, n), QuarterOf(cfg, n), mishap);
    var end := OneBlock(cfg, p, n, env).progress;
    RoundStart(cfg, n - 1);
    AccountedAgrees(p, read, RoundOf(cfg, n - 1));
    AccountedAgrees(p, read, RoundOf(cfg, n));
    if !mishap.ReadingFails? {
      if QuarterOf(cfg, n) != p.quarter && QuarterOf(cfg, n) == 0 {
        AccountedOneMore(read, done.progress, RoundOf(cfg, n - 1));
      } else {
        AccountedAgrees(read, done.progress, RoundOf(cfg, n));
      }
      assert InStep(cfg, done.progress, n);
    }
    AccountedAgrees(done.progress, end, RoundOf(cfg, n));
    AccountedAgrees(done.progress, end, RoundOf(cfg, n - 1));
  }

  lemma {:induction false} RestartKeepsTrack(cfg: Settings, p: Progress)
    requires OnTrack(cfg, p)
    ensures OnTrack(cfg, Restarted(cfg, p))
  {
    hide RoundOf, PositionOf, QuarterAt, Accounted;
    var n: nat := NextOf(cfg, p);
    var after := Restarted(cfg, p);
    RoundStart(cfg, n - 1);
    FirstAndLastQuarter(cfg.roundSize);
    if AtRoundStart(cfg, p) {
      AccountedOneMore(p, after, RoundOf(cfg, n - 1));
    } else {
      AccountedAgrees(p, after, RoundOf(cfg, n - 1));
      AccountedAgrees(p, after, RoundOf(cfg, n));
    }
  }

  lemma {:induction false} BlocksKeepTrack(cfg: Settings, p: Progress, upTo: nat, env: Environment)
    requires OnTrack(cfg, p)
    ensures var after := Blocks(cfg, p, NextOf(cfg, p), upTo, env);
      && OnTrack(cfg, after)
      && (Calm(env) ==> after.lost == p.lost && (Punctual(cfg, p) ==> Punctual(cfg, after)))
    decreases upTo + 1 - NextOf(cfg, p)
  {
    hide InStep, Rewound, OneBlock;
    var n: nat := NextOf(cfg, p);
    if n <= upTo && !env.halted(n) {
      AttemptKeepsTrack(cfg, p, env);
      var done := OneBlock(cfg, p, n, env);
      if done.ok {
        BlocksKeepTrack(cfg, done.progress, upTo, env);
      }
    }
  }

  lemma {:induction false} MoveKeepsTrack(cfg: Settings, p: Progress, move: Move)
    requires OnTrack(cfg, p) && Consecutive(cfg, p)
    ensures var after := Made(cfg, p, move);
      && OnTrack(cfg, after)
      && (!move.Restart? && (move.Call? ==> Calm(move.env)) ==> after.lost == p.lost && (Punctual(cfg, p) ==> Punctual(cfg, after)))
  {
    hide InStep, Rewound, Blocks, Restarted, Calm;
    match move {
      case Call(upTo, env) => BlocksKeepTrack(cfg, p, upTo, env);
      case Restart => RestartKeepsTrack(cfg, p);
      case Admit(wallet) => SameTrack(cfg, p, Admitted(p, wallet));
    }
  }

  lemma SameTrack(cfg: Settings, p: Progress, q: Progress)
    requires OnTrack(cfg, p)
    requires q.quarter == p.quarter && q.last == p.last && q.commits == p.commits && q.lost == p.lost
    ensures OnTrack(cfg, q) && (Punctual(cfg, p) ==> Punctual(cfg, q))
  {
    hide RoundOf, QuarterOf, Accounted;
    AccountedAgrees(p, q, RoundOf(cfg, NextOf(cfg, p) - 1));
    AccountedAgrees(p, q, RoundOf(cfg, NextOf(cfg, p)));
  }

  lemma OnTrackIsProper(cfg: Settings, p: Progress)
    requires OnTrack(cfg, p)
    ensures cfg.Proper()
  {
  }

  // --- Whole runs -----------------------------------------------------------------------------

  lemma {:induction false} MovesKeepTrack(cfg: Settings, p: Progress, moves: seq<Move>)
    requires OnTrack(cfg, p) && Consecutive(cfg, p)
    ensures var after := AllMoves(cfg, p, moves);
      && OnTrack(cfg, after)
      && (FailureFree(moves) ==> after.lost == p.lost && (Punctual(cfg, p) ==> Punctual(cfg, after)))
    decreases |moves|
  {
    hide OnTrack, Made, Consecutive, Punctual, Calm;
    if moves != [] {
      OnTrackIsProper(cfg, p);
      MoveConsecutive(cfg, p, moves[0]);
      MoveKeepsTrack(cfg, p, moves[0]);
      MovesKeepTrack(cfg, Made(cfg, p, moves[0]), moves[1..]);
    }
  }

  lemma FreshIsOnTrack(cfg: Settings, books: Books)
    requires cfg.roundSize >= 2 && cfg.creation > 0
    ensures OnTrack(cfg, Fresh(books)) && Punctual(cfg, Fresh(books)) && Consecutive(cfg, Fresh(books))
  {
    assert RoundOf(cfg, cfg.creation) == 0 && QuarterOf(cfg, cfg.creation) == 0;
  }

  /** Each round that the operator reached was committed exactly once or passed over exactly once, in order. */
  ghost predicate EachRoundOnce(cfg: Settings, p: Progress)
    requires cfg.Proper()
  {
    NextOf(cfg, p) > cfg.creation
    && (Accounted(p, RoundOf(cfg, NextOf(cfg, p) - 1)) || Accounted(p, RoundOf(cfg, NextOf(cfg, p))))
  }

  lemma {:induction false} EveryRoundOnce(cfg: Settings, books: Books, moves: seq<Move>)
    requires cfg.roundSize >= 2 && cfg.creation > 0
    ensures Consecutive(cfg, Fresh(books)) && EachRoundOnce(cfg, AllMoves(cfg, Fresh(books), moves))
  {
    hide AllMoves, Accounted;
    FreshIsOnTrack(cfg, books);
    MovesKeepTrack(cfg, Fresh(books), moves);
  }

  /**
   * With rounds of one block the quarter never changes, and from creation block zero the first call
   * starts at whatever block it names: even an undisturbed call can enter round one without a commit.
   */
  lemma FirstRoundGoesUncommitted(cfg: Settings, books: Books)
    requires cfg.Proper() && (cfg.roundSize == 1 || cfg.creation == 0)
    ensures Consecutive(cfg, Fresh(books))
    ensures var after := AllMoves(cfg, Fresh(books), [Call(cfg.creation + cfg.roundSize, QUIET)]);
      after.last == cfg.creation + cfg.roundSize && RoundOf(cfg, after.last) == 1 && after.commits == [] == after.lost
  {
    hide Deliver;
    var n := cfg.creation + cfg.roundSize;
    var moves := [Call(n, QUIET)];
    assert RoundOf(cfg, n) == 1 && QuarterOf(cfg, n) == 0;
    NoMoreBlocks(cfg, OneBlock(cfg, Fresh(books), n, QUIET).progress, n + 1, n, QUIET);
    OneMoreBlock(cfg, Fresh(books), n, n, QUIET);
    hide Blocks;
    CallConsecutive(cfg, Fresh(books), n, QUIET);
    assert moves[1..] == [];
    assert AllMoves(cfg, Fresh(books), moves) == ProcessBlocksUpTo(cfg, Fresh(books), n, QUIET);
  }

  /**
   * Over every sequence of calls and restarts, with any halts and failures: each round up to that of
   * the last saved block, or of the block being attempted, was committed exactly once or passed over
   * exactly once, both in increasing order, and never both; if and only if a round has at least two
   * blocks and the mediator was not created in block zero.
   */
  lemma {:induction false} EveryRoundOnceIff(cfg: Settings, books: Books)
    requires cfg.Proper()
    ensures Consecutive(cfg, Fresh(books))
    ensures (forall moves :: EachRoundOnce(cfg, AllMoves(cfg, Fresh(books), moves)))
            <==> cfg.roundSize >= 2 && cfg.creation > 0
  {
    hide AllMoves, RoundOf;
    if cfg.roundSize >= 2 && cfg.creation > 0 {
      forall moves
        ensures EachRoundOnce(cfg, AllMoves(cfg, Fresh(books), moves))
      {
        EveryRoundOnce(cfg, books, moves);
      }
    } else {
      FirstRoundGoesUncommitted(cfg, books);
      var moves := [Call(cfg.creation + cfg.roundSize, QUIET)];
      var after := AllMoves(cfg, Fresh(books), moves);
      RoundOfMonotone(cfg, after.last, after.last + 1);
      assert 1 !in after.commits && 1 !in after.lost;
      assert !EachRoundOnce(cfg, after);
    }
  }

  function FirstRounds(r: nat): (s: seq<nat>)
    ensures |s| == r && forall i :: 0 <= i < r ==> s[i] == i + 1
  {
    seq(r, i => i + 1)
  }

  /** An increasing list of exactly the numbers 1 to `r`. */
  lemma {:induction false} IncreasingIsFirstRounds(s: seq<nat>, r: nat)
    requires Increasing(s)
    requires forall k: nat :: k in s <==> 1 <= k <= r
    ensures s == FirstRounds(r)
    decreases |s|
  {
    if s == [] {
      assert r in s <==> 1 <= r;
    } else {
      var last := s[|s| - 1];
      assert last in s;
      assert r in s;
      var i :| 0 <= i < |s| && s[i] == r;
      AtMostLast(s, i);
      var front := s[..|s| - 1];
      assert s == front + [r];
      forall j | 0 <= j < |front|
        ensures front[j] < r
      {
        IncreasingApart(s, j, |s| - 1);
      }
      assert forall k: nat :: k in s <==> k in front || k == r;
      IncreasingIsFirstRounds(front, r - 1);
    }
  }

  lemma {:induction false} AtMostLast(s: seq<nat>, i: nat)
    requires i < |s| && Increasing(s)
    ensures s[i] <= s[|s| - 1]
  {
    if i < |s| - 1 {
      IncreasingApart(s, i, |s| - 1);
    }
  }

  lemma {:induction false} IncreasingApart(s: seq<nat>, i: nat, j: nat)
    requires i < j < |s| && Increasing(s)
    ensures s[i] < s[j]
  {
    if i + 1 < j {
      IncreasingApart(s, i, j - 1);
    }
  }

  /** Without failures and restarts, though with any halts, exactly the rounds 1, 2, 3, ... are committed, in order. */
  lemma {:induction false} FailureFreeCommitsInOrder(cfg: Settings, books: Books, moves: seq<Move>)
    requires cfg.roundSize >= 2 && cfg.creation > 0 && FailureFree(moves)
    ensures Consecutive(cfg, Fresh(books))
    ensures var after := AllMoves(cfg, Fresh(books), moves);
      if after.last < 0 then after.commits == []
      else after.last > cfg.creation && after.commits == FirstRounds(RoundOf(cfg, after.last))
  {
    hide AllMoves, RoundOf, QuarterOf;
    FreshIsOnTrack(cfg, books);
    MovesKeepTrack(cfg, Fresh(books), moves);
    SavedConsecutively(cfg, Fresh(books), moves);
    var after := AllMoves(cfg, Fresh(books), moves);
    var n := NextOf(cfg, after) - 1;
    assert Accounted(after, RoundOf(cfg, n)) && after.lost == [];
    IncreasingIsFirstRounds(after.commits, RoundOf(cfg, n));
    if after.last < 0 {
      CreationIsRoundZero(cfg);
    }
  }

  lemma CreationIsRoundZero(cfg: Settings)
    requires cfg.Proper()
    ensures RoundOf(cfg, cfg.creation) == 0 && QuarterOf(cfg, cfg.creation) == 0
  {
  }

  /**
   * Every failure-free run commits every round it reaches, exactly when a round has at least two blocks
   * and the mediator was not created in block zero.
   */
  lemma {:induction false} CommitsEveryRoundIff(cfg: Settings, books: Books)
    requires cfg.Proper()
    ensures Consecutive(cfg, Fresh(books))
    ensures (forall moves :: FailureFree(moves) ==>
               var after := AllMoves(cfg, Fresh(books), moves);
               after.last > cfg.creation ==> after.commits == FirstRounds(RoundOf(cfg, after.last)))
            <==> cfg.roundSize >= 2 && cfg.creation > 0
  {
    hide AllMoves, RoundOf, FirstRounds;
    if cfg.roundSize >= 2 && cfg.creation > 0 {
      forall moves | FailureFree(moves)
        ensures var after := AllMoves(cfg, Fresh(books), moves);
          after.last > cfg.creation ==> after.commits == FirstRounds(RoundOf(cfg, after.last))
      {
        FailureFreeCommitsInOrder(cfg, books, moves);
      }
    } else {
      FirstRoundGoesUncommitted(cfg, books);
      var moves := [Call(cfg.creation + cfg.roundSize, QUIET)];
      assert FailureFree(moves);
      assert |FirstRounds(RoundOf(cfg, AllMoves(cfg, Fresh(books), moves).last))| == 1;
    }
  }

  // --- Rounds that are passed over ------------------------------------------------------------

  lemma {:induction false} BlocksGrow(cfg: Settings, p: Progress, n: nat, upTo: nat, env: Environment)
    requires cfg.Proper() && n >= cfg.creation
    ensures var after := Blocks(cfg, p, n, upTo, env);
      p.commits <= after.commits && p.lost <= after.lost
    decreases upTo + 1 - n
  {
    hide RoundOf, QuarterOf, Deliver;
    if n <= upTo && !env.halted(n) {
      var done := OneBlock(cfg, p, n, env);
      if done.ok {
        BlocksGrow(cfg, done.progress, n + 1, upTo, env);
      }
    }
  }

  lemma {:induction false} LogsGrow(cfg: Settings, p: Progress, moves: seq<Move>)
    requires cfg.Proper() && Consecutive(cfg, p)
    ensures var after := AllMoves(cfg, p, moves);
      p.commits <= after.commits && p.lost <= after.lost
    decreases |moves|
  {
    hide Consecutive, Blocks, RoundOf, AtRoundStart;
    if moves != [] {
      MoveConsecutive(cfg, p, moves[0]);
      if moves[0].Call? {
        CallConsecutive(cfg, p, moves[0].upTo, moves[0].env);
        if !(p.last >= 0 && moves[0].upTo <= p.last) {
          BlocksGrow(cfg, p, StartBlock(cfg, p, moves[0].upTo), moves[0].upTo, moves[0].env);
        }
      }
      LogsGrow(cfg, Made(cfg, p, moves[0]), moves[1..]);
    }
  }

  /** A round that was passed over is never committed later, nor a committed one passed over. */
  lemma {:induction false} DecidedForGood(cfg: Settings, p: Progress, moves: seq<Move>, r: nat)
    requires OnTrack(cfg, p) && Consecutive(cfg, p)
    ensures r in p.lost ==> r !in AllMoves(cfg, p, moves).commits
    ensures r in p.commits ==> r in AllMoves(cfg, p, moves).commits
  {
    hide AllMoves, RoundOf, QuarterOf;
    MovesKeepTrack(cfg, p, moves);
    LogsGrow(cfg, p, moves);
    var after := AllMoves(cfg, p, moves);
    assert EachRoundOnce(cfg, after);
  }

  /**
   * The first attempt that reads the first block of a round decides about the round: whatever comes
   * later, it is ever committed if and only if in that attempt neither the quarter's work nor the
   * commit failed.
   */
  lemma {:induction false} FirstAttemptDecides(cfg: Settings, p: Progress, env: Environment, moves: seq<Move>)
    requires OnTrack(cfg, p) && Consecutive(cfg, p) && AtRoundStart(cfg, p)
    requires !env.mishap(NextOf(cfg, p)).ReadingFails?
    ensures var n := NextOf(cfg, p);
      var attempted := OneBlock(cfg, p, n, env).progress;
      && Consecutive(cfg, attempted)
      && (RoundOf(cfg, n) in AllMoves(cfg, attempted, moves).commits
          <==> !env.mishap(n).QuarterWorkFails? && !env.mishap(n).CommitFails?)
  {
    hide AllMoves, RoundOf, PositionOf, QuarterAt, Deliver, Accounted;
    var n: nat := NextOf(cfg, p);
    RoundStart(cfg, n - 1);
    AttemptKeepsTrack(cfg, p, env);
    OneBlockConsecutive(cfg, p, n, env);
    DecidedForGood(cfg, OneBlock(cfg, p, n, env).progress, moves, RoundOf(cfg, n));
  }

  /**
   * A restart costs the round of the next block its commit if and only if that block is the round's
   * first and was not attempted yet: in every failure-free run that goes on to save the block.
   */
  lemma {:induction false} RestartLosesRoundIff(cfg: Settings, p: Progress, moves: seq<Move>)
    requires OnTrack(cfg, p) && Consecutive(cfg, p) && FailureFree(moves)
    requires RoundOf(cfg, NextOf(cfg, p)) >= 1 && RoundOf(cfg, NextOf(cfg, p)) !in p.lost
    ensures Consecutive(cfg, Restarted(cfg, p))
    ensures var n := NextOf(cfg, p);
      var after := AllMoves(cfg, Restarted(cfg, p), moves);
      after.last >= n ==> (RoundOf(cfg, n) in after.commits <==> !AtRoundStart(cfg, p))
  {
    hide AllMoves, RoundOf, PositionOf, QuarterOf;
    var n: nat := NextOf(cfg, p);
    var start := Restarted(cfg, p);
    RestartKeepsTrack(cfg, p);
    MoveConsecutive(cfg, p, Restart);
    DecidedForGood(cfg, start, moves, RoundOf(cfg, n));
    MovesKeepTrack(cfg, start, moves);
    var after := AllMoves(cfg, start, moves);
    if after.last >= n && !AtRoundStart(cfg, p) {
      RoundOfMonotone(cfg, n, after.last);
      RoundOfMonotone(cfg, n, after.last + 1);
      assert after.lost == p.lost;
    }
  }
}
