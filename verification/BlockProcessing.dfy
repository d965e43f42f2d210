// Which blocks the operator reads, processes and saves, whatever halts, failures and restarts come in
// between (src/server/operator/Operator.ts).
module BlockProcessing {
  import opened BasicTypes
  import opened Ledgers
  import opened ChainEvents

  /** The mediator's creation block and round size, and the events of each block, all read from the chain. */
  datatype Settings = Settings(creation: nat, roundSize: nat, events: nat -> seq<ChainEvent>) {
    predicate Proper() {
      roundSize > 0
    }
  }

  function RoundOf(cfg: Settings, n: nat): nat
    requires cfg.Proper() && n >= cfg.creation
  {
    (n - cfg.creation) / cfg.roundSize
  }

  /** How many blocks into its round a block is. */
  function PositionOf(cfg: Settings, n: nat): nat
    requires cfg.Proper() && n >= cfg.creation
  {
    (n - cfg.creation) % cfg.roundSize
  }

  /** A position in quarters of the round size, rounded down. */
  function QuarterAt(roundSize: nat, position: nat): nat
    requires roundSize > 0
  {
    4 * position / roundSize
  }

  function QuarterOf(cfg: Settings, n: nat): nat
    requires cfg.Proper() && n >= cfg.creation
  {
    QuarterAt(cfg.roundSize, PositionOf(cfg, n))
  }

  /** Where processing a block can throw. */
  datatype Mishap = NoMishap | ReadingFails | QuarterWorkFails | CommitFails | SavingFails

  /** What goes wrong during one call: halts, mishaps, and the faults that the events of a block meet. */
  datatype Environment = Environment(halted: nat -> bool, mishap: nat -> Mishap, faults: nat -> (nat -> Fault))

  const QUIET := Environment((n: nat) => false, (n: nat) => NoMishap, (n: nat) => NEVER)

  /** What changed the books: a reading of a block's events, an admission, or a restart. */
  datatype Happening =
    | Reading(block: nat, faults: nat -> Fault)
    | Admission(wallet: Address, round: Round)
    | Reboot

  /**
   * The operator's fields, the stored number of the last block (-1 for none), the books that events
   * change, and what it did so far: the blocks saved, the rounds whose commit finished, the rounds whose
   * commit was passed over, and all that changed the books.
   */
  datatype Progress = Progress(
    round: nat,
    quarter: nat,
    last: int,
    saved: seq<nat>,
    commits: seq<nat>,
    lost: seq<nat>,
    books: Books,
    log: seq<Happening>)

  function Fresh(books: Books): Progress {
    Progress(0, 0, -1, [], [], [], books, [])
  }

  datatype Attempt = Attempt(progress: Progress, ok: bool)

  /** Round and quarter are set before the work that may throw. */
  function OnNewQuarter(p: Progress, round: nat, quarter: nat, mishap: Mishap): Attempt {
    var moved := p.(round := round, quarter := quarter);
    if mishap.QuarterWorkFails? || (quarter == 0 && mishap.CommitFails?) then
      Attempt(if quarter == 0 then moved.(lost := p.lost + [round]) else moved, false)
    else
      Attempt(if quarter == 0 then moved.(commits := p.commits + [round]) else moved, true)
  }

  /** Hands the block's events to their handlers, deposits first. */
  function ReadEvents(cfg: Settings, p: Progress, n: nat, faults: nat -> Fault): Progress {
    p.(books := Deliver(p.books, cfg.events(n), faults), log := p.log + [Reading(n, faults)])
  }

  function ProcessSingleBlock(cfg: Settings, p: Progress, n: nat, faults: nat -> Fault, round: nat, quarter: nat,
                              mishap: Mishap): Attempt {
    if mishap.ReadingFails? then Attempt(p, false)
    else
      var read := ReadEvents(cfg, p, n, faults);
      if quarter != p.quarter then OnNewQuarter(read, round, quarter, mishap) else Attempt(read, true)
  }

  /** Processes a block and remembers it as the last one. */
  function OneBlock(cfg: Settings, p: Progress, n: nat, env: Environment): Attempt
    requires cfg.Proper() && n >= cfg.creation
  {
    var done := ProcessSingleBlock(cfg, p, n, env.faults(n), RoundOf(cfg, n), QuarterOf(cfg, n), env.mishap(n));
    if !done.ok || env.mishap(n).SavingFails? then Attempt(done.progress, false)
    else Attempt(done.progress.(last := n, saved := p.saved + [n]), true)
  }

  /** The blocks from `n` to `upTo`, until the mediator is halted or something throws. */
  function Blocks(cfg: Settings, p: Progress, n: nat, upTo: nat, env: Environment): Progress
    requires cfg.Proper() && n >= cfg.creation
    decreases upTo + 1 - n
  {
    if n > upTo || env.halted(n) then p
    else
      var done := OneBlock(cfg, p, n, env);
      if done.ok then Blocks(cfg, done.progress, n + 1, upTo, env) else done.progress
  }

  lemma OneMoreBlock(cfg: Settings, p: Progress, n: nat, upTo: nat, env: Environment)
    requires cfg.Proper() && cfg.creation <= n <= upTo
    ensures var done := OneBlock(cfg, p, n, env);
      Blocks(cfg, p, n, upTo, env)
      == if env.halted(n) then p
         else if done.ok then Blocks(cfg, done.progress, n + 1, upTo, env)
         else done.progress
  {
    hide OneBlock;
  }

  lemma NoMoreBlocks(cfg: Settings, p: Progress, n: nat, upTo: nat, env: Environment)
    requires cfg.Proper() && n >= cfg.creation && n > upTo
    ensures Blocks(cfg, p, n, upTo, env) == p
  {
  }

  function StartBlock(cfg: Settings, p: Progress, upTo: nat): int {
    if p.last >= 0 then p.last + 1
    else if cfg.creation == 0 then upTo
    else cfg.creation + 1
  }

  function ProcessBlocksUpTo(cfg: Settings, p: Progress, upTo: nat, env: Environment): Progress
    requires cfg.Proper() && StartBlock(cfg, p, upTo) >= cfg.creation
  {
    if p.last >= 0 && upTo <= p.last then p
    else Blocks(cfg, p, StartBlock(cfg, p, upTo), upTo, env)
  }

  /** The next block, once the first has been saved or if the mediator was not created in block zero. */
  function NextOf(cfg: Settings, p: Progress): int {
    if p.last >= 0 then p.last + 1 else cfg.creation + 1
  }

  /** The next block begins a round whose quarter has not been set yet. */
  predicate AtRoundStart(cfg: Settings, p: Progress)
    requires cfg.Proper()
  {
    NextOf(cfg, p) >= cfg.creation && PositionOf(cfg, NextOf(cfg, p)) == 0 && p.quarter != 0
  }

  /** A new process starts with no balance remembered. */
  function Reopened(books: Books): Books {
    books.(ledger := books.ledger.(cache := map[]))
  }

  /**
   * A new process finds the stored tables and block number, but starts in round and quarter zero. The
   * first block of a round then looks like no new quarter, and its commit is passed over.
   */
  function Restarted(cfg: Settings, p: Progress): Progress
    requires cfg.Proper()
  {
    p.(round := 0, quarter := 0, books := Reopened(p.books), log := p.log + [Reboot],
       lost := if AtRoundStart(cfg, p) then p.lost + [RoundOf(cfg, NextOf(cfg, p))] else p.lost)
  }

  function Joined(books: Books, wallet: Address, round: Round): Books {
    books.(ledger := Register(books.ledger, wallet, round))
  }

  /** A client joins in the round that the operator believes in. */
  function Admitted(p: Progress, wallet: Address): Progress {
    p.(books := Joined(p.books, wallet, p.round), log := p.log + [Admission(wallet, p.round)])
  }

  // --- Saved blocks ---------------------------------------------------------------------------

  /** Saved block numbers follow each other without a gap, and the stored number is the last of them. */
  ghost predicate Consecutive(cfg: Settings, p: Progress) {
    && p.last == (if p.saved == [] then -1 else p.saved[|p.saved| - 1])
    && (cfg.creation > 0 ==> forall i :: 0 <= i < |p.saved| ==> p.saved[i] > cfg.creation)
    && (forall i :: 0 < i < |p.saved| ==> p.saved[i] == p.saved[i - 1] + 1)
    && (p.saved != [] && cfg.creation > 0 ==> p.saved[0] == cfg.creation + 1)
  }

  lemma {:induction false} OneBlockConsecutive(cfg: Settings, p: Progress, n: nat, env: Environment)
    requires cfg.Proper() && n >= cfg.creation && Consecutive(cfg, p)
    requires if p.last >= 0 then n == p.last + 1 else cfg.creation > 0 ==> n == cfg.creation + 1
    ensures var done := OneBlock(cfg, p, n, env);
      && Consecutive(cfg, done.progress) && p.saved <= done.progress.saved
      && (done.ok ==> done.progress.last == n)
  {
    hide RoundOf, QuarterOf;
  }

  lemma {:induction false} BlocksConsecutive(cfg: Settings, p: Progress, n: nat, upTo: nat, env: Environment)
    requires cfg.Proper() && n >= cfg.creation && Consecutive(cfg, p)
    requires if p.last >= 0 then n == p.last + 1 else cfg.creation > 0 ==> n == cfg.creation + 1
    ensures var after := Blocks(cfg, p, n, upTo, env);
      Consecutive(cfg, after) && p.saved <= after.saved
    decreases upTo + 1 - n
  {
    hide OneBlock;
    if n <= upTo && !env.halted(n) {
      var done := OneBlock(cfg, p, n, env);
      OneBlockConsecutive(cfg, p, n, env);
      if done.ok {
        BlocksConsecutive(cfg, done.progress, n + 1, upTo, env);
      }
    }
  }

  lemma CallConsecutive(cfg: Settings, p: Progress, upTo: nat, env: Environment)
    requires cfg.Proper() && Consecutive(cfg, p)
    ensures StartBlock(cfg, p, upTo) >= cfg.creation
    ensures var after := ProcessBlocksUpTo(cfg, p, upTo, env);
      Consecutive(cfg, after) && p.saved <= after.saved
  {
    hide Blocks;
    if !(p.last >= 0 && upTo <= p.last) {
      BlocksConsecutive(cfg, p, StartBlock(cfg, p, upTo), upTo, env);
    }
  }

  /** What happens to the operator: a block notification, a restart of its process, or a client that joins. */
  datatype Move = Call(upTo: nat, env: Environment) | Restart | Admit(wallet: Address)

  function Made(cfg: Settings, p: Progress, move: Move): Progress
    requires cfg.Proper() && Consecutive(cfg, p)
  {
    match move
    case Call(upTo, env) =>
      CallConsecutive(cfg, p, upTo, env);
      ProcessBlocksUpTo(cfg, p, upTo, env)
    case Restart => Restarted(cfg, p)
    case Admit(wallet) => Admitted(p, wallet)
  }

  lemma MoveConsecutive(cfg: Settings, p: Progress, move: Move)
    requires cfg.Proper() && Consecutive(cfg, p)
    ensures Consecutive(cfg, Made(cfg, p, move)) && p.saved <= Made(cfg, p, move).saved
  {
    hide ProcessBlocksUpTo, RoundOf, PositionOf;
    if move.Call? {
      hide Consecutive;
      CallConsecutive(cfg, p, move.upTo, move.env);
    }
  }

  function AllMoves(cfg: Settings, p: Progress, moves: seq<Move>): Progress
    requires cfg.Proper() && Consecutive(cfg, p)
    decreases |moves|
  {
    if moves == [] then p
    else
      MoveConsecutive(cfg, p, moves[0]);
      AllMoves(cfg, Made(cfg, p, moves[0]), moves[1..])
  }

  /** Over every sequence of calls, restarts and admissions, with any halts and failures, each saved block is one more than the one before. */
  lemma {:induction false} SavedConsecutively(cfg: Settings, p: Progress, moves: seq<Move>)
    requires cfg.Proper() && Consecutive(cfg, p)
    ensures Consecutive(cfg, AllMoves(cfg, p, moves)) && p.saved <= AllMoves(cfg, p, moves).saved
    decreases |moves|
  {
    hide Made, Consecutive;
    if moves != [] {
      MoveConsecutive(cfg, p, moves[0]);
      SavedConsecutively(cfg, Made(cfg, p, moves[0]), moves[1..]);
    }
  }

  /** The block is read, handled and saved whatever its quarter. */
  predicate Passes(env: Environment, n: nat) {
    !env.halted(n) && env.mishap(n).NoMishap?
  }

  /** The block is not saved whatever its quarter. */
  predicate Stops(env: Environment, n: nat) {
    env.halted(n) || env.mishap(n).ReadingFails? || env.mishap(n).SavingFails?
  }

  /** The blocks from `n` up to but not including `k` were saved on top of those before. */
  ghost predicate SavedUpTo(p: Progress, after: Progress, n: nat, k: nat) {
    && p.saved <= after.saved && |after.saved| == |p.saved| + k - n
    && (forall i :: |p.saved| <= i < |after.saved| ==> after.saved[i] == n + i - |p.saved|)
    && after.last == if k > n then k - 1 else p.last
  }

  lemma {:induction false} BlocksSaveUpTo(cfg: Settings, p: Progress, n: nat, upTo: nat, env: Environment, k: nat)
    requires cfg.Proper() && cfg.creation <= n <= k <= upTo + 1
    requires (forall m :: n <= m < k ==> Passes(env, m)) && (k <= upTo ==> Stops(env, k))
    ensures SavedUpTo(p, Blocks(cfg, p, n, upTo, env), n, k)
    decreases upTo + 1 - n
  {
    hide RoundOf, QuarterOf, Deliver;
    if n < k {
      assert Passes(env, n);
      BlocksSaveUpTo(cfg, OneBlock(cfg, p, n, env).progress, n + 1, upTo, env, k);
    } else if n <= upTo {
      assert Stops(env, n);
    }
  }

  /** One call saves every block up to the first that is halted, unread or unsaved, or up to its last. */
  lemma {:induction false} CallSavesUpTo(cfg: Settings, p: Progress, upTo: nat, env: Environment, k: nat)
    requires cfg.Proper() && Consecutive(cfg, p)
    requires var start := StartBlock(cfg, p, upTo);
      start <= k <= upTo + 1 && (forall m :: start <= m < k ==> Passes(env, m)) && (k <= upTo ==> Stops(env, k))
    ensures StartBlock(cfg, p, upTo) >= cfg.creation
    ensures SavedUpTo(p, ProcessBlocksUpTo(cfg, p, upTo, env), StartBlock(cfg, p, upTo), k)
  {
    hide Blocks, Passes, Stops;
    CallConsecutive(cfg, p, upTo, env);
    BlocksSaveUpTo(cfg, p, StartBlock(cfg, p, upTo), upTo, env, k);
  }

  // --- Rounds and quarters --------------------------------------------------------------------

  /** Integers a step apart have products at least `d` apart. */
  lemma ProductGap(a: int, b: int, d: nat)
    ensures (a + 1) * d == a * d + d
    ensures a < b ==> a * d + d <= b * d
  {
    if a < b {
      assert (b - a - 1) * d >= 0;
    }
  }

  lemma QuotientOf(a: nat, d: nat, q: nat, x: nat)
    requires d > 0 && a == q * d + x && x < d
    ensures a / d == q && a % d == x
  {
    QuotientBounds(a, d);
    ProductGap(q, a / d, d);
    ProductGap(a / d, q, d);
  }

  lemma QuotientBounds(a: nat, d: nat)
    requires d > 0
    ensures (a / d) * d + a % d == a && (a / d) * d <= a < (a / d) * d + d
  {
  }

  lemma NextQuotient(a: nat, d: nat)
    requires d > 0
    ensures if a % d + 1 < d then (a + 1) / d == a / d && (a + 1) % d == a % d + 1
            else (a + 1) / d == a / d + 1 && (a + 1) % d == 0
  {
    var q, x := a / d, a % d;
    QuotientBounds(a, d);
    ProductGap(q, q + 1, d);
    if x + 1 < d {
      QuotientOf(a + 1, d, q, x + 1);
    } else {
      QuotientOf(a + 1, d, q + 1, 0);
    }
  }

  /** The next block is at the next position of the same round, or at the start of the next one. */
  lemma NextBlock(cfg: Settings, n: nat)
    requires cfg.Proper() && n >= cfg.creation
    ensures PositionOf(cfg, n) < cfg.roundSize
    ensures if PositionOf(cfg, n) + 1 < cfg.roundSize then
              RoundOf(cfg, n + 1) == RoundOf(cfg, n) && PositionOf(cfg, n + 1) == PositionOf(cfg, n) + 1
            else
              RoundOf(cfg, n + 1) == RoundOf(cfg, n) + 1 && PositionOf(cfg, n + 1) == 0
  {
    NextQuotient(n - cfg.creation, cfg.roundSize);
    assert n + 1 - cfg.creation == n - cfg.creation + 1;
  }

  /** Within a round quarters do not go back, and advance by at most one if the round has at least four blocks. */
  lemma QuarterSteps(d: nat, x: nat)
    requires 0 < d
    ensures QuarterAt(d, x) <= QuarterAt(d, x + 1)
    ensures d >= 4 ==> QuarterAt(d, x + 1) <= QuarterAt(d, x) + 1
  {
    QuotientBounds(4 * x, d);
    QuotientBounds(4 * (x + 1), d);
    QuotientsApart(4 * x, 4 * (x + 1), d, QuarterAt(d, x), QuarterAt(d, x + 1));
  }

  /** Numbers four apart have quotients in order, and one apart unless the divisor is below four. */
  lemma QuotientsApart(a: nat, b: nat, d: nat, p: nat, q: nat)
    requires b == a + 4 && p * d <= a < p * d + d && q * d <= b < q * d + d
    ensures p <= q && (d >= 4 ==> q <= p + 1)
  {
    ProductGap(q, p, d);
    ProductGap(p + 1, q, d);
    ProductGap(p, p + 1, d);
  }

  /** A round starts in quarter zero and, unless it is a single block, ends in a later one. */
  lemma FirstAndLastQuarter(d: nat)
    requires d >= 1
    ensures QuarterAt(d, 0) == 0
    ensures QuarterAt(d, d - 1) == if d >= 4 then 3 else if d >= 2 then 2 else 0
  {
    QuotientOf(0, d, 0, 0);
    if d >= 4 {
      QuotientOf(4 * (d - 1), d, 3, d - 4);
    }
  }

  function QuarterIndex(cfg: Settings, n: nat): nat
    requires cfg.Proper() && n >= cfg.creation
  {
    4 * RoundOf(cfg, n) + QuarterOf(cfg, n)
  }

  lemma IndexAdvances(cfg: Settings, n: nat)
    requires cfg.roundSize >= 4 && n >= cfg.creation
    ensures QuarterIndex(cfg, n) <= QuarterIndex(cfg, n + 1) <= QuarterIndex(cfg, n) + 1
  {
    hide RoundOf, PositionOf, QuarterAt;
    NextBlock(cfg, n);
    FirstAndLastQuarter(cfg.roundSize);
    QuarterSteps(cfg.roundSize, PositionOf(cfg, n));
  }

  /** A round of fewer than four blocks skips a quarter at its end. */
  lemma IndexJumps(cfg: Settings)
    requires 0 < cfg.roundSize < 4
    ensures var n := cfg.creation + cfg.roundSize - 1;
      QuarterIndex(cfg, n + 1) > QuarterIndex(cfg, n) + 1
  {
    var d := cfg.roundSize;
    var n := cfg.creation + d - 1;
    QuotientOf(d - 1, d, 0, d - 1);
    assert RoundOf(cfg, n) == 0 && PositionOf(cfg, n) == d - 1;
    hide RoundOf, PositionOf, QuarterAt;
    NextBlock(cfg, n);
    FirstAndLastQuarter(d);
  }

  /** From block to block the quarter stays or moves to the next one, exactly when a round has at least four blocks. */
  lemma {:induction false} QuartersAdvanceByOneIff(cfg: Settings)
    requires cfg.Proper()
    ensures (forall n: nat :: n >= cfg.creation ==>
               QuarterIndex(cfg, n) <= QuarterIndex(cfg, n + 1) <= QuarterIndex(cfg, n) + 1)
            <==> cfg.roundSize >= 4
  {
    hide QuarterIndex;
    if cfg.roundSize >= 4 {
      forall n: nat | n >= cfg.creation
        ensures QuarterIndex(cfg, n) <= QuarterIndex(cfg, n + 1) <= QuarterIndex(cfg, n) + 1
      {
        IndexAdvances(cfg, n);
      }
    } else {
      IndexJumps(cfg);
      var n: nat := cfg.creation + cfg.roundSize - 1;
      assert QuarterIndex(cfg, n + 1) > QuarterIndex(cfg, n) + 1;
    }
  }

  lemma RoundOfMonotone(cfg: Settings, n: nat, m: nat)
    requires cfg.Proper() && cfg.creation <= n <= m
    ensures RoundOf(cfg, n) <= RoundOf(cfg, m)
    decreases m - n
  {
    hide RoundOf, PositionOf;
    if n < m {
      NextBlock(cfg, n);
      RoundOfMonotone(cfg, n + 1, m);
    }
  }

  /** Where a round begins, the quarter falls back to zero; elsewhere round and quarter go on. */
  lemma RoundStart(cfg: Settings, n: nat)
    requires cfg.roundSize >= 2 && n >= cfg.creation
    ensures if PositionOf(cfg, n + 1) == 0 then
              RoundOf(cfg, n + 1) == RoundOf(cfg, n) + 1 && QuarterOf(cfg, n + 1) == 0 && QuarterOf(cfg, n) != 0
            else
              RoundOf(cfg, n + 1) == RoundOf(cfg, n) && QuarterOf(cfg, n + 1) >= QuarterOf(cfg, n)
  {
    hide RoundOf, PositionOf, QuarterAt;
    NextBlock(cfg, n);
    FirstAndLastQuarter(cfg.roundSize);
    QuarterSteps(cfg.roundSize, PositionOf(cfg, n));
  }
}
