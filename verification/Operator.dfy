// The operator as the program runs it: fields that the handlers update in place, each handler tied to
// the step of `BlockProcessing` that it performs (src/server/operator/Operator.ts).
module Operators {
  import B = BlockProcessing
  import opened BlockProcessing
  import opened BasicTypes
  import opened ChainEvents

  class Operator {
    const chain: Settings
    const handler: EventHandler
    var round: nat
    var quarter: nat
    var creation: int
    var roundSize: nat
    var lastProcessedBlock: int
    ghost var saved: seq<nat>
    ghost var commits: seq<nat>
    ghost var lost: seq<nat>
    ghost var log: seq<Happening>

    constructor (chain: Settings, handler: EventHandler)
      ensures this.chain == chain && this.handler == handler && Current() == Fresh(handler.Current())
      ensures Initialised()
    {
      this.chain, this.handler := chain, handler;
      round, quarter, creation, roundSize, lastProcessedBlock := 0, 0, -1, 0, -1;
      saved, commits, lost, log := [], [], [], [];
    }

    ghost function Current(): Progress
      reads this, handler, handler.ledger
    {
      Progress(round, quarter, lastProcessedBlock, saved, commits, lost, handler.Current(), log)
    }

    /** Settings are either not read yet or those of the chain. */
    ghost predicate Initialised()
      reads this
    {
      (creation == -1 || creation == chain.creation) && (roundSize == 0 || roundSize == chain.roundSize)
    }

    method EnsureRoundSettingsInitialized()
      requires Initialised()
      modifies this`creation, this`roundSize
      ensures creation == chain.creation && roundSize == chain.roundSize
    {
      if creation == -1 {
        creation := chain.creation;
      }
      if roundSize == 0 {
        roundSize := chain.roundSize;
      }
    }

    method GoToRound(next: nat, mishap: Mishap) returns (ok: bool)
      modifies this`round, this`commits
      ensures round == next && ok == !mishap.CommitFails?
      ensures commits == if ok then old(commits) + [next] else old(commits)
    {
      round := next;
      if mishap.CommitFails? {
        return false;
      }
      commits := commits + [next];
      return true;
    }

    method OnNewQuarter(newRound: nat, newQuarter: nat, mishap: Mishap) returns (ok: bool)
      modifies this`round, this`quarter, this`commits, this`lost
      ensures Attempt(Current(), ok) == B.OnNewQuarter(old(Current()), newRound, newQuarter, mishap)
    {
      round := newRound;
      quarter := newQuarter;
      if mishap.QuarterWorkFails? {
        lost := if newQuarter == 0 then lost + [newRound] else lost;
        return false;
      }
      if newQuarter == 0 {
        ok := GoToRound(newRound, mishap);
        if !ok {
          lost := lost + [newRound];
        }
        return;
      }
      return true;
    }

    method ProcessSingleBlock(blockNumber: nat, faults: nat -> Fault, newRound: nat, newQuarter: nat, mishap: Mishap)
      returns (ok: bool)
      modifies this`round, this`quarter, this`commits, this`lost, this`log, handler, handler.ledger
      ensures Attempt(Current(), ok)
              == B.ProcessSingleBlock(chain, old(Current()), blockNumber, faults, newRound, newQuarter, mishap)
    {
      hide ChainEvents.Deliver, B.OnNewQuarter;
      if mishap.ReadingFails? {
        return false;
      }
      handler.ProcessEvents(chain.events(blockNumber), faults);
      log := log + [Reading(blockNumber, faults)];
      ok := true;
      if newQuarter != quarter {
        ok := OnNewQuarter(newRound, newQuarter, mishap);
      }
    }

    /** Full rounds since the mediator's creation. */
    method CalculateCurrentRound(blockNumber: nat) returns (r: nat)
      requires chain.Proper() && blockNumber >= chain.creation
      requires creation == chain.creation && roundSize == chain.roundSize
      ensures r * roundSize <= blockNumber - creation < (r + 1) * roundSize
      ensures r == RoundOf(chain, blockNumber)
    {
      r := (blockNumber - creation) / roundSize;
      QuotientBounds(blockNumber - creation, roundSize);
      ProductGap(r, r + 1, roundSize);
    }

    /** Full quarters of the round size since the round began. */
    method CalculateCurrentQuarter(blockNumber: nat) returns (q: nat)
      requires chain.Proper() && blockNumber >= chain.creation
      requires creation == chain.creation && roundSize == chain.roundSize
      ensures q * roundSize <= 4 * PositionOf(chain, blockNumber) < (q + 1) * roundSize && q < 4
      ensures q == QuarterOf(chain, blockNumber)
    {
      var position := (blockNumber - creation) % roundSize;
      q := 4 * position / roundSize;
      QuotientBounds(4 * position, roundSize);
      ProductGap(q, q + 1, roundSize);
      ProductGap(3, q, roundSize);
    }

    /** A new process reads the stored block number and tables, remembers no balance, and starts in round and quarter zero. */
    method Restart()
      requires chain.Proper()
      modifies this, handler.ledger
      ensures Current() == Restarted(chain, old(Current())) && Initialised()
    {
      hide ChainEvents.Deliver, B.RoundOf, B.PositionOf;
      lost := if AtRoundStart(chain, Current()) then lost + [RoundOf(chain, NextOf(chain, Current()))] else lost;
      round, quarter, creation, roundSize := 0, 0, -1, 0;
      handler.ledger.Reopen();
      log := log + [Reboot];
    }

    /** A client joins in the round that the operator believes in. */
    method Admit(wallet: Address)
      modifies this`log, handler.ledger
      ensures Current() == Admitted(old(Current()), wallet)
    {
      handler.ledger.Register(wallet, round);
      log := log + [Admission(wallet, round)];
    }

    /** Every failure ends the call; the next call starts at the block after the last saved one. */
    method ProcessBlocksUpTo(blockNumber: nat, env: Environment)
      requires chain.Proper() && Initialised() && Consecutive(chain, Current())
      modifies this, handler, handler.ledger
      ensures StartBlock(chain, old(Current()), blockNumber) >= chain.creation
      ensures Current() == B.ProcessBlocksUpTo(chain, old(Current()), blockNumber, env)
      ensures Initialised() && Consecutive(chain, Current())
    {
      hide B.ProcessSingleBlock, B.RoundOf, B.QuarterOf, B.Blocks, B.Consecutive;
      CallConsecutive(chain, Current(), blockNumber, env);
      ghost var before := Current();
      EnsureRoundSettingsInitialized();
      if lastProcessedBlock >= 0 && blockNumber <= lastProcessedBlock {
        return;
      }
      var firstStart := if creation == 0 then blockNumber else creation + 1;
      var startBlock: nat := if lastProcessedBlock >= 0 then lastProcessedBlock + 1 else firstStart;
      var curBlock := startBlock;
      while curBlock <= blockNumber
        invariant curBlock >= chain.creation
        invariant creation == chain.creation && roundSize == chain.roundSize
        invariant Blocks(chain, before, startBlock, blockNumber, env)
                  == Blocks(chain, Current(), curBlock, blockNumber, env)
      {
        OneMoreBlock(chain, Current(), curBlock, blockNumber, env);
        if env.halted(curBlock) {
          return;
        }
        var currentRound := CalculateCurrentRound(curBlock);
        var currentQuarter := CalculateCurrentQuarter(curBlock);
        var ok := ProcessSingleBlock(curBlock, env.faults(curBlock), currentRound, currentQuarter, env.mishap(curBlock));
        if !ok || env.mishap(curBlock).SavingFails? {
          return;
        }
        lastProcessedBlock := curBlock;
        saved := saved + [curBlock];
        curBlock := curBlock + 1;
      }
      NoMoreBlocks(chain, Current(), curBlock, blockNumber, env);
    }
  }
}
