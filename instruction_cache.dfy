/** A core's instruction cache: direct-mapped lines filled from the instruction bus. */
module InstructionCache {
  import opened Wrappers
  import opened Exceptions
  import Locks
  import Blocks
  import SimulationConstants
  import opened CachePositions
  import opened Memory

  /** Clock cycles a fill spends once the bus is held: one, then forty more. */
  const FILL_CYCLES: nat := 41

  class InstructionCache {
    const instructionBus: InstructionBus
    const instructionCachePositions: array<InstructionCachePosition>

    ghost predicate Valid()
      reads this, instructionCachePositions
    {
      forall i, j :: 0 <= i < j < instructionCachePositions.Length ==>
        instructionCachePositions[i] != instructionCachePositions[j]
    }

    /** `cacheSize` empty lines: tag -1 and no block. */
    constructor(instructionBus: InstructionBus, cacheSize: nat)
      ensures this.instructionBus == instructionBus
      ensures instructionCachePositions.Length == cacheSize && Valid()
      ensures forall i :: 0 <= i < cacheSize ==>
                fresh(instructionCachePositions[i])
                && instructionCachePositions[i].tag == -1
                && instructionCachePositions[i].instructionBlock == None
    {
      this.instructionBus := instructionBus;
      var lines: seq<InstructionCachePosition> := [];
      for i := 0 to cacheSize
        invariant |lines| == i
        invariant forall k :: 0 <= k < i ==> fresh(lines[k]) && lines[k].tag == -1 && lines[k].instructionBlock == None
        invariant forall k, l :: 0 <= k < l < i ==> lines[k] != lines[l]
      {
        var line := new InstructionCachePosition(-1, None);
        lines := lines + [line];
      }
      instructionCachePositions := new InstructionCachePosition[cacheSize](i requires 0 <= i < cacheSize => lines[i]);
    }

    function GetInstructionCachePosition(position: int): (r: Result<InstructionCachePosition, Fault>)
      reads this, instructionCachePositions
      ensures r.Ok? <==> 0 <= position < instructionCachePositions.Length
      ensures r.Ok? ==> r.value == instructionCachePositions[position]
    {
      if 0 <= position < instructionCachePositions.Length then Ok(instructionCachePositions[position])
      else Err(IndexOutOfBounds)
    }

    /**
     * Fills line `position` with instruction block `blockNumber`: takes the bus (after `failures`
     * failed attempts), advances 1 + 40 cycles, stores the block and then the tag, and frees the
     * bus. The result is the number of clock cycles advanced. A fault while the bus is held
     * leaves it held, as the exception would.
     */
    method GetInstructionBlockFromMemory(blockNumber: int, position: int, caller: Locks.ThreadId, failures: nat)
      returns (r: Result<nat, Fault>)
      requires Valid()
      modifies instructionBus.lock
      modifies if 0 <= position < instructionCachePositions.Length then {instructionCachePositions[position]} else {}
      ensures old(instructionBus.lock.owner) == Some(caller) <==> r == Err(TryLockException)
      ensures r.Ok? <==> old(instructionBus.lock.owner) != Some(caller)
                         && instructionBus.GetInstructionBlock(blockNumber).Ok?
                         && 0 <= position < instructionCachePositions.Length
      ensures r.Ok? ==> r.value == failures + FILL_CYCLES && instructionBus.lock.owner == None
      ensures r.Ok? ==> instructionCachePositions[position].tag == blockNumber
                        && Ok(instructionCachePositions[position].instructionBlock)
                           == instructionBus.GetInstructionBlock(blockNumber)
      ensures r.Err? && old(instructionBus.lock.owner) != Some(caller) ==> instructionBus.lock.owner == Some(caller)
      ensures forall i :: 0 <= i < instructionCachePositions.Length && (i != position || r.Err?) ==>
                instructionCachePositions[i].tag == old(instructionCachePositions[i].tag)
                && instructionCachePositions[i].instructionBlock == old(instructionCachePositions[i].instructionBlock)
    {
      var locked := instructionBus.lock.LockRetrying(caller);
      if locked.Err? {
        return Err(locked.error);
      }
      var cycles := failures + 1;
      for i := 0 to 40
        invariant cycles == failures + 1 + i
      {
        cycles := cycles + 1;
      }
      var block := instructionBus.GetInstructionBlock(blockNumber);
      if block.Err? {
        return Err(block.error);
      }
      if !(0 <= position < instructionCachePositions.Length) {
        return Err(IndexOutOfBounds);
      }
      var line := instructionCachePositions[position];
      line.SetInstructionBlock(block.value);
      line.SetTag(blockNumber);
      var unlocked := instructionBus.lock.Unlock(caller);
      r := Ok(cycles);
    }
  }

  /**
   * The empty marker never matches: every instruction block number of a PC at or above the
   * start of instruction memory is at least 24, so a line's first fetch is a miss.
   */
  lemma EmptyLineMisses(pc: int)
    requires pc >= SimulationConstants.INSTRUCTIONS_START
    ensures pc / SimulationConstants.BLOCK_SIZE >= SimulationConstants.TOTAL_DATA_BLOCKS
    ensures pc / SimulationConstants.BLOCK_SIZE != -1
  {
  }
}
