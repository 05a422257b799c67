/**
 * The buses. Both extend an owner-checked bus lock; the instruction bus maps instruction block
 * numbers (which start after the 24 data blocks) onto its memory array, and the data bus
 * reaches both cores' data caches and the data memory.
 */
module Memory {
  import opened Wrappers
  import opened Exceptions
  import Locks
  import SimulationConstants
  import Blocks
  import opened CachePositions
  import Coherence

  /** The lock every bus carries. */
  class Bus {
    var owner: Option<Locks.ThreadId>

    constructor()
      ensures owner == None
    {
      owner := None;
    }

    method TryLock(caller: Locks.ThreadId) returns (r: Result<bool, Fault>)
      modifies this
      ensures match Locks.TryLock(old(owner), caller)
              case Ok(a) => r == Ok(a.acquired) && owner == a.holder
              case Err(e) => r == Err(e) && owner == old(owner)
    {
      var a := Locks.TryLock(owner, caller);
      match a
      case Ok(attempt) =>
        owner := attempt.holder;
        r := Ok(attempt.acquired);
      case Err(e) =>
        r := Err(e);
    }

    /**
     * The retry loop `while (!tryLock()) advanceClockCycle();` with its outcome supplied: the
     * holder faults at once; anyone else ends up holding the lock (the failed attempts before
     * that are counted by the caller).
     */
    method LockRetrying(caller: Locks.ThreadId) returns (r: Result<(), Fault>)
      modifies this
      ensures old(owner) == Some(caller) ==> r == Err(TryLockException) && owner == old(owner)
      ensures old(owner) != Some(caller) ==> r == Ok(()) && owner == Some(caller)
    {
      if owner == Some(caller) {
        return Err(TryLockException);
      }
      owner := Some(caller);
      r := Ok(());
    }

    method Unlock(caller: Locks.ThreadId) returns (r: Result<(), Fault>)
      modifies this
      ensures match Locks.Unlock(old(owner), caller)
              case Ok(h) => r == Ok(()) && owner == h
              case Err(e) => r == Err(e) && owner == old(owner)
    {
      var u := Locks.Unlock(owner, caller);
      match u
      case Ok(h) =>
        owner := h;
        r := Ok(());
      case Err(e) =>
        r := Err(e);
    }
  }

  /** The instruction memory index that holds instruction block `index`. */
  function InstructionMemoryIndex(index: int): (i: int)
    ensures i + SimulationConstants.TOTAL_DATA_BLOCKS == index
  {
    index - SimulationConstants.TOTAL_DATA_BLOCKS
  }

  class InstructionBus {
    const lock: Bus
    var instructionMemory: array<Option<Blocks.InstructionBlock>>

    constructor(instructionMemory: array<Option<Blocks.InstructionBlock>>)
      ensures this.instructionMemory == instructionMemory && fresh(lock) && lock.owner == None
    {
      lock := new Bus();
      this.instructionMemory := instructionMemory;
    }

    /** Block numbers 24, 25, ... are memory slots 0, 1, ...; anything else is out of bounds. */
    function GetInstructionBlock(index: int): (r: Result<Option<Blocks.InstructionBlock>, Fault>)
      reads this, instructionMemory
      ensures r.Ok? <==> SimulationConstants.TOTAL_DATA_BLOCKS <= index
                         < SimulationConstants.TOTAL_DATA_BLOCKS + instructionMemory.Length
      ensures r.Ok? ==> r.value == instructionMemory[index - SimulationConstants.TOTAL_DATA_BLOCKS]
      ensures r.Err? ==> r.error == IndexOutOfBounds
    {
      var i := InstructionMemoryIndex(index);
      if 0 <= i < instructionMemory.Length then Ok(instructionMemory[i]) else Err(IndexOutOfBounds)
    }

    /** As written: slot `index` itself is written, with no offset. */
    method SetInstructionBlock(index: int, block: Option<Blocks.InstructionBlock>) returns (r: Result<(), Fault>)
      modifies instructionMemory
      ensures r.Ok? <==> 0 <= index < instructionMemory.Length
      ensures r.Ok? ==> instructionMemory[..] == old(instructionMemory[..])[index := block]
      ensures r.Err? ==> r.error == IndexOutOfBounds && instructionMemory[..] == old(instructionMemory[..])
    {
      if 0 <= index < instructionMemory.Length {
        instructionMemory[index] := block;
        r := Ok(());
      } else {
        r := Err(IndexOutOfBounds);
      }
    }

    /** With the getter's offset: writing block number `index` is what reading it returns. */
    method SetInstructionBlockMapped(index: int, block: Option<Blocks.InstructionBlock>) returns (r: Result<(), Fault>)
      modifies instructionMemory
      ensures r.Ok? <==> GetInstructionBlock(index).Ok?
      ensures r.Ok? ==> GetInstructionBlock(index) == Ok(block)
      ensures r.Ok? ==> instructionMemory[..] == old(instructionMemory[..])[InstructionMemoryIndex(index) := block]
      ensures r.Err? ==> instructionMemory[..] == old(instructionMemory[..])
    {
      var i := InstructionMemoryIndex(index);
      if 0 <= i < instructionMemory.Length {
        instructionMemory[i] := block;
        r := Ok(());
      } else {
        r := Err(IndexOutOfBounds);
      }
    }

    method SetInstructionMemory(instructionMemory: array<Option<Blocks.InstructionBlock>>)
      modifies this
      ensures this.instructionMemory == instructionMemory
    {
      this.instructionMemory := instructionMemory;
    }

    /** Instruction `offset` of block `blockNumber`; an empty block is a null dereference. */
    function GetMemoryInstructionBlockInstruction(blockNumber: int, offset: int): (r: Result<Option<Blocks.Instruction>, Fault>)
      reads this, instructionMemory
      ensures GetInstructionBlock(blockNumber).Err? ==> r == Err(IndexOutOfBounds)
      ensures GetInstructionBlock(blockNumber) == Ok(None) ==> r == Err(NullReference)
      ensures GetInstructionBlock(blockNumber).Ok? && GetInstructionBlock(blockNumber).value.Some? ==>
                var block := GetInstructionBlock(blockNumber).value.value;
                r == (if 0 <= offset < |block| then Ok(block[offset]) else Err(IndexOutOfBounds))
    {
      match GetInstructionBlock(blockNumber)
      case Err(e) => Err(e)
      case Ok(None) => Err(NullReference)
      case Ok(Some(block)) =>
        if 0 <= offset < |block| then Ok(Blocks.GetInstruction(block, offset)) else Err(IndexOutOfBounds)
    }
  }

  /** Set then get at the same block number reads another slot as written. */
  method SetThenGetMismatch(bus: InstructionBus, block: Blocks.InstructionBlock)
    requires bus.instructionMemory.Length == SimulationConstants.TOTAL_INSTRUCTION_BLOCKS
    requires bus.instructionMemory[0] == None
    modifies bus.instructionMemory
    ensures bus.GetInstructionBlock(SimulationConstants.TOTAL_DATA_BLOCKS) == Ok(None)
    ensures bus.instructionMemory[SimulationConstants.TOTAL_DATA_BLOCKS] == Some(block)
  {
    var r := bus.SetInstructionBlock(SimulationConstants.TOTAL_DATA_BLOCKS, Some(block));
  }

  class DataBus {
    const lock: Bus
    const coreZeroCache: array<DataCachePosition>
    const coreOneCache: array<DataCachePosition>
    const dataMemory: array<seq<int>>

    /** The parameters come in the order (core one, core zero); each is kept under its own name. */
    constructor(coreOneCache: array<DataCachePosition>, coreZeroCache: array<DataCachePosition>,
                dataMemory: array<seq<int>>)
      ensures this.coreZeroCache == coreZeroCache && this.coreOneCache == coreOneCache
      ensures this.dataMemory == dataMemory && fresh(lock) && lock.owner == None
    {
      lock := new Bus();
      this.coreZeroCache := coreZeroCache;
      this.coreOneCache := coreOneCache;
      this.dataMemory := dataMemory;
    }

    /** Line `position` of core `coreNum`'s data cache. */
    function GetCachePosition(coreNum: int, position: int): (r: Result<DataCachePosition, Fault>)
      reads this, coreZeroCache, coreOneCache
      ensures coreNum == 0 && 0 <= position < coreZeroCache.Length ==> r == Ok(coreZeroCache[position])
      ensures coreNum == 1 && 0 <= position < coreOneCache.Length ==> r == Ok(coreOneCache[position])
      ensures coreNum != 0 && coreNum != 1 ==> r == Err(IllegalArgumentException)
      ensures r.Err? && (coreNum == 0 || coreNum == 1) ==> r.error == IndexOutOfBounds
    {
      if coreNum == 0 then
        if 0 <= position < coreZeroCache.Length then Ok(coreZeroCache[position]) else Err(IndexOutOfBounds)
      else if coreNum == 1 then
        if 0 <= position < coreOneCache.Length then Ok(coreOneCache[position]) else Err(IndexOutOfBounds)
      else Err(IllegalArgumentException)
    }

    /** Assumed (declared nowhere): the line of the other core's cache. */
    function GetOtherCachePosition(coreNum: int, position: int): (r: Result<DataCachePosition, Fault>)
      reads this, coreZeroCache, coreOneCache
      ensures coreNum == 0 && 0 <= position < coreOneCache.Length ==> r == Ok(coreOneCache[position])
      ensures coreNum == 1 && 0 <= position < coreZeroCache.Length ==> r == Ok(coreZeroCache[position])
    {
      GetCachePosition(1 - coreNum, position)
    }

    function GetMemoryBlock(index: int): (r: Result<seq<int>, Fault>)
      reads this, dataMemory
      ensures r.Ok? <==> 0 <= index < dataMemory.Length
      ensures r.Ok? ==> r.value == dataMemory[index]
    {
      if 0 <= index < dataMemory.Length then Ok(dataMemory[index]) else Err(IndexOutOfBounds)
    }

    /** Word `offset` of memory block `blockNumber`. */
    function GetMemoryBlockData(blockNumber: int, offset: int): (r: Result<int, Fault>)
      reads this, dataMemory
      ensures r.Ok? <==> 0 <= blockNumber < dataMemory.Length && 0 <= offset < |dataMemory[blockNumber]|
      ensures r.Ok? ==> r.value == dataMemory[blockNumber][offset]
    {
      match GetMemoryBlock(blockNumber)
      case Err(e) => Err(e)
      case Ok(words) => if 0 <= offset < |words| then Ok(words[offset]) else Err(IndexOutOfBounds)
    }

    // The system-wide view the coherence transactions are stated over.

    ghost function ZeroLines(): (ls: seq<Line>)
      reads this, coreZeroCache, set i | 0 <= i < coreZeroCache.Length :: coreZeroCache[i]
      ensures |ls| == coreZeroCache.Length
      ensures forall i :: 0 <= i < |ls| ==> ls[i] == coreZeroCache[i].View()
    {
      seq(coreZeroCache.Length, i
        requires 0 <= i < coreZeroCache.Length
        reads coreZeroCache, set k | 0 <= k < coreZeroCache.Length :: coreZeroCache[k] => coreZeroCache[i].View())
    }

    ghost function OneLines(): (ls: seq<Line>)
      reads this, coreOneCache, set i | 0 <= i < coreOneCache.Length :: coreOneCache[i]
      ensures |ls| == coreOneCache.Length
      ensures forall i :: 0 <= i < |ls| ==> ls[i] == coreOneCache[i].View()
    {
      seq(coreOneCache.Length, i
        requires 0 <= i < coreOneCache.Length
        reads coreOneCache, set k | 0 <= k < coreOneCache.Length :: coreOneCache[k] => coreOneCache[i].View())
    }

    /** Both data caches and the data memory as values: what the coherence transactions change. */
    ghost function State(): Coherence.Caches
      reads this, coreZeroCache, coreOneCache, dataMemory
      reads set i | 0 <= i < coreZeroCache.Length :: coreZeroCache[i]
      reads set i | 0 <= i < coreOneCache.Length :: coreOneCache[i]
    {
      Coherence.Caches(ZeroLines(), OneLines(), dataMemory[..])
    }

    /**
     * The shape the simulator builds: 8 lines for core zero, 4 for core one, 24 memory blocks,
     * and every line a distinct object.
     */
    ghost predicate Valid()
      reads this, coreZeroCache, coreOneCache
    {
      coreZeroCache.Length == SimulationConstants.TOTAL_CORE_ZERO_CACHE_POSITIONS
      && coreOneCache.Length == SimulationConstants.TOTAL_FIRST_CORE_CACHE_POSITIONS
      && dataMemory.Length == SimulationConstants.TOTAL_DATA_BLOCKS
      && (forall i, j :: 0 <= i < j < coreZeroCache.Length ==> coreZeroCache[i] != coreZeroCache[j])
      && (forall i, j :: 0 <= i < j < coreOneCache.Length ==> coreOneCache[i] != coreOneCache[j])
      && (forall i, j :: 0 <= i < coreZeroCache.Length && 0 <= j < coreOneCache.Length ==>
            coreZeroCache[i] != coreOneCache[j])
    }
  }
}
