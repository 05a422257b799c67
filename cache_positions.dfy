/**
 * Cache lines. A data cache position holds a tag, the words of one data block, a coherence
 * state and an owner-checked lock; an instruction cache position holds a tag and an
 * instruction block (or none).
 */
module CachePositions {
  import opened Wrappers
  import opened Exceptions
  import Locks
  import Blocks

  /** The MSI states of a data cache line. */
  datatype CachePositionState = Shared | Modified | Invalid

  /** The value of a data line: what the coherence transactions read and write. */
  datatype Line = Line(tag: int, words: seq<int>, state: CachePositionState)

  /**
   * The block is held by value: every helper that moves a block between memory and a line
   * copies it, so no two lines or memory slots ever share one array.
   */
  class DataCachePosition {
    var tag: int
    var dataBlock: seq<int>
    var state: CachePositionState
    var owner: Option<Locks.ThreadId>

    constructor(tag: int, dataBlock: seq<int>, state: CachePositionState)
      ensures this.tag == tag && this.dataBlock == dataBlock && this.state == state
      ensures owner == None
    {
      this.tag := tag;
      this.dataBlock := dataBlock;
      this.state := state;
      owner := None;
    }

    function View(): (l: Line)
      reads this
      ensures l.tag == tag && l.words == dataBlock && l.state == state
    {
      Line(tag, dataBlock, state)
    }

    method TryLock(caller: Locks.ThreadId) returns (r: Result<bool, Fault>)
      modifies this
      ensures View() == old(View())
      ensures match Locks.TryLock(old(owner), caller)
              case Ok(a) => r == Ok(a.acquired) && owner == a.holder
              case Err(e) => r == Err(e) && owner == old(owner)
    {
      var a := Locks.TryLock(owner, caller);
      match a
      case Ok(attempt) =>
        owner := attempt.holder;
        r := Ok(attempt.acquired);
      case Err(e) =>
        r := Err(e);
    }

    /**
     * The retry loop `while (!tryLock()) advanceClockCycle();` with its outcome supplied: the
     * holder faults at once; anyone else ends up holding the lock (the failed attempts before
     * that are counted by the caller).
     */
    method LockRetrying(caller: Locks.ThreadId) returns (r: Result<(), Fault>)
      modifies this
      ensures View() == old(View())
      ensures old(owner) == Some(caller) ==> r == Err(TryLockException) && owner == old(owner)
      ensures old(owner) != Some(caller) ==> r == Ok(()) && owner == Some(caller)
    {
      if owner == Some(caller) {
        return Err(TryLockException);
      }
      owner := Some(caller);
      r := Ok(());
    }

    method Unlock(caller: Locks.ThreadId) returns (r: Result<(), Fault>)
      modifies this
      ensures View() == old(View())
      ensures match Locks.Unlock(old(owner), caller)
              case Ok(h) => r == Ok(()) && owner == h
              case Err(e) => r == Err(e) && owner == old(owner)
    {
      var u := Locks.Unlock(owner, caller);
      match u
      case Ok(h) =>
        owner := h;
        r := Ok(());
      case Err(e) =>
        r := Err(e);
    }

    method SetTag(tag: int)
      modifies this
      ensures this.tag == tag
      ensures dataBlock == old(dataBlock) && state == old(state) && owner == old(owner)
    {
      this.tag := tag;
    }

    method SetDataBlock(dataBlock: seq<int>)
      modifies this
      ensures this.dataBlock == dataBlock
      ensures tag == old(tag) && state == old(state) && owner == old(owner)
    {
      this.dataBlock := dataBlock;
    }

    method SetState(state: CachePositionState)
      modifies this
      ensures this.state == state
      ensures tag == old(tag) && dataBlock == old(dataBlock) && owner == old(owner)
    {
      this.state := state;
    }

    /** `getDataBlock().getWords()[offset] = value`: one word of the line's own block changes. */
    method StoreWord(offset: int, value: int)
      requires 0 <= offset < |dataBlock|
      modifies this
      ensures dataBlock == old(dataBlock)[offset := value]
      ensures tag == old(tag) && state == old(state) && owner == old(owner)
    {
      dataBlock := dataBlock[offset := value];
    }
  }

  class InstructionCachePosition {
    var tag: int
    var instructionBlock: Option<Blocks.InstructionBlock>

    constructor(tag: int, instructionBlock: Option<Blocks.InstructionBlock>)
      ensures this.tag == tag && this.instructionBlock == instructionBlock
    {
      this.tag := tag;
      this.instructionBlock := instructionBlock;
    }

    method SetTag(tag: int)
      modifies this
      ensures this.tag == tag && instructionBlock == old(instructionBlock)
    {
      this.tag := tag;
    }

    method SetInstructionBlock(instructionBlock: Option<Blocks.InstructionBlock>)
      modifies this
      ensures this.instructionBlock == instructionBlock && tag == old(tag)
    {
      this.instructionBlock := instructionBlock;
    }
  }
}
