/**
 * Core zero, the latency-hiding core, and its miss handler. While a miss handler thread serves
 * a cache miss for one context, the core runs another; its data cache line b mod 8 is kept
 * coherent with core one's line b mod 4 by the MSI transactions below. Every method is one
 * atomic step of a simulated thread: a lock retry loop takes its outcome as an input, and the
 * clock cycles a transaction spends inside are counted and returned.
 */
module Core {
  import opened Wrappers
  import opened Exceptions
  import Locks
  import C = SimulationConstants
  import JavaInt
  import Blocks
  import opened CachePositions
  import opened Memory
  import opened Contexts
  import IC = InstructionCache
  import Coherence
  import AC = AbstractCore
  import opened Scheduling

  datatype MissType = Instruction | Load | Store | StoreHit

  /** The state a data miss starts from, as far as its outcome depends on it. */
  datatype DataEntry = DataEntry(lines: Coherence.Transaction, registers: seq<int>, reservation: Reservation,
                                 busOwner: Option<Locks.ThreadId>)

  /**
   * How a data miss ended (solved, unsolved, or a fault), and block b's lines and the
   * registers it leaves.
   */
  datatype DataOutcome = DataOutcome(result: Result<bool, Fault>, lines: Coherence.Transaction, registers: seq<int>)

  /**
   * How a load or store pass ends: done (a load hit), or with the line held and a miss of the
   * given type to enter for it (the block, the line, the word offset, and the target register of
   * a load or the value of a store).
   */
  datatype Access = Done | Pending(missType: MissType, blockNumber: int, position: int, offset: int, operand: int)

  /**
   * How the body of one `executeCore` iteration ends: the instruction completed and the closing
   * clock cycle ended with `signal`, or a load or store stopped at a miss it has yet to enter.
   */
  datatype StepEnd = Completed(signal: Signal) | Stalled(access: Access)

  /**
   * Whether the word access that ends a data miss stays inside its arrays: the word offset
   * inside the block and, for a load, the target register inside the register file.
   */
  predicate WordInRange(missType: MissType, offset: int, operand: int, registerCount: int) {
    0 <= offset < C.TOTAL_DATA_BLOCK_WORDS && (missType == Load ==> 0 <= operand < registerCount)
  }

  /**
   * The outcome of a data miss of the given type started from `entry` by context
   * `contextNumber`. It goes ahead exactly when the line needed no bus (a store hit on a
   * MODIFIED line) or the reservation and the bus could both be had; otherwise it is unsolved
   * and changes nothing. One that goes ahead changes the lines as its transaction says, a load
   * also writing the word into its register, unless the word access at its end falls outside
   * the block or the registers: then it faults, with the lines as they were just before the
   * access and the registers untouched. A load or store miss on a block beyond the memory
   * faults earlier, in its fill, with the lines and the memory as `FillBeyondMemory` leaves
   * them after the eviction.
   */
  ghost function MissOutcomeOf(missType: MissType, blockNumber: int, offset: int, operand: int, contextNumber: int,
                               entry: DataEntry): (o: DataOutcome)
    requires missType != Instruction && Coherence.Shaped(entry.lines, blockNumber)
    ensures missType != Load ==> o.registers == entry.registers
    ensures o.result == Ok(false) ==> o.lines == entry.lines && o.registers == entry.registers
    ensures o.result != Ok(false) <==> (missType == StoreHit && entry.lines.local.state == Modified)
                                       || (!ReservedByOther(entry.reservation, contextNumber) && entry.busOwner.None?)
    ensures o.result.Err? <==> o.result != Ok(false)
                               && (!WordInRange(missType, offset, operand, |entry.registers|)
                                   || (missType != StoreHit && !(0 <= blockNumber < |entry.lines.memory|)))
    ensures o.result.Err? ==> o.result.error == IndexOutOfBounds && o.registers == entry.registers
  {
    var before := entry.lines;
    var granted := !ReservedByOther(entry.reservation, contextNumber) && entry.busOwner.None?;
    var inRange := WordInRange(missType, offset, operand, |entry.registers|);
    match missType
    case Load =>
      if !granted then DataOutcome(Ok(false), before, entry.registers)
      else if !(0 <= blockNumber < |before.memory|)
      then DataOutcome(Err(IndexOutOfBounds),
                       Coherence.FillBeyondMemory(before.local, before.peer,
                                                  Coherence.Evict(before.memory, before.local, blockNumber), blockNumber, false),
                       entry.registers)
      else
        var t := Coherence.LoadMissAsWritten(before.local, before.peer, before.memory, blockNumber);
        Coherence.LoadMissKeepsShape(before.local, before.peer, before.memory, blockNumber);
        if inRange then DataOutcome(Ok(true), t, entry.registers[operand := t.local.words[offset]])
        else DataOutcome(Err(IndexOutOfBounds), t, entry.registers)
    case Store =>
      if !granted then DataOutcome(Ok(false), before, entry.registers)
      else if !(0 <= blockNumber < |before.memory|)
      then DataOutcome(Err(IndexOutOfBounds),
                       Coherence.FillBeyondMemory(before.local, before.peer,
                                                  Coherence.Evict(before.memory, before.local, blockNumber), blockNumber, true),
                       entry.registers)
      else if inRange
      then DataOutcome(Ok(true), Coherence.StoreMiss(before.local, before.peer, before.memory, blockNumber, offset, operand),
                       entry.registers)
      else DataOutcome(Err(IndexOutOfBounds),
                       Coherence.StoreFill(before.local, before.peer,
                                           Coherence.Evict(before.memory, before.local, blockNumber), blockNumber),
                       entry.registers)
    case StoreHit =>
      if before.local.state != Modified && !granted then DataOutcome(Ok(false), before, entry.registers)
      else if inRange
      then DataOutcome(Ok(true), Coherence.StoreHitAsWritten(before.local, before.peer, before.memory, blockNumber, offset,
                                                             operand), entry.registers)
      else if before.local.state == Modified then DataOutcome(Err(IndexOutOfBounds), before, entry.registers)
      else DataOutcome(Err(IndexOutOfBounds), Coherence.StoreHitUpgradeAsWritten(before.local, before.peer, before.memory, blockNumber),
                       entry.registers)
  }

  // ---------------------------------------------------------------- assumed data-cache helpers

  /**
   * Assumed `writeBlockToMemory`: memory block `line.tag` becomes a copy of the line's words.
   * A tag outside the memory faults at the array store (as `DataBus.getMemoryBlock` would),
   * before anything changes.
   */
  method WriteBlockToMemory(bus: DataBus, line: DataCachePosition) returns (r: Result<(), Fault>)
    modifies bus.dataMemory
    ensures r.Ok? <==> 0 <= line.tag < bus.dataMemory.Length
    ensures r.Ok? ==> bus.dataMemory[..] == Coherence.WriteBack(old(bus.dataMemory[..]), line.View())
    ensures r.Err? ==> r.error == IndexOutOfBounds && bus.dataMemory[..] == old(bus.dataMemory[..])
  {
    if !(0 <= line.tag < bus.dataMemory.Length) {
      return Err(IndexOutOfBounds);
    }
    bus.dataMemory[line.tag] := line.dataBlock;
    r := Ok(());
  }

  /**
   * Assumed `getBlockFromMemory`: the line gets tag b and a copy of memory block b. A block
   * outside the memory faults in `DataBus.getMemoryBlock` (DataBus.java:30), which the helper
   * is taken to call before it touches the line.
   */
  method GetBlockFromMemory(bus: DataBus, blockNumber: int, line: DataCachePosition) returns (r: Result<(), Fault>)
    modifies line
    ensures r.Ok? <==> 0 <= blockNumber < bus.dataMemory.Length
    ensures r.Ok? ==> line.View() == Coherence.Fetch(bus.dataMemory[..], blockNumber, old(line.View()))
    ensures r.Err? ==> r.error == IndexOutOfBounds && line.View() == old(line.View())
    ensures line.owner == old(line.owner)
  {
    if !(0 <= blockNumber < bus.dataMemory.Length) {
      return Err(IndexOutOfBounds);
    }
    line.SetTag(blockNumber);
    line.SetDataBlock(bus.dataMemory[blockNumber]);
    r := Ok(());
  }

  /** Assumed `setPositionFromAnother`: the line takes the other line's tag and a copy of its words. */
  method SetPositionFromAnother(line: DataCachePosition, other: DataCachePosition)
    requires line != other
    modifies line
    ensures line.View() == Coherence.CopyFrom(old(line.View()), other.View())
    ensures line.owner == old(line.owner)
  {
    line.SetTag(other.tag);
    line.SetDataBlock(other.dataBlock);
  }

  /** The write-back of the line's block when it holds another block in MODIFIED. */
  method EvictLine(bus: DataBus, line: DataCachePosition, blockNumber: int)
    requires line.state == Modified ==> 0 <= line.tag < bus.dataMemory.Length
    modifies bus.dataMemory
    ensures bus.dataMemory[..] == Coherence.Evict(old(bus.dataMemory[..]), line.View(), blockNumber)
  {
    if line.tag != blockNumber && line.state == Modified {
      var written := WriteBlockToMemory(bus, line);
    }
  }

  /**
   * The fill of a load miss: a MODIFIED peer copy is written back, copied and demoted to SHARED;
   * else memory is read. A block outside the memory faults at the write-back or the read,
   * before either line changes.
   */
  method LoadFill(bus: DataBus, line: DataCachePosition, peer: DataCachePosition, blockNumber: int)
    returns (r: Result<(), Fault>)
    requires line != peer
    modifies bus.dataMemory, line, peer
    ensures r.Ok? <==> 0 <= blockNumber < bus.dataMemory.Length
    ensures r.Ok? ==>
              Coherence.Transaction(line.View(), peer.View(), bus.dataMemory[..])
              == Coherence.LoadFill(old(line.View()), old(peer.View()), old(bus.dataMemory[..]), blockNumber)
    ensures r.Err? ==>
              r.error == IndexOutOfBounds
              && Coherence.Transaction(line.View(), peer.View(), bus.dataMemory[..])
                 == Coherence.FillBeyondMemory(old(line.View()), old(peer.View()), old(bus.dataMemory[..]), blockNumber, false)
    ensures line.owner == old(line.owner) && peer.owner == old(peer.owner)
  {
    if peer.tag == blockNumber && peer.state == Modified {
      r := WriteBlockToMemory(bus, peer);
      if r.Err? {
        return;
      }
      SetPositionFromAnother(line, peer);
      peer.SetState(Shared);
    } else {
      r := GetBlockFromMemory(bus, blockNumber, line);
    }
  }

  /**
   * The fill of a store miss: a peer that lacks the block (or holds it INVALID) leaves the block
   * to memory; a MODIFIED peer copy is written back, invalidated and copied; a SHARED one is
   * invalidated and memory is read. The line ends MODIFIED. A block outside the memory faults
   * at the write-back or the read: only a SHARED peer copy has been invalidated by then.
   */
  method StoreFill(bus: DataBus, line: DataCachePosition, peer: DataCachePosition, blockNumber: int)
    returns (r: Result<(), Fault>)
    requires line != peer
    modifies bus.dataMemory, line, peer
    ensures r.Ok? <==> 0 <= blockNumber < bus.dataMemory.Length
    ensures r.Ok? ==>
              Coherence.Transaction(line.View(), peer.View(), bus.dataMemory[..])
              == Coherence.StoreFill(old(line.View()), old(peer.View()), old(bus.dataMemory[..]), blockNumber)
    ensures r.Err? ==>
              r.error == IndexOutOfBounds
              && Coherence.Transaction(line.View(), peer.View(), bus.dataMemory[..])
                 == Coherence.FillBeyondMemory(old(line.View()), old(peer.View()), old(bus.dataMemory[..]), blockNumber, true)
    ensures line.owner == old(line.owner) && peer.owner == old(peer.owner)
  {
    if peer.tag != blockNumber || peer.state == Invalid {
      r := GetBlockFromMemory(bus, blockNumber, line);
      if r.Err? {
        return;
      }
      line.SetState(Modified);
    } else if peer.state == Modified {
      r := WriteBlockToMemory(bus, peer);
      if r.Err? {
        return;
      }
      peer.SetState(Invalid);
      SetPositionFromAnother(line, peer);
      line.SetState(Modified);
    } else {
      peer.SetState(Invalid);
      r := GetBlockFromMemory(bus, blockNumber, line);
      if r.Err? {
        return;
      }
      line.SetState(Modified);
    }
  }

  class CoreZero {
    const thread: Locks.ThreadId
    const maxQuantum: int
    const coreNumber: int
    const contextQueue: ContextQueue
    const dataBus: DataBus
    const instructionCache: IC.InstructionCache

    var currentContext: Context
    var waitingContext: Option<Context>
    var nextContext: Option<Context>
    var changeContext: ContextChange
    var executionFinished: bool
    var instructionFinished: bool
    var contextFinished: bool
    var contextWaitingForReservation: bool
    var missHandler: Option<MissHandler>
    var reservedDataCachePosition: Reservation
    var reservedInstructionCachePosition: int

    /** The slots and flags the context-change rules read and write. */
    ghost function Schedule(): Slots<Context>
      reads this
    {
      Slots(currentContext, waitingContext, nextContext, changeContext, executionFinished,
            instructionFinished, contextFinished, contextWaitingForReservation)
    }

    ghost predicate Valid()
      reads this, dataBus, dataBus.coreZeroCache, dataBus.coreOneCache
      reads instructionCache, instructionCache.instructionCachePositions
    {
      Ready(Schedule()) && coreNumber == 0 && dataBus.Valid() && instructionCache.Valid()
    }

    constructor(thread: Locks.ThreadId, maxQuantum: int, startingContext: Context,
                contextQueue: ContextQueue, instructionBus: InstructionBus, dataBus: DataBus, coreNumber: int)
      ensures this.thread == thread && this.maxQuantum == maxQuantum && this.coreNumber == coreNumber
      ensures this.contextQueue == contextQueue && this.dataBus == dataBus
      ensures currentContext == startingContext && waitingContext == None && nextContext == None
      ensures changeContext == NoChange && !executionFinished && instructionFinished
      ensures !contextFinished && !contextWaitingForReservation && missHandler == None
      ensures reservedDataCachePosition == NO_RESERVATION && reservedInstructionCachePosition == -1
      ensures fresh(instructionCache) && instructionCache.instructionBus == instructionBus
      ensures instructionCache.instructionCachePositions.Length == C.TOTAL_CORE_ZERO_CACHE_POSITIONS
      ensures instructionCache.Valid()
    {
      this.thread := thread;
      this.maxQuantum := maxQuantum;
      this.coreNumber := coreNumber;
      this.contextQueue := contextQueue;
      this.dataBus := dataBus;
      instructionCache := new IC.InstructionCache(instructionBus, C.TOTAL_CORE_ZERO_CACHE_POSITIONS);
      currentContext := startingContext;
      waitingContext := None;
      nextContext := None;
      changeContext := NoChange;
      executionFinished := false;
      instructionFinished := true;
      contextFinished := false;
      contextWaitingForReservation := false;
      missHandler := None;
      reservedDataCachePosition := NO_RESERVATION;
      reservedInstructionCachePosition := -1;
    }

    // -------------------------------------------------------------- context changes

    /**
     * `changeContext`: carries out the pending request on the slots as `ApplyChange` says, and
     * rewinds the outgoing context's PC when a swap catches it in mid-instruction.
     */
    method ChangeContext() returns (signal: Signal)
      requires Ready(Schedule())
      modifies this, currentContext
      ensures (Schedule(), signal) == ApplyChange(old(Schedule()))
      ensures old(currentContext).View() ==
                old(currentContext.View()).(programCounter :=
                  if Rewinds(old(Schedule())) then JavaInt.Wrap(old(currentContext.programCounter) - 4)
                  else old(currentContext.programCounter))
      ensures missHandler == old(missHandler) && reservedDataCachePosition == old(reservedDataCachePosition)
      ensures reservedInstructionCachePosition == old(reservedInstructionCachePosition)
    {
      if executionFinished && changeContext == SwapContexts {
        changeContext := NoChange;
        return Proceed;
      }
      var previous := changeContext;
      match changeContext {
        case SwapContexts =>
          if !instructionFinished {
            currentContext.DecrementPC();
          }
          var temp := currentContext;
          currentContext := waitingContext.value;
          waitingContext := Some(temp);
        case BringWaiting =>
          currentContext := waitingContext.value;
          waitingContext := None;
        case NextContext =>
          currentContext := nextContext.value;
          nextContext := None;
        case NoChange =>
      }
      changeContext := NoChange;
      if previous != NoChange {
        contextFinished := false;
        contextWaitingForReservation := false;
        instructionFinished := true;
        signal := Interrupted;
      } else {
        signal := Proceed;
      }
    }

    /** `advanceClockCycle`: the running context spends a cycle, then the pending change is carried out. */
    method AdvanceClockCycle() returns (signal: Signal)
      requires Ready(Schedule())
      modifies this, currentContext
      ensures (Schedule(), signal) == ApplyChange(old(Schedule()))
      ensures old(currentContext).View() ==
                old(currentContext.View()).(executionTics := JavaInt.Wrap(old(currentContext.executionTics) + 1),
                  programCounter :=
                    if Rewinds(old(Schedule())) then JavaInt.Wrap(old(currentContext.programCounter) - 4)
                    else old(currentContext.programCounter))
      ensures missHandler == old(missHandler) && reservedDataCachePosition == old(reservedDataCachePosition)
      ensures reservedInstructionCachePosition == old(reservedInstructionCachePosition)
    {
      currentContext.IncrementClockCycle();
      signal := ChangeContext();
    }

    /** `solvedMiss`: asks to swap the handler's context back in, under `SolvedMissRule`. */
    method SolvedMiss()
      requires waitingContext.Some?
      modifies this
      ensures Schedule() == old(Schedule()).(change := changeContext)
      ensures changeContext == SolvedMissRule(old(waitingContext).value.oldContext, contextFinished,
                                              contextWaitingForReservation, old(changeContext))
      ensures missHandler == old(missHandler) && reservedDataCachePosition == old(reservedDataCachePosition)
      ensures reservedInstructionCachePosition == old(reservedInstructionCachePosition)
    {
      if waitingContext.value.oldContext && !contextFinished && !contextWaitingForReservation
         && changeContext != BringWaiting {
        changeContext := SwapContexts;
      }
    }

    /** `finishMissHandlerExecution`: the swap-back rule, then the core has no helper any more. */
    method FinishMissHandlerExecution()
      requires waitingContext.Some?
      modifies this
      ensures Schedule() == old(Schedule()).(change := changeContext)
      ensures changeContext == SolvedMissRule(old(waitingContext).value.oldContext, contextFinished,
                                              contextWaitingForReservation, old(changeContext))
      ensures missHandler == None && reservedDataCachePosition == old(reservedDataCachePosition)
      ensures reservedInstructionCachePosition == old(reservedInstructionCachePosition)
    {
      SolvedMiss();
      missHandler := None;
    }

    // -------------------------------------------------------------- quantum expiry and FIN

    /**
     * The inherited `quantumExpired` (AbstractCore): with the queue locked, the head is taken as
     * the next context; the running context's quantum restarts at 0, and when a head was there
     * the running context is appended to the queue (not old), the head becomes old and
     * NEXT_CONTEXT is requested. The queue lock is released. A caller already holding the queue
     * lock faults at once.
     */
    method BaseQuantumExpired() returns (r: Result<(), Fault>)
      modifies this, contextQueue, currentContext
      modifies if |contextQueue.contents| > 0 then {contextQueue.contents[0]} else {}
      ensures old(contextQueue.owner) == Some(thread) ==>
                r == Err(TryLockException) && contextQueue.contents == old(contextQueue.contents)
                && Schedule() == old(Schedule()) && currentContext.View() == old(currentContext.View())
      ensures old(contextQueue.owner) != Some(thread) ==>
                r == Ok(()) && contextQueue.owner == None
                && currentContext == old(currentContext) && currentContext.currentQuantum == C.INITIAL_QUANTUM
                && nextContext == Poll(old(contextQueue.contents)).0
      ensures old(contextQueue.owner) != Some(thread) && |old(contextQueue.contents)| == 0 ==>
                contextQueue.contents == [] && changeContext == old(changeContext)
                && currentContext.View() == old(currentContext.View()).(currentQuantum := C.INITIAL_QUANTUM)
      ensures old(contextQueue.owner) != Some(thread) && |old(contextQueue.contents)| > 0 ==>
                contextQueue.contents == old(contextQueue.contents)[1..] + [old(currentContext)]
                && changeContext == NextContext && nextContext.value.oldContext
                && (nextContext.value != currentContext ==> !currentContext.oldContext)
      ensures Schedule() == old(Schedule()).(next := nextContext, change := changeContext)
      ensures missHandler == old(missHandler) && reservedDataCachePosition == old(reservedDataCachePosition)
      ensures reservedInstructionCachePosition == old(reservedInstructionCachePosition)
      ensures currentContext == old(currentContext) && currentContext.registers == old(currentContext.registers)
      ensures currentContext.programCounter == old(currentContext.programCounter)
      ensures currentContext.finishingCore == old(currentContext.finishingCore)
      ensures r.Err? ==> currentContext.currentQuantum == old(currentContext.currentQuantum)
    {
      var locked := contextQueue.LockRetrying(thread);
      if locked.Err? {
        return Err(locked.error);
      }
      var n := contextQueue.GetNextContext(thread);
      nextContext := if n.Ok? then n.value else None;
      currentContext.SetCurrentQuantum(C.INITIAL_QUANTUM);
      if nextContext.Some? {
        currentContext.SetOldContext(false);
        nextContext.value.SetOldContext(true);
        contextQueue.PushContext(currentContext);
        changeContext := NextContext;
      }
      var unlocked := contextQueue.Unlock(thread);
      r := Ok(());
    }

    /**
     * `quantumExpired` of core zero: the running context counts as finished; with no waiting
     * context the inherited rule applies. Otherwise the running context goes back to the queue
     * with its quantum restarted and BRING_WAITING is requested; its old flag is cleared and then
     * set again, so it ends old.
     */
    method QuantumExpired() returns (r: Result<(), Fault>)
      modifies this, contextQueue, currentContext
      modifies if |contextQueue.contents| > 0 then {contextQueue.contents[0]} else {}
      ensures contextFinished
      ensures old(contextQueue.owner) == Some(thread) ==>
                r == Err(TryLockException) && contextQueue.contents == old(contextQueue.contents)
                && Schedule() == old(Schedule()).(contextFinished := true)
      ensures old(contextQueue.owner) != Some(thread) ==>
                r == Ok(()) && contextQueue.owner == None && currentContext == old(currentContext)
                && currentContext.currentQuantum == C.INITIAL_QUANTUM
      ensures old(waitingContext).None? && old(contextQueue.owner) != Some(thread) ==>
                nextContext == Poll(old(contextQueue.contents)).0
                && (|old(contextQueue.contents)| > 0 ==>
                      contextQueue.contents == old(contextQueue.contents)[1..] + [old(currentContext)]
                      && changeContext == NextContext)
                && (|old(contextQueue.contents)| == 0 ==>
                      contextQueue.contents == [] && changeContext == old(changeContext))
      ensures old(waitingContext).Some? && old(contextQueue.owner) != Some(thread) ==>
                contextQueue.contents == old(contextQueue.contents) + [old(currentContext)]
                && changeContext == BringWaiting && nextContext == old(nextContext)
                && currentContext.View() == old(currentContext.View()).(currentQuantum := C.INITIAL_QUANTUM, oldContext := true)
      ensures Schedule() == old(Schedule()).(next := nextContext, change := changeContext, contextFinished := true)
      ensures missHandler == old(missHandler) && reservedDataCachePosition == old(reservedDataCachePosition)
      ensures reservedInstructionCachePosition == old(reservedInstructionCachePosition)
      ensures currentContext == old(currentContext) && currentContext.registers == old(currentContext.registers)
      ensures currentContext.programCounter == old(currentContext.programCounter)
      ensures currentContext.finishingCore == old(currentContext.finishingCore)
      ensures r.Err? ==> currentContext.currentQuantum == old(currentContext.currentQuantum)
    {
      contextFinished := true;
      if waitingContext.None? {
        r := BaseQuantumExpired();
        return;
      }
      var locked := contextQueue.LockRetrying(thread);
      if locked.Err? {
        return Err(locked.error);
      }
      currentContext.SetCurrentQuantum(C.INITIAL_QUANTUM);
      currentContext.SetOldContext(false);
      contextQueue.PushContext(currentContext);
      var unlocked := contextQueue.Unlock(thread);
      changeContext := BringWaiting;
      currentContext.SetOldContext(true);
      r := Ok(());
    }

    /**
     * The inherited `modifiableFINExecution` (AbstractCore): with the queue locked, the head is
     * taken as the next context; an empty queue ends the core's execution, a head is requested
     * with NEXT_CONTEXT. The lock is released.
     */
    method BaseModifiableFINExecution() returns (r: Result<(), Fault>)
      modifies this, contextQueue
      ensures contextQueue.owner == (if old(contextQueue.owner) == Some(thread) then old(contextQueue.owner) else None)
      ensures old(contextQueue.owner) == Some(thread) <==> r == Err(TryLockException)
      ensures r.Err? ==> Schedule() == old(Schedule()) && contextQueue.contents == old(contextQueue.contents)
      ensures r.Ok? ==> nextContext == Poll(old(contextQueue.contents)).0
                        && contextQueue.contents == Poll(old(contextQueue.contents)).1
                        && (executionFinished <==> nextContext.None? || old(executionFinished))
                        && changeContext == (if nextContext.Some? then NextContext else old(changeContext))
      ensures Schedule() == old(Schedule()).(next := nextContext, change := changeContext,
                                              executionFinished := executionFinished)
      ensures missHandler == old(missHandler) && reservedDataCachePosition == old(reservedDataCachePosition)
      ensures reservedInstructionCachePosition == old(reservedInstructionCachePosition)
    {
      var locked := contextQueue.LockRetrying(thread);
      if locked.Err? {
        return Err(locked.error);
      }
      var n := contextQueue.GetNextContext(thread);
      nextContext := if n.Ok? then n.value else None;
      if nextContext.None? {
        executionFinished := true;
      } else {
        changeContext := NextContext;
      }
      var unlocked := contextQueue.Unlock(thread);
      r := Ok(());
    }

    /**
     * `modifiableFINExecution` of core zero: the running context counts as finished. A waiting
     * context is brought in (and marked old). Otherwise the queue head is requested with
     * NEXT_CONTEXT; with the queue empty the core finishes unless a miss handler is still at
     * work, in which case it waits for the handler to hand back its context (modelled as that
     * hand-back) and brings it in.
     */
    method ModifiableFINExecution() returns (r: Result<(), Fault>)
      modifies this, contextQueue, currentContext
      ensures contextFinished
      ensures old(waitingContext).None? ==>
                (old(contextQueue.owner) == Some(thread) <==> r == Err(TryLockException))
      ensures old(waitingContext).Some? ==>
                r == Ok(()) && changeContext == BringWaiting
                && contextQueue.contents == old(contextQueue.contents)
                && currentContext.View() == old(currentContext.View()).(oldContext := true)
      ensures old(waitingContext).None? && r.Ok? ==>
                contextQueue.owner == None
                && nextContext == Poll(old(contextQueue.contents)).0
                && contextQueue.contents == Poll(old(contextQueue.contents)).1
      ensures old(waitingContext).None? && r.Ok? && nextContext.Some? ==>
                changeContext == NextContext && !executionFinished == !old(executionFinished)
      ensures old(waitingContext).None? && r.Ok? && nextContext.None? && old(missHandler).None? ==>
                executionFinished && changeContext == old(changeContext)
      ensures old(waitingContext).None? && r.Ok? && nextContext.None? && old(missHandler).Some? ==>
                waitingContext == Some(old(missHandler).value.currentContext) && changeContext == BringWaiting
                && executionFinished == old(executionFinished)
                && currentContext.View() == old(currentContext.View()).(oldContext := true)
      ensures currentContext == old(currentContext) && missHandler == old(missHandler)
      ensures currentContext.View() == old(currentContext.View()).(oldContext := currentContext.oldContext)
      ensures reservedDataCachePosition == old(reservedDataCachePosition)
      ensures reservedInstructionCachePosition == old(reservedInstructionCachePosition)
      ensures old(Ready(Schedule())) && old(changeContext) != NextContext ==> Ready(Schedule())
    {
      contextFinished := true;
      if waitingContext.Some? {
        changeContext := BringWaiting;
        currentContext.SetOldContext(true);
        return Ok(());
      }
      var locked := contextQueue.LockRetrying(thread);
      if locked.Err? {
        return Err(locked.error);
      }
      var n := contextQueue.GetNextContext(thread);
      nextContext := if n.Ok? then n.value else None;
      if nextContext.None? {
        if missHandler.None? {
          executionFinished := true;
        } else {
          waitingContext := Some(missHandler.value.currentContext);
          changeContext := BringWaiting;
          currentContext.SetOldContext(true);
        }
      } else {
        changeContext := NextContext;
      }
      var unlocked := contextQueue.Unlock(thread);
      r := Ok(());
    }

    /** `executeFIN`: the FIN scheduling above, then the finishing core is recorded on the (still current) context. */
    method ExecuteFIN() returns (r: Result<(), Fault>)
      modifies this, contextQueue, currentContext
      ensures r.Ok? ==> old(currentContext).finishingCore == coreNumber
      ensures currentContext == old(currentContext) && contextFinished
      ensures currentContext.View() ==
                old(currentContext.View()).(oldContext := currentContext.oldContext,
                                            finishingCore := if r.Ok? then coreNumber else old(currentContext.finishingCore))
      ensures old(Ready(Schedule())) && old(changeContext) != NextContext ==> Ready(Schedule())
    {
      r := ModifiableFINExecution();
      if r.Ok? {
        currentContext.SetFinishingCore(coreNumber);
      }
    }

    // -------------------------------------------------------------- instruction execution

    /**
     * `executeInstruction` with the PC already past the instruction: the jump, branch and
     * arithmetic handlers write the running context's register array in place and set its PC,
     * as `AC.Execute` says; a load, a store and FIN are decoded only (their handlers follow), and
     * an opcode outside the instruction set faults.
     */
    method ExecuteInstruction(ins: Blocks.Instruction) returns (r: Result<AC.Effect, Fault>)
      requires ins.WellFormed()
      modifies currentContext, currentContext.registers
      ensures r == AC.Execute(ins, old(currentContext.registers[..]), old(currentContext.programCounter))
      ensures r.Ok? && r.value.Transfer? ==>
                currentContext.registers[..] == r.value.registers && currentContext.programCounter == r.value.pc
      ensures !(r.Ok? && r.value.Transfer?) ==>
                currentContext.registers[..] == old(currentContext.registers[..])
                && currentContext.programCounter == old(currentContext.programCounter)
      ensures currentContext.View() == old(currentContext.View()).(programCounter := currentContext.programCounter)
    {
      var regs := currentContext.registers;
      var op, f1, f2, f3 := ins.GetField(0), ins.GetField(1), ins.GetField(2), ins.GetField(3);
      var pc := currentContext.programCounter;
      if op == AC.JR {
        if !(0 <= f1 < regs.Length) {
          return Err(IndexOutOfBounds);
        }
        currentContext.SetProgramCounter(regs[f1]);
        r := Ok(AC.Transfer(regs[..], regs[f1]));
      } else if op == AC.JAL {
        if !(0 <= C.LINK_REGISTER < regs.Length) {
          return Err(IndexOutOfBounds);
        }
        regs[C.LINK_REGISTER] := pc;
        currentContext.SetProgramCounter(JavaInt.Wrap(pc + f3));
        r := Ok(AC.Transfer(regs[..], JavaInt.Wrap(pc + f3)));
      } else if op == AC.BEQZ || op == AC.BNEZ {
        if !(0 <= f1 < regs.Length) {
          return Err(IndexOutOfBounds);
        }
        if (op == AC.BEQZ && regs[f1] == 0) || (op == AC.BNEZ && regs[f1] != 0) {
          currentContext.SetProgramCounter(JavaInt.Wrap(pc + 4 * f3));
        }
        r := Ok(AC.Transfer(regs[..], currentContext.programCounter));
      } else if op == AC.DADDI {
        if !(0 <= f1 < regs.Length && 0 <= f2 < regs.Length) {
          return Err(IndexOutOfBounds);
        }
        regs[f2] := JavaInt.Wrap(regs[f1] + f3);
        r := Ok(AC.Transfer(regs[..], pc));
      } else if op == AC.DMUL || op == AC.DDIV || op == AC.DADD || op == AC.DSUB {
        if !(0 <= f1 < regs.Length && 0 <= f2 < regs.Length) {
          return Err(IndexOutOfBounds);
        }
        var x, y := regs[f1], regs[f2];
        if op == AC.DDIV && y == 0 {
          return Err(DivisionByZero);
        }
        if !(0 <= f3 < regs.Length) {
          return Err(IndexOutOfBounds);
        }
        regs[f3] := if op == AC.DMUL then JavaInt.Wrap(x * y)
                    else if op == AC.DDIV then JavaInt.Div(x, y)
                    else if op == AC.DADD then JavaInt.Wrap(x + y)
                    else JavaInt.Wrap(x - y);
        r := Ok(AC.Transfer(regs[..], pc));
      } else if op == AC.LW {
        if !(0 <= f1 < regs.Length) {
          return Err(IndexOutOfBounds);
        }
        r := Ok(AC.Load(AC.DataAddress(regs[f1], f3), f2));
      } else if op == AC.SW {
        if !(0 <= f1 < regs.Length && 0 <= f2 < regs.Length) {
          return Err(IndexOutOfBounds);
        }
        r := Ok(AC.Store(AC.DataAddress(regs[f1], f3), regs[f2]));
      } else if op == AC.FIN {
        r := Ok(AC.Finish);
      } else {
        r := Err(IllegalArgumentException);
      }
    }

    /**
     * One pass of `executeLW`'s loop: the block, word offset and line are computed from
     * R[f1] + f3, and the line is locked (the wait for another context's reservation is not
     * modelled; a lock the core already holds faults). On a hit the word goes into R[f2] and the
     * line is released; on a miss the line stays held for the load miss to enter.
     */
    method ExecuteLW(ins: Blocks.Instruction) returns (r: Result<Access, Fault>)
      requires ins.WellFormed() && dataBus.Valid()
      modifies currentContext.registers, dataBus.coreZeroCache[..]
      ensures var regs, f := old(currentContext.registers[..]), ins.instructionFields;
        !(0 <= f[1] < |regs|) ==> r == Err(IndexOutOfBounds) && currentContext.registers[..] == regs
      ensures var regs, f := old(currentContext.registers[..]), ins.instructionFields;
        0 <= f[1] < |regs| ==>
          var b := AC.CalculateDataBlockNumber(regs[f[1]], f[3]);
          var offset := AC.CalculateDataOffset(regs[f[1]], f[3]);
          var position := AC.CalculateCachePosition(b, coreNumber);
          (!(0 <= position < dataBus.coreZeroCache.Length) ==> r == Err(IndexOutOfBounds))
          && (0 <= position < dataBus.coreZeroCache.Length ==>
                var line := dataBus.coreZeroCache[position];
                line.View() == old(line.View())
                && (old(line.owner) == Some(thread) ==> r == Err(TryLockException))
                && (old(line.owner) != Some(thread) && (old(line.tag) != b || old(line.state) == Invalid) ==>
                      r == Ok(Pending(Load, b, position, offset, f[2])) && line.owner == Some(thread)
                      && currentContext.registers[..] == regs)
                && (old(line.owner) != Some(thread) && old(line.tag) == b && old(line.state) != Invalid ==>
                      var word := AC.Read(old(line.dataBlock), offset);
                      (word.Ok? && 0 <= f[2] < |regs| ==>
                         r == Ok(Done) && line.owner == None
                         && currentContext.registers[..] == regs[f[2] := word.value])
                      && (!(word.Ok? && 0 <= f[2] < |regs|) ==> r == Err(IndexOutOfBounds))))
    {
      var regs := currentContext.registers;
      var f1, f2, f3 := ins.GetField(1), ins.GetField(2), ins.GetField(3);
      if !(0 <= f1 < regs.Length) {
        return Err(IndexOutOfBounds);
      }
      var blockNumber := AC.CalculateDataBlockNumber(regs[f1], f3);
      var offset := AC.CalculateDataOffset(regs[f1], f3);
      var position := AC.CalculateCachePosition(blockNumber, coreNumber);
      if !(0 <= position < dataBus.coreZeroCache.Length) {
        return Err(IndexOutOfBounds);
      }
      var line := dataBus.coreZeroCache[position];
      var locked := line.LockRetrying(thread);
      if locked.Err? {
        return Err(locked.error);
      }
      if line.tag != blockNumber || line.state == Invalid {
        return Ok(Pending(Load, blockNumber, position, offset, f2));
      }
      if !(0 <= offset < |line.dataBlock| && 0 <= f2 < regs.Length) {
        return Err(IndexOutOfBounds);
      }
      regs[f2] := line.dataBlock[offset];
      var released := line.Unlock(thread);
      r := Ok(Done);
    }

    /**
     * One pass of `executeSW`'s loop: the block, word offset and line are computed from
     * R[f1] + f3 and the value is read from R[f2]; the line is locked as for a load. Either way
     * the line stays held: a miss enters a store miss and a hit enters a store hit.
     */
    method ExecuteSW(ins: Blocks.Instruction) returns (r: Result<Access, Fault>)
      requires ins.WellFormed() && dataBus.Valid()
      modifies dataBus.coreZeroCache[..]
      ensures var regs, f := currentContext.registers[..], ins.instructionFields;
        (!(0 <= f[1] < |regs|) ==> r == Err(IndexOutOfBounds))
        && (0 <= f[1] < |regs| ==>
              var b := AC.CalculateDataBlockNumber(regs[f[1]], f[3]);
              var offset := AC.CalculateDataOffset(regs[f[1]], f[3]);
              var position := AC.CalculateCachePosition(b, coreNumber);
              (!(0 <= position < dataBus.coreZeroCache.Length && 0 <= f[2] < |regs|) ==> r == Err(IndexOutOfBounds))
              && (0 <= position < dataBus.coreZeroCache.Length && 0 <= f[2] < |regs| ==>
                    var line := dataBus.coreZeroCache[position];
                    line.View() == old(line.View())
                    && (old(line.owner) == Some(thread) ==> r == Err(TryLockException))
                    && (old(line.owner) != Some(thread) ==>
                          line.owner == Some(thread)
                          && r == Ok(Pending(if old(line.tag) != b || old(line.state) == Invalid then Store else StoreHit,
                                             b, position, offset, regs[f[2]])))))
    {
      var regs := currentContext.registers;
      var f1, f2, f3 := ins.GetField(1), ins.GetField(2), ins.GetField(3);
      if !(0 <= f1 < regs.Length) {
        return Err(IndexOutOfBounds);
      }
      var blockNumber := AC.CalculateDataBlockNumber(regs[f1], f3);
      var offset := AC.CalculateDataOffset(regs[f1], f3);
      var position := AC.CalculateCachePosition(blockNumber, coreNumber);
      if !(0 <= position < dataBus.coreZeroCache.Length && 0 <= f2 < regs.Length) {
        return Err(IndexOutOfBounds);
      }
      var line := dataBus.coreZeroCache[position];
      var value := regs[f2];
      var locked := line.LockRetrying(thread);
      if locked.Err? {
        return Err(locked.error);
      }
      var missType := if line.tag != blockNumber || line.state == Invalid then Store else StoreHit;
      r := Ok(Pending(missType, blockNumber, position, offset, value));
    }

    /**
     * The body of `executeCore`'s loop for an instruction already fetched: the PC moves past it,
     * it runs with `instructionFinished` cleared (a load or store stopping at a miss ends the step
     * there), and `EndInstruction` closes the step.
     */
    method ExecuteCoreStep(ins: Blocks.Instruction) returns (r: Result<StepEnd, Fault>)
      requires Ready(Schedule()) && changeContext != NextContext && ins.WellFormed() && dataBus.Valid()
      modifies this, currentContext, currentContext.registers, dataBus.coreZeroCache[..], contextQueue
      modifies if |contextQueue.contents| > 0 then {contextQueue.contents[0]} else {}
      ensures var e := AC.Execute(ins, old(currentContext.registers[..]), JavaInt.Wrap(old(currentContext.programCounter) + 4));
        (e.Err? ==> r == Err(e.error))
        && (e.Ok? && e.value.Transfer? ==>
              r.Ok? ==> r.value.Completed?
                        && old(currentContext).registers[..] == e.value.registers
                        && old(currentContext).programCounter == e.value.pc)
      ensures r.Ok? && r.value.Completed? ==> instructionFinished
      ensures r.Ok? && r.value.Stalled? ==>
                r.value.access.Pending? && Schedule() == old(Schedule()).(instructionFinished := false)
                && old(currentContext).programCounter == JavaInt.Wrap(old(currentContext.programCounter) + 4)
      ensures var regs, f := old(currentContext.registers[..]), ins.instructionFields;
        var e := AC.Execute(ins, regs, JavaInt.Wrap(old(currentContext.programCounter) + 4));
        e.Ok? && e.value.Load? && r.Ok? ==>
          0 <= f[1] < |regs|
          && var b := AC.CalculateDataBlockNumber(regs[f[1]], f[3]);
          var offset := AC.CalculateDataOffset(regs[f[1]], f[3]);
          var position := AC.CalculateCachePosition(b, coreNumber);
          0 <= position < dataBus.coreZeroCache.Length
          && var line := dataBus.coreZeroCache[position];
          (r.value.Completed? <==> old(line.tag) == b && old(line.state) != Invalid)
          && (r.value.Completed? ==>
                0 <= f[2] < |regs| && AC.Read(old(line.dataBlock), offset).Ok? && line.owner == None
                && old(currentContext).registers[..] == regs[f[2] := AC.Read(old(line.dataBlock), offset).value])
          && (r.value.Stalled? ==>
                r.value.access == Pending(Load, b, position, offset, f[2]) && line.owner == Some(thread)
                && old(currentContext).registers[..] == regs)
      ensures var regs, f := old(currentContext.registers[..]), ins.instructionFields;
        var e := AC.Execute(ins, regs, JavaInt.Wrap(old(currentContext.programCounter) + 4));
        e.Ok? && e.value.Store? && r.Ok? ==>
          0 <= f[1] < |regs| && 0 <= f[2] < |regs|
          && var b := AC.CalculateDataBlockNumber(regs[f[1]], f[3]);
          var offset := AC.CalculateDataOffset(regs[f[1]], f[3]);
          var position := AC.CalculateCachePosition(b, coreNumber);
          0 <= position < dataBus.coreZeroCache.Length
          && var line := dataBus.coreZeroCache[position];
          line.owner == Some(thread)
          && r.value == Stalled(Pending(if old(line.tag) != b || old(line.state) == Invalid then Store else StoreHit,
                                        b, position, offset, regs[f[2]]))
      ensures var e := AC.Execute(ins, old(currentContext.registers[..]), JavaInt.Wrap(old(currentContext.programCounter) + 4));
        e.Ok? && e.value.Finish? && r.Ok? ==> old(currentContext).finishingCore == coreNumber
      ensures var e := AC.Execute(ins, old(currentContext.registers[..]), JavaInt.Wrap(old(currentContext.programCounter) + 4));
        e.Ok? && !e.value.Transfer? && r.Ok? ==>
          old(currentContext).programCounter == JavaInt.Wrap(old(currentContext.programCounter) + 4)
      ensures var counted := JavaInt.Wrap(old(currentContext.currentQuantum) + 1);
        r.Ok? && r.value.Completed? ==>
          old(currentContext).currentQuantum
          == if ins.instructionFields[0] != AC.FIN && counted >= maxQuantum then C.INITIAL_QUANTUM else counted
      ensures var e := AC.Execute(ins, old(currentContext.registers[..]), JavaInt.Wrap(old(currentContext.programCounter) + 4));
        var counted := JavaInt.Wrap(old(currentContext.currentQuantum) + 1);
        e.Ok? && !e.value.Finish? && counted < maxQuantum && r.Ok? && r.value.Completed? ==>
          (Schedule(), r.value.signal) == ApplyChange(old(Schedule()).(instructionFinished := true))
    {
      var effect := StartStep(ins);
      if effect.Err? {
        return Err(effect.error);
      }
      r := FinishStep(ins, effect.value);
    }

    /** The opening of a step: the PC moves past the instruction, the step is marked unfinished and the
        instruction's effect on the registers and PC is applied. */
    method StartStep(ins: Blocks.Instruction) returns (effect: Result<AC.Effect, Fault>)
      requires ins.WellFormed()
      modifies this, currentContext, currentContext.registers
      ensures effect == AC.Execute(ins, old(currentContext.registers[..]), JavaInt.Wrap(old(currentContext.programCounter) + 4))
      ensures Schedule() == old(Schedule()).(instructionFinished := false)
      ensures effect.Ok? && effect.value.Transfer? ==>
                currentContext.registers[..] == effect.value.registers && currentContext.programCounter == effect.value.pc
      ensures !(effect.Ok? && effect.value.Transfer?) ==>
                currentContext.registers[..] == old(currentContext.registers[..])
                && currentContext.programCounter == JavaInt.Wrap(old(currentContext.programCounter) + 4)
      ensures currentContext.View() == old(currentContext.View()).(programCounter := currentContext.programCounter)
    {
      currentContext.IncrementPC();
      instructionFinished := false;
      effect := ExecuteInstruction(ins);
    }

    /**
     * The rest of an `executeCore` iteration once the instruction has run: its handler, then,
     * unless a load or store stopped at a miss, `EndInstruction`.
     */
    method FinishStep(ins: Blocks.Instruction, effect: AC.Effect) returns (r: Result<StepEnd, Fault>)
      requires Ready(Schedule()) && changeContext != NextContext && ins.WellFormed() && dataBus.Valid()
      requires effect.Finish? <==> ins.instructionFields[0] == AC.FIN
      modifies this, currentContext, currentContext.registers, dataBus.coreZeroCache[..], contextQueue
      modifies if |contextQueue.contents| > 0 then {contextQueue.contents[0]} else {}
      ensures effect.Transfer? ==> r.Ok? ==> r.value.Completed?
      ensures !effect.Load? ==> old(currentContext).registers[..] == old(currentContext.registers[..])
      ensures old(currentContext).registers == old(currentContext.registers)
      ensures old(currentContext).programCounter == old(currentContext.programCounter)
      ensures r.Ok? && r.value.Completed? ==> instructionFinished
      ensures r.Ok? && r.value.Stalled? ==> r.value.access.Pending? && Schedule() == old(Schedule())
      ensures effect.Load? && r.Ok? ==>
          var regs, f := old(currentContext.registers[..]), ins.instructionFields;
          0 <= f[1] < |regs|
          && var b := AC.CalculateDataBlockNumber(regs[f[1]], f[3]);
          var offset := AC.CalculateDataOffset(regs[f[1]], f[3]);
          var position := AC.CalculateCachePosition(b, coreNumber);
          0 <= position < dataBus.coreZeroCache.Length
          && var line := dataBus.coreZeroCache[position];
          (r.value.Completed? <==> old(line.tag) == b && old(line.state) != Invalid)
          && (r.value.Completed? ==>
                0 <= f[2] < |regs| && AC.Read(old(line.dataBlock), offset).Ok? && line.owner == None
                && old(currentContext).registers[..] == regs[f[2] := AC.Read(old(line.dataBlock), offset).value])
          && (r.value.Stalled? ==>
                r.value.access == Pending(Load, b, position, offset, f[2]) && line.owner == Some(thread)
                && old(currentContext).registers[..] == regs)
      ensures effect.Store? && r.Ok? ==>
          var regs, f := old(currentContext.registers[..]), ins.instructionFields;
          0 <= f[1] < |regs| && 0 <= f[2] < |regs|
          && var b := AC.CalculateDataBlockNumber(regs[f[1]], f[3]);
          var offset := AC.CalculateDataOffset(regs[f[1]], f[3]);
          var position := AC.CalculateCachePosition(b, coreNumber);
          0 <= position < dataBus.coreZeroCache.Length
          && var line := dataBus.coreZeroCache[position];
          line.owner == Some(thread)
          && r.value == Stalled(Pending(if old(line.tag) != b || old(line.state) == Invalid then Store else StoreHit,
                                        b, position, offset, regs[f[2]]))
      ensures effect.Finish? && r.Ok? ==> old(currentContext).finishingCore == coreNumber
      ensures var counted := JavaInt.Wrap(old(currentContext.currentQuantum) + 1);
        r.Ok? && r.value.Completed? ==>
          old(currentContext).currentQuantum
          == if !effect.Finish? && counted >= maxQuantum then C.INITIAL_QUANTUM else counted
      ensures var counted := JavaInt.Wrap(old(currentContext.currentQuantum) + 1);
        !effect.Finish? && counted < maxQuantum && r.Ok? && r.value.Completed? ==>
          (Schedule(), r.value.signal) == ApplyChange(old(Schedule()).(instructionFinished := true))
    {
      var handled := HandleEffect(ins, effect);
      if handled.Err? {
        return Err(handled.error);
      }
      if handled.value.Some? {
        return Ok(Stalled(handled.value.value));
      }
      r := EndInstruction(ins.GetOperationCode());
    }

    /**
     * The handlers `executeInstruction` passes a load, a store and FIN to: a load that hits and
     * every other instruction return nothing, a load that misses and every store return the
     * access still to be served, with its line held. Only FIN touches the scheduling state.
     */
    method HandleEffect(ins: Blocks.Instruction, effect: AC.Effect) returns (r: Result<Option<Access>, Fault>)
      requires Ready(Schedule()) && changeContext != NextContext && ins.WellFormed() && dataBus.Valid()
      modifies this, currentContext, currentContext.registers, dataBus.coreZeroCache[..], contextQueue
      ensures currentContext == old(currentContext) && Ready(Schedule())
      ensures effect.Transfer? ==> r == Ok(None)
      ensures !effect.Load? ==> currentContext.registers[..] == old(currentContext.registers[..])
      ensures !effect.Finish? ==> contextQueue.contents == old(contextQueue.contents)
      ensures r.Ok? && r.value.Some? ==> r.value.value.Pending? && !effect.Finish?
      ensures !effect.Finish? ==> Schedule() == old(Schedule()) && currentContext.View() == old(currentContext.View())
      ensures effect.Load? && r.Ok? ==>
                var regs, f := old(currentContext.registers[..]), ins.instructionFields;
                0 <= f[1] < |regs|
                && var b := AC.CalculateDataBlockNumber(regs[f[1]], f[3]);
                var offset := AC.CalculateDataOffset(regs[f[1]], f[3]);
                var position := AC.CalculateCachePosition(b, coreNumber);
                0 <= position < dataBus.coreZeroCache.Length
                && var line := dataBus.coreZeroCache[position];
                (r.value.None? <==> old(line.tag) == b && old(line.state) != Invalid)
                && (r.value.None? ==>
                      0 <= f[2] < |regs| && AC.Read(old(line.dataBlock), offset).Ok? && line.owner == None
                      && currentContext.registers[..] == regs[f[2] := AC.Read(old(line.dataBlock), offset).value])
                && (r.value.Some? ==>
                      r.value.value == Pending(Load, b, position, offset, f[2]) && line.owner == Some(thread)
                      && currentContext.registers[..] == regs)
      ensures effect.Store? && r.Ok? ==>
                var regs, f := old(currentContext.registers[..]), ins.instructionFields;
                0 <= f[1] < |regs| && 0 <= f[2] < |regs|
                && var b := AC.CalculateDataBlockNumber(regs[f[1]], f[3]);
                var offset := AC.CalculateDataOffset(regs[f[1]], f[3]);
                var position := AC.CalculateCachePosition(b, coreNumber);
                0 <= position < dataBus.coreZeroCache.Length
                && var line := dataBus.coreZeroCache[position];
                line.owner == Some(thread)
                && r.value == Some(Pending(if old(line.tag) != b || old(line.state) == Invalid then Store else StoreHit,
                                           b, position, offset, regs[f[2]]))
      ensures effect.Finish? ==>
                contextFinished
                && currentContext.View() ==
                     old(currentContext.View()).(oldContext := currentContext.oldContext,
                                                 finishingCore := if r.Ok? then coreNumber else old(currentContext.finishingCore))
    {
      match effect {
        case Transfer(_, _) =>
          r := Ok(None);
        case Load(_, _) =>
          var access := ExecuteLW(ins);
          if access.Err? {
            return Err(access.error);
          }
          r := Ok(if access.value.Pending? then Some(access.value) else None);
        case Store(_, _) =>
          var access := ExecuteSW(ins);
          if access.Err? {
            return Err(access.error);
          }
          r := Ok(Some(access.value));
        case Finish =>
          var finished := ExecuteFIN();
          if finished.Err? {
            return Err(finished.error);
          }
          r := Ok(None);
      }
    }

    /**
     * The end of an `executeCore` iteration: the instruction is marked finished and counted
     * against the quantum; unless it was FIN, a used-up quantum expires; then the clock cycle
     * carries out any pending change. The finished mark keeps a swap in that cycle from
     * rewinding the PC, so a completed instruction is never repeated.
     */
    method EndInstruction(opcode: int) returns (r: Result<StepEnd, Fault>)
      requires Ready(Schedule()) && (opcode != AC.FIN ==> changeContext != NextContext)
      modifies this, currentContext, contextQueue
      modifies if opcode != AC.FIN && |contextQueue.contents| > 0 then {contextQueue.contents[0]} else {}
      ensures r.Ok? ==> r.value.Completed? && instructionFinished
      ensures var counted := JavaInt.Wrap(old(currentContext.currentQuantum) + 1);
        old(currentContext).currentQuantum
        == if opcode != AC.FIN && counted >= maxQuantum && r.Ok? then C.INITIAL_QUANTUM else counted
      ensures old(currentContext).programCounter == old(currentContext.programCounter)
      ensures old(currentContext).registers == old(currentContext.registers)
      ensures old(currentContext).finishingCore == old(currentContext.finishingCore)
      ensures var counted := JavaInt.Wrap(old(currentContext.currentQuantum) + 1);
        opcode == AC.FIN || counted < maxQuantum ==>
          r.Ok? && r.value.Completed?
          && (Schedule(), r.value.signal) == ApplyChange(old(Schedule()).(instructionFinished := true))
    {
      instructionFinished := true;
      currentContext.IncrementQuantum();
      if opcode != AC.FIN && currentContext.currentQuantum >= maxQuantum {
        var expired := QuantumExpired();
        if expired.Err? {
          return Err(expired.error);
        }
      }
      var signal := AdvanceClockCycle();
      r := Ok(Completed(signal));
    }

    /**
     * The catch clause of `executeCore`: after a clock cycle that switched contexts, the context
     * now running has its quantum checked at once.
     */
    method QuantumCheck() returns (r: Result<(), Fault>)
      modifies this, contextQueue, currentContext
      modifies if |contextQueue.contents| > 0 then {contextQueue.contents[0]} else {}
      ensures old(currentContext.currentQuantum) < maxQuantum ==>
                r == Ok(()) && Schedule() == old(Schedule()) && currentContext.View() == old(currentContext.View())
                && contextQueue.contents == old(contextQueue.contents)
      ensures old(currentContext.currentQuantum) >= maxQuantum ==>
                contextFinished && (r.Ok? ==> currentContext.currentQuantum == C.INITIAL_QUANTUM)
    {
      r := Ok(());
      if currentContext.currentQuantum >= maxQuantum {
        r := QuantumExpired();
      }
    }

    // -------------------------------------------------------------- cache misses

    /**
     * `solveInstructionMiss`: the target line is reserved while the block is brought from the
     * instruction bus (taken after `busFailures` failed attempts) and released afterwards. A
     * fault in the fill leaves the reservation in place, as the exception would.
     */
    method SolveInstructionMiss(blockNumber: int, position: int, caller: Locks.ThreadId, busFailures: nat)
      returns (r: Result<nat, Fault>)
      requires instructionCache.Valid()
      modifies this, instructionCache.instructionBus.lock
      modifies if 0 <= position < instructionCache.instructionCachePositions.Length
               then {instructionCache.instructionCachePositions[position]} else {}
      ensures InstructionFilled(blockNumber, position, old(instructionCache.instructionBus.lock.owner) == Some(caller), r.Ok?)
      ensures r.Ok? ==> r.value == busFailures + IC.FILL_CYCLES
      ensures reservedInstructionCachePosition == if r.Ok? then -1 else position
      ensures Schedule() == old(Schedule()) && missHandler == old(missHandler)
      ensures reservedDataCachePosition == old(reservedDataCachePosition)
    {
      reservedInstructionCachePosition := position;
      r := instructionCache.GetInstructionBlockFromMemory(blockNumber, position, caller, busFailures);
      if r.Ok? {
        reservedInstructionCachePosition := -1;
      }
    }

    /**
     * What an instruction fill leaves behind: it succeeds exactly when the filling thread did
     * not already hold the instruction bus, the block exists and the line does; then the line
     * holds the block under its number.
     */
    ghost predicate InstructionFilled(blockNumber: int, position: int, busHeldByCaller: bool, filled: bool)
      reads instructionCache, instructionCache.instructionCachePositions, instructionCache.instructionBus
      reads instructionCache.instructionBus.instructionMemory
      reads if 0 <= position < instructionCache.instructionCachePositions.Length
            then {instructionCache.instructionCachePositions[position]} else {}
    {
      var bus := instructionCache.instructionBus;
      (filled <==> !busHeldByCaller && bus.GetInstructionBlock(blockNumber).Ok?
                   && 0 <= position < instructionCache.instructionCachePositions.Length)
      && (filled ==>
            instructionCache.instructionCachePositions[position].tag == blockNumber
            && Ok(instructionCache.instructionCachePositions[position].instructionBlock)
               == bus.GetInstructionBlock(blockNumber))
    }

    /**
     * What a data miss on block b needs on entry: the block's lines ready for `caller`, the bus
     * not held by it, and for a store hit the line holding the block. The word offset and the
     * target register may lie anywhere; the miss faults on them at its end.
     */
    ghost predicate DataMissReady(missType: MissType, blockNumber: int, position: int, offset: int, operand: int,
                                  caller: Locks.ThreadId, registers: array<int>)
      reads dataBus, dataBus.coreZeroCache, dataBus.coreOneCache, dataBus.dataMemory, dataBus.lock
      reads if Coherence.HasLine(blockNumber) && coreNumber == 0 && dataBus.Valid()
            then {LocalPosition(blockNumber), PeerPosition(blockNumber)} else {}
    {
      LinesReady(blockNumber, caller) && position == Coherence.LocalIndex(blockNumber)
      && dataBus.lock.owner != Some(caller)
      && (missType == StoreHit ==>
            LocalPosition(blockNumber).tag == blockNumber && LocalPosition(blockNumber).state != Invalid)
    }

    /** What a data miss on block b starts from: its lines, the target registers, the reservation and the bus holder. */
    ghost function Entry(blockNumber: int, registers: array<int>): DataEntry
      requires Coherence.HasLine(blockNumber) && coreNumber == 0 && dataBus.Valid()
      reads this, dataBus, dataBus.coreZeroCache, dataBus.coreOneCache, dataBus.dataMemory, dataBus.lock, registers
      reads LocalPosition(blockNumber), PeerPosition(blockNumber)
    {
      DataEntry(Lines(blockNumber), registers[..], reservedDataCachePosition, dataBus.lock.owner)
    }

    /**
     * `solveMissLocally`: the miss is served by the core's own thread for its running context,
     * through the routine for its type. An instruction fill can only fault; a data miss may come
     * back unsolved, or fault at its word access with the local line held, and, unless it was a
     * store hit on a MODIFIED line, the bus too.
     */
    method SolveMissLocally(missType: MissType, blockNumber: int, position: int, offset: int, operand: int,
                            busFailures: nat, peerFailures: nat) returns (r: Result<bool, Fault>)
      requires missType == Instruction ==> instructionCache.Valid()
      requires missType != Instruction ==>
                 DataMissReady(missType, blockNumber, position, offset, operand, thread, currentContext.registers)
      modifies this, instructionCache.instructionBus.lock
      modifies if missType == Instruction && 0 <= position < instructionCache.instructionCachePositions.Length
               then {instructionCache.instructionCachePositions[position]} else {}
      modifies if missType != Instruction
               then {dataBus.lock, dataBus.dataMemory, LocalPosition(blockNumber), PeerPosition(blockNumber),
                     currentContext.registers}
               else {}
      ensures missType == Instruction ==>
                InstructionFilled(blockNumber, position, old(instructionCache.instructionBus.lock.owner) == Some(thread), r.Ok?) && (r.Ok? ==> r.value)
                && reservedInstructionCachePosition == (if r.Ok? then -1 else position)
                && reservedDataCachePosition == old(reservedDataCachePosition)
      ensures missType != Instruction ==> dataBus.Valid()
      ensures missType != Instruction ==>
                DataOutcome(r, Lines(blockNumber), old(currentContext.registers)[..])
                   == MissOutcomeOf(missType, blockNumber, offset, operand, old(currentContext.contextNumber),
                                    old(Entry(blockNumber, currentContext.registers)))
                && reservedDataCachePosition ==
                     ReservationAfter(old(reservedDataCachePosition), position, currentContext.contextNumber, r == Ok(true),
                                      missType == StoreHit && old(LocalPosition(blockNumber).state) == Modified)
                && LocalPosition(blockNumber).owner == (if r.Ok? then None else Some(thread))
                && (r.Err? && !(missType == StoreHit && old(LocalPosition(blockNumber).state) == Modified) ==>
                      dataBus.lock.owner == Some(thread))
                && reservedInstructionCachePosition == old(reservedInstructionCachePosition)
      ensures Schedule() == old(Schedule()) && missHandler == old(missHandler)
    {
      match missType
      case Instruction =>
        var filled := SolveInstructionMiss(blockNumber, position, thread, busFailures);
        r := if filled.Ok? then Ok(true) else Err(filled.error);
      case Load =>
        var cycles;
        r, cycles := SolveDataLoadMiss(blockNumber, offset, position, operand, thread, currentContext, peerFailures);
      case Store =>
        var cycles;
        r, cycles := SolveDataStoreMiss(blockNumber, offset, position, operand, thread, currentContext, peerFailures);
      case StoreHit =>
        var cycles;
        r, cycles := SolveDataStoreHit(blockNumber, position, offset, operand, thread, currentContext, peerFailures);
    }

    /**
     * A new miss handler takes over the miss for the running context, `change` is posted, and
     * the data line is released (an instruction miss holds none).
     */
    method StartHelper(missType: MissType, blockNumber: int, position: int, offset: int, operand: int,
                       helperThread: Locks.ThreadId, change: ContextChange)
      requires missType != Instruction ==>
                 DataMissReady(missType, blockNumber, position, offset, operand, thread, currentContext.registers)
      modifies this
      modifies if missType != Instruction then {LocalPosition(blockNumber)} else {}
      ensures missHandler.Some? && fresh(missHandler.value)
      ensures missHandler.value.Serves(this, currentContext, missType, blockNumber, position, offset, operand, helperThread)
      ensures Schedule() == old(Schedule()).(change := change)
      ensures missType != Instruction ==>
                dataBus.Valid() && LocalPosition(blockNumber).owner == None && Lines(blockNumber) == old(Lines(blockNumber))
      ensures reservedDataCachePosition == old(reservedDataCachePosition)
      ensures reservedInstructionCachePosition == old(reservedInstructionCachePosition)
      ensures contextQueue.contents == old(contextQueue.contents) && contextQueue.owner == old(contextQueue.owner)
    {
      var helper := new MissHandler(this, currentContext, missType, blockNumber, position, offset, operand, helperThread);
      missHandler := Some(helper);
      changeContext := change;
      if missType != Instruction {
        var released := LocalPosition(blockNumber).Unlock(thread);
      }
    }

    /**
     * The queue branch of `enterCacheMiss`, with the queue locked by the core: a head becomes
     * the next context and a helper takes the miss with NEXT_CONTEXT posted; an empty queue
     * leaves the core to solve the miss itself. The queue is released unless a fault cut the
     * branch short.
     */
    method QueueBranch(missType: MissType, blockNumber: int, position: int, offset: int, operand: int,
                       helperThread: Locks.ThreadId, busFailures: nat, peerFailures: nat)
      returns (r: Result<bool, Fault>)
      requires missType == Instruction ==> instructionCache.Valid()
      requires missType != Instruction ==>
                 DataMissReady(missType, blockNumber, position, offset, operand, thread, currentContext.registers)
      requires contextQueue.owner == Some(thread)
      modifies this, contextQueue, instructionCache.instructionBus.lock
      modifies if missType == Instruction && 0 <= position < instructionCache.instructionCachePositions.Length
               then {instructionCache.instructionCachePositions[position]} else {}
      modifies if missType != Instruction
               then {dataBus.lock, dataBus.dataMemory, LocalPosition(blockNumber), PeerPosition(blockNumber),
                     currentContext.registers}
               else {}
      ensures contextQueue.contents == Poll(old(contextQueue.contents)).1
      ensures contextQueue.owner == if r.Ok? then None else old(contextQueue.owner)
      ensures |old(contextQueue.contents)| > 0 ==>
                r == Ok(true) && missHandler.Some? && fresh(missHandler.value)
                && missHandler.value.Serves(this, currentContext, missType, blockNumber, position, offset, operand,
                                            helperThread)
                && Schedule() == old(Schedule()).(next := Some(old(contextQueue.contents)[0]), change := NextContext)
      ensures |old(contextQueue.contents)| == 0 ==>
                Schedule() == old(Schedule()).(next := None) && missHandler == old(missHandler)
      ensures |old(contextQueue.contents)| == 0 && missType == Instruction ==>
                InstructionFilled(blockNumber, position, old(instructionCache.instructionBus.lock.owner) == Some(thread), r.Ok?) && (r.Ok? ==> r.value)
                && reservedInstructionCachePosition == (if r.Ok? then -1 else position)
      ensures |old(contextQueue.contents)| == 0 && missType != Instruction ==>
                dataBus.Valid()
                && DataOutcome(r, Lines(blockNumber), old(currentContext.registers)[..])
                   == MissOutcomeOf(missType, blockNumber, offset, operand, old(currentContext.contextNumber),
                                    old(Entry(blockNumber, currentContext.registers)))
                && reservedDataCachePosition ==
                     ReservationAfter(old(reservedDataCachePosition), position, currentContext.contextNumber, r == Ok(true),
                                      missType == StoreHit && old(LocalPosition(blockNumber).state) == Modified)
                && LocalPosition(blockNumber).owner == (if r.Ok? then None else Some(thread))
      ensures missType != Instruction ==> dataBus.Valid() && (r.Ok? ==> LocalPosition(blockNumber).owner == None)
    {
      r := MissFromQueue(missType, blockNumber, position, offset, operand, helperThread, busFailures, peerFailures);
      if r.Ok? {
        var unlocked := contextQueue.Unlock(thread);
      }
    }

    /** The queue branch with the queue still held: the pop and the miss served with its result. */
    method MissFromQueue(missType: MissType, blockNumber: int, position: int, offset: int, operand: int,
                         helperThread: Locks.ThreadId, busFailures: nat, peerFailures: nat)
      returns (r: Result<bool, Fault>)
      requires missType == Instruction ==> instructionCache.Valid()
      requires missType != Instruction ==>
                 DataMissReady(missType, blockNumber, position, offset, operand, thread, currentContext.registers)
      requires contextQueue.owner == Some(thread)
      modifies this, contextQueue, instructionCache.instructionBus.lock
      modifies if missType == Instruction && 0 <= position < instructionCache.instructionCachePositions.Length
               then {instructionCache.instructionCachePositions[position]} else {}
      modifies if missType != Instruction
               then {dataBus.lock, dataBus.dataMemory, LocalPosition(blockNumber), PeerPosition(blockNumber),
                     currentContext.registers}
               else {}
      ensures contextQueue.contents == Poll(old(contextQueue.contents)).1
      ensures contextQueue.owner == old(contextQueue.owner)
      ensures |old(contextQueue.contents)| > 0 ==>
                r == Ok(true) && missHandler.Some? && fresh(missHandler.value)
                && missHandler.value.Serves(this, currentContext, missType, blockNumber, position, offset, operand,
                                            helperThread)
                && Schedule() == old(Schedule()).(next := Some(old(contextQueue.contents)[0]), change := NextContext)
      ensures |old(contextQueue.contents)| == 0 ==>
                Schedule() == old(Schedule()).(next := None) && missHandler == old(missHandler)
      ensures |old(contextQueue.contents)| == 0 && missType == Instruction ==>
                InstructionFilled(blockNumber, position, old(instructionCache.instructionBus.lock.owner) == Some(thread), r.Ok?) && (r.Ok? ==> r.value)
                && reservedInstructionCachePosition == (if r.Ok? then -1 else position)
      ensures |old(contextQueue.contents)| == 0 && missType != Instruction ==>
                dataBus.Valid()
                && DataOutcome(r, Lines(blockNumber), old(currentContext.registers)[..])
                   == MissOutcomeOf(missType, blockNumber, offset, operand, old(currentContext.contextNumber),
                                    old(Entry(blockNumber, currentContext.registers)))
                && reservedDataCachePosition ==
                     ReservationAfter(old(reservedDataCachePosition), position, currentContext.contextNumber, r == Ok(true),
                                      missType == StoreHit && old(LocalPosition(blockNumber).state) == Modified)
                && LocalPosition(blockNumber).owner == (if r.Ok? then None else Some(thread))
      ensures missType != Instruction ==> dataBus.Valid() && (r.Ok? ==> LocalPosition(blockNumber).owner == None)
    {
      var n := contextQueue.GetNextContext(thread);
      var head := if n.Ok? then n.value else None;
      r := ServeMiss(missType, blockNumber, position, offset, operand, helperThread, busFailures, peerFailures, head);
    }

    /** The queue branch after the pop: a helper when a next context was found, the core's own solve otherwise. */
    method ServeMiss(missType: MissType, blockNumber: int, position: int, offset: int, operand: int,
                     helperThread: Locks.ThreadId, busFailures: nat, peerFailures: nat, head: Option<Context>)
      returns (r: Result<bool, Fault>)
      requires missType == Instruction ==> instructionCache.Valid()
      requires missType != Instruction ==>
                 DataMissReady(missType, blockNumber, position, offset, operand, thread, currentContext.registers)
      modifies this, instructionCache.instructionBus.lock
      modifies if missType == Instruction && 0 <= position < instructionCache.instructionCachePositions.Length
               then {instructionCache.instructionCachePositions[position]} else {}
      modifies if missType != Instruction
               then {dataBus.lock, dataBus.dataMemory, LocalPosition(blockNumber), PeerPosition(blockNumber),
                     currentContext.registers}
               else {}
      ensures head.Some? ==>
                r == Ok(true) && missHandler.Some? && fresh(missHandler.value)
                && missHandler.value.Serves(this, currentContext, missType, blockNumber, position, offset, operand,
                                            helperThread)
                && Schedule() == old(Schedule()).(next := head, change := NextContext)
      ensures head.None? ==> Schedule() == old(Schedule()).(next := None) && missHandler == old(missHandler)
      ensures head.None? && missType == Instruction ==>
                InstructionFilled(blockNumber, position, old(instructionCache.instructionBus.lock.owner) == Some(thread),
                                  r.Ok?)
                && (r.Ok? ==> r.value) && reservedInstructionCachePosition == (if r.Ok? then -1 else position)
      ensures head.None? && missType != Instruction ==>
                dataBus.Valid()
                && DataOutcome(r, Lines(blockNumber), old(currentContext.registers)[..])
                   == MissOutcomeOf(missType, blockNumber, offset, operand, old(currentContext.contextNumber),
                                    old(Entry(blockNumber, currentContext.registers)))
                && reservedDataCachePosition ==
                     ReservationAfter(old(reservedDataCachePosition), position, currentContext.contextNumber, r == Ok(true),
                                      missType == StoreHit && old(LocalPosition(blockNumber).state) == Modified)
                && LocalPosition(blockNumber).owner == (if r.Ok? then None else Some(thread))
      ensures missType != Instruction ==> dataBus.Valid() && (r.Ok? ==> LocalPosition(blockNumber).owner == None)
    {
      if head.Some? {
        StartHelper(missType, blockNumber, position, offset, operand, helperThread, NextContext);
        r := Ok(true);
      } else {
        r := SolveMissLocally(missType, blockNumber, position, offset, operand, busFailures, peerFailures);
      }
      nextContext := head;
    }

    /**
     * `enterCacheMiss` up to its last clock cycle. With a waiting context, a helper takes the
     * miss and BRING_WAITING is posted. Otherwise, with a helper already at work, the running
     * context waits for the reservation and the miss stays unsolved. Otherwise the queue branch
     * runs; a queue lock already held by the core faults.
     */
    method DispatchMiss(missType: MissType, blockNumber: int, position: int, offset: int, operand: int,
                        helperThread: Locks.ThreadId, busFailures: nat, peerFailures: nat)
      returns (r: Result<bool, Fault>)
      requires missType == Instruction ==> instructionCache.Valid()
      requires missType != Instruction ==>
                 DataMissReady(missType, blockNumber, position, offset, operand, thread, currentContext.registers)
      modifies this, contextQueue, instructionCache.instructionBus.lock
      modifies if missType == Instruction && 0 <= position < instructionCache.instructionCachePositions.Length
               then {instructionCache.instructionCachePositions[position]} else {}
      modifies if missType != Instruction
               then {dataBus.lock, dataBus.dataMemory, LocalPosition(blockNumber), PeerPosition(blockNumber),
                     currentContext.registers}
               else {}
      ensures old(waitingContext).Some? ==>
                r == Ok(true) && missHandler.Some? && fresh(missHandler.value)
                && missHandler.value.Serves(this, currentContext, missType, blockNumber, position, offset, operand,
                                            helperThread)
                && contextQueue.contents == old(contextQueue.contents)
      ensures old(waitingContext).None? && old(missHandler).Some? ==>
                r == Ok(false)
                && missHandler == old(missHandler) && contextQueue.contents == old(contextQueue.contents)
      ensures old(waitingContext).None? && old(missHandler).None? && old(contextQueue.owner) == Some(thread) ==>
                r == Err(TryLockException) && Schedule() == old(Schedule())
      ensures !(old(waitingContext).None? && old(missHandler).None? && old(contextQueue.owner) == Some(thread)) ==>
                Schedule() == Dispatched(old(Schedule()), old(missHandler).Some?, Poll(old(contextQueue.contents)).0)
      ensures old(waitingContext).None? && old(missHandler).None? && old(contextQueue.owner) != Some(thread) ==>
                contextQueue.contents == Poll(old(contextQueue.contents)).1
                && contextQueue.owner == (if r.Ok? then None else Some(thread))
      ensures old(waitingContext).None? && old(missHandler).None? && old(contextQueue.owner) != Some(thread)
              && |old(contextQueue.contents)| > 0 ==>
                r == Ok(true) && missHandler.Some? && fresh(missHandler.value)
                && missHandler.value.Serves(this, currentContext, missType, blockNumber, position, offset, operand,
                                            helperThread)
      ensures old(waitingContext).None? && old(missHandler).None? && old(contextQueue.owner) != Some(thread)
              && |old(contextQueue.contents)| == 0 ==>
                missHandler == None
      ensures old(waitingContext).None? && old(missHandler).None? && old(contextQueue.owner) != Some(thread)
              && |old(contextQueue.contents)| == 0 && missType == Instruction ==>
                InstructionFilled(blockNumber, position, old(instructionCache.instructionBus.lock.owner) == Some(thread), r.Ok?) && (r.Ok? ==> r.value)
                && reservedInstructionCachePosition == (if r.Ok? then -1 else position)
      ensures old(waitingContext).None? && old(missHandler).None? && old(contextQueue.owner) != Some(thread)
              && |old(contextQueue.contents)| == 0 && missType != Instruction ==>
                dataBus.Valid()
                && DataOutcome(r, Lines(blockNumber), old(currentContext.registers)[..])
                   == MissOutcomeOf(missType, blockNumber, offset, operand, old(currentContext.contextNumber),
                                    old(Entry(blockNumber, currentContext.registers)))
                && reservedDataCachePosition ==
                     ReservationAfter(old(reservedDataCachePosition), position, currentContext.contextNumber, r == Ok(true),
                                      missType == StoreHit && old(LocalPosition(blockNumber).state) == Modified)
                && LocalPosition(blockNumber).owner == (if r.Ok? then None else Some(thread))
      ensures missType != Instruction && r.Ok? ==> dataBus.Valid() && LocalPosition(blockNumber).owner == None
    {
      if waitingContext.Some? {
        StartHelper(missType, blockNumber, position, offset, operand, helperThread, BringWaiting);
        r := Ok(true);
      } else if missHandler.Some? {
        contextWaitingForReservation := true;
        if missType != Instruction {
          var released := LocalPosition(blockNumber).Unlock(thread);
        }
        r := Ok(false);
      } else {
        var locked := contextQueue.LockRetrying(thread);
        if locked.Err? {
          return Err(locked.error);
        }
        r := QueueBranch(missType, blockNumber, position, offset, operand, helperThread, busFailures, peerFailures);
      }
    }

    /**
     * `enterCacheMiss`: the miss is dispatched as `DispatchMiss` says and a clock cycle follows,
     * which carries out whatever change the dispatch left pending (so a started helper always
     * ends the cycle with the context switched). A fault in the queue branch ends the call at
     * once. The model starts from a state with no NEXT_CONTEXT pending.
     */
    method EnterCacheMiss(missType: MissType, blockNumber: int, position: int, offset: int, operand: int,
                          helperThread: Locks.ThreadId, busFailures: nat, peerFailures: nat)
      returns (r: Result<bool, Fault>, signal: Signal)
      requires Ready(Schedule()) && changeContext != NextContext
      requires missType == Instruction ==> instructionCache.Valid()
      requires missType != Instruction ==>
                 DataMissReady(missType, blockNumber, position, offset, operand, thread, currentContext.registers)
      modifies this, currentContext, contextQueue, instructionCache.instructionBus.lock
      modifies if missType == Instruction && 0 <= position < instructionCache.instructionCachePositions.Length
               then {instructionCache.instructionCachePositions[position]} else {}
      modifies if missType != Instruction
               then {dataBus.lock, dataBus.dataMemory, LocalPosition(blockNumber), PeerPosition(blockNumber),
                     currentContext.registers}
               else {}
      ensures old(waitingContext).Some? ==> r == Ok(true)
      ensures old(waitingContext).None? && old(missHandler).Some? ==> r == Ok(false)
      ensures old(waitingContext).None? && old(missHandler).None? && old(contextQueue.owner) == Some(thread) ==>
                r == Err(TryLockException) && Schedule() == old(Schedule()) && signal == Proceed
      ensures old(waitingContext).None? && old(missHandler).None? && old(contextQueue.owner) != Some(thread) ==>
                contextQueue.contents == Poll(old(contextQueue.contents)).1
                && (|old(contextQueue.contents)| > 0 ==> r == Ok(true))
      ensures !(old(waitingContext).None? && old(missHandler).None? && old(contextQueue.owner) == Some(thread)) ==>
                var dispatched := Dispatched(old(Schedule()), old(missHandler).Some?, Poll(old(contextQueue.contents)).0);
                (r.Ok? ==> (Schedule(), signal) == ApplyChange(dispatched))
                && (r.Err? ==> Schedule() == dispatched && signal == Proceed)
    {
      r := DispatchMiss(missType, blockNumber, position, offset, operand, helperThread, busFailures, peerFailures);
      if r.Err? {
        return r, Proceed;
      }
      signal := AdvanceClockCycle();
    }

    /** `canMakeReservation`: the reservation passes to the caller's context unless another context holds it. */
    method CanMakeReservation(position: int, callingContext: Context) returns (ok: bool)
      modifies this
      ensures ok <==> Reserve(old(reservedDataCachePosition), position, callingContext.contextNumber).Some?
      ensures reservedDataCachePosition ==
                if ok then Reserve(old(reservedDataCachePosition), position, callingContext.contextNumber).value
                else old(reservedDataCachePosition)
      ensures Schedule() == old(Schedule()) && missHandler == old(missHandler)
      ensures reservedInstructionCachePosition == old(reservedInstructionCachePosition)
    {
      var reservingContext := reservedDataCachePosition.contextNumber;
      var contextNumber := callingContext.contextNumber;
      if reservingContext != -1 && reservingContext != contextNumber {
        return false;
      }
      reservedDataCachePosition := Reservation(position, contextNumber);
      ok := true;
    }

    // -------------------------------------------------------------- coherence transactions

    /** Block b's line in core zero's data cache. */
    function LocalPosition(blockNumber: int): (line: DataCachePosition)
      requires Coherence.HasLine(blockNumber) && dataBus.Valid()
      reads dataBus, dataBus.coreZeroCache, dataBus.coreOneCache
    {
      dataBus.coreZeroCache[Coherence.LocalIndex(blockNumber)]
    }

    /**
     * The peer line's number, found with core one's modulus, is block b's line there; for a
     * negative block with a line (a multiple of 8) both are line 0.
     */
    lemma PeerLine(blockNumber: int)
      requires Coherence.HasLine(blockNumber) && coreNumber == 0
      ensures AC.CalculateOtherDataCachePosition(blockNumber, coreNumber) == Coherence.PeerIndex(blockNumber)
    {
      if blockNumber < 0 {
        JavaInt.RemOfMultiple(blockNumber, C.TOTAL_FIRST_CORE_CACHE_POSITIONS);
      } else {
        JavaInt.SmallDivisor(blockNumber, C.TOTAL_FIRST_CORE_CACHE_POSITIONS);
      }
    }

    /** The peer line of block b, found as the load and store misses find it. */
    function PeerPosition(blockNumber: int): (peer: DataCachePosition)
      requires Coherence.HasLine(blockNumber) && coreNumber == 0 && dataBus.Valid()
      reads dataBus, dataBus.coreZeroCache, dataBus.coreOneCache
      ensures peer == dataBus.coreOneCache[Coherence.PeerIndex(blockNumber)]
    {
      PeerLine(blockNumber);
      dataBus.GetOtherCachePosition(coreNumber, AC.CalculateOtherDataCachePosition(blockNumber, coreNumber)).value
    }

    /** What a transaction on block b may change: its two lines and the data memory. */
    ghost function Lines(blockNumber: int): Coherence.Transaction
      requires Coherence.HasLine(blockNumber) && coreNumber == 0 && dataBus.Valid()
      reads dataBus, dataBus.coreZeroCache, dataBus.coreOneCache, dataBus.dataMemory
      reads LocalPosition(blockNumber), PeerPosition(blockNumber)
    {
      Coherence.Transaction(LocalPosition(blockNumber).View(), PeerPosition(blockNumber).View(), dataBus.dataMemory[..])
    }

    /**
     * Block b's lines as a data transaction finds them: in the system's shape, and the caller
     * holding the local line but not the peer line.
     */
    ghost predicate LinesReady(blockNumber: int, caller: Locks.ThreadId)
      reads dataBus, dataBus.coreZeroCache, dataBus.coreOneCache, dataBus.dataMemory
      reads if Coherence.HasLine(blockNumber) && coreNumber == 0 && dataBus.Valid()
            then {LocalPosition(blockNumber), PeerPosition(blockNumber)} else {}
    {
      coreNumber == 0 && dataBus.Valid() && Coherence.HasLine(blockNumber)
      && Coherence.Shaped(Lines(blockNumber), blockNumber)
      && LocalPosition(blockNumber).owner == Some(caller)
      && PeerPosition(blockNumber).owner != Some(caller)
    }

    /**
     * The part of `solveDataLoadMiss` done under the bus lock: the evicted block is written back,
     * the peer line is locked (after `peerFailures` failed attempts, one cycle each), the line is
     * filled from the peer or from memory as `LoadMissAsWritten` says, and the peer line is
     * released. For a block beyond the memory the fill faults after the eviction, with the peer
     * line still held.
     */
    method LoadMissOnBus(blockNumber: int, caller: Locks.ThreadId, peerFailures: nat)
      returns (r: Result<(), Fault>, cycles: nat)
      requires LinesReady(blockNumber, caller)
      modifies dataBus.dataMemory, LocalPosition(blockNumber), PeerPosition(blockNumber)
      ensures cycles == peerFailures + 1
      ensures r.Ok? <==> 0 <= blockNumber < C.TOTAL_DATA_BLOCKS
      ensures r.Ok? ==>
                Lines(blockNumber) ==
                  Coherence.LoadMissAsWritten(old(Lines(blockNumber)).local, old(Lines(blockNumber)).peer,
                                              old(Lines(blockNumber)).memory, blockNumber)
                && PeerPosition(blockNumber).owner == None
      ensures r.Err? ==>
                r.error == IndexOutOfBounds && PeerPosition(blockNumber).owner == Some(caller)
                && Lines(blockNumber) ==
                     Coherence.FillBeyondMemory(old(Lines(blockNumber)).local, old(Lines(blockNumber)).peer,
                                                Coherence.Evict(old(Lines(blockNumber)).memory, old(Lines(blockNumber)).local,
                                                                blockNumber), blockNumber, false)
      ensures LocalPosition(blockNumber).owner == Some(caller)
    {
      var line := LocalPosition(blockNumber);
      var peer := PeerPosition(blockNumber);
      EvictLine(dataBus, line, blockNumber);
      var locked := peer.LockRetrying(caller);
      cycles := peerFailures + 1;
      r := LoadFill(dataBus, line, peer, blockNumber);
      if r.Err? {
        return;
      }
      var released := peer.Unlock(caller);
    }

    /**
     * The rest of `solveDataLoadMiss` once the caller holds the bus: the fill, the word copied
     * into the target register, and the bus and the local line released. A block beyond the
     * memory faults in the fill, with the peer line held as well; a word offset outside the
     * block or a target register outside the registers faults at the copy, which comes after
     * the fill and the release of the peer line. Either way the bus and the local line stay held.
     */
    method LoadMissHoldingBus(blockNumber: int, positionOffset: int, finalRegister: int,
                              caller: Locks.ThreadId, callingContext: Context, peerFailures: nat)
      returns (r: Result<(), Fault>, cycles: nat)
      requires LinesReady(blockNumber, caller) && dataBus.lock.owner == Some(caller)
      modifies dataBus.lock, dataBus.dataMemory, callingContext.registers
      modifies LocalPosition(blockNumber), PeerPosition(blockNumber)
      ensures cycles == peerFailures + 1
      ensures 0 <= blockNumber < C.TOTAL_DATA_BLOCKS ==>
                Lines(blockNumber) ==
                  Coherence.LoadMissAsWritten(old(Lines(blockNumber)).local, old(Lines(blockNumber)).peer,
                                              old(Lines(blockNumber)).memory, blockNumber)
                && PeerPosition(blockNumber).owner == None
      ensures !(0 <= blockNumber < C.TOTAL_DATA_BLOCKS) ==>
                Lines(blockNumber) ==
                  Coherence.FillBeyondMemory(old(Lines(blockNumber)).local, old(Lines(blockNumber)).peer,
                                             Coherence.Evict(old(Lines(blockNumber)).memory, old(Lines(blockNumber)).local,
                                                             blockNumber), blockNumber, false)
                && PeerPosition(blockNumber).owner == Some(caller)
      ensures r.Ok? <==> 0 <= blockNumber < C.TOTAL_DATA_BLOCKS
                         && WordInRange(Load, positionOffset, finalRegister, callingContext.registers.Length)
      ensures r.Ok? ==>
                callingContext.registers[..] ==
                  old(callingContext.registers[..])[finalRegister := Lines(blockNumber).local.words[positionOffset]]
                && dataBus.lock.owner == None && LocalPosition(blockNumber).owner == None
      ensures r.Err? ==>
                r.error == IndexOutOfBounds && callingContext.registers[..] == old(callingContext.registers[..])
                && dataBus.lock.owner == Some(caller) && LocalPosition(blockNumber).owner == Some(caller)
    {
      var line := LocalPosition(blockNumber);
      ghost var before := Lines(blockNumber);
      var filled;
      filled, cycles := LoadMissOnBus(blockNumber, caller, peerFailures);
      if filled.Err? {
        return filled, cycles;
      }
      Coherence.LoadMissKeepsShape(before.local, before.peer, before.memory, blockNumber);
      if !(0 <= positionOffset < |line.dataBlock|) || !(0 <= finalRegister < callingContext.registers.Length) {
        return Err(IndexOutOfBounds), cycles;
      }
      callingContext.registers[finalRegister] := line.dataBlock[positionOffset];
      var busReleased := dataBus.lock.Unlock(caller);
      var lineReleased := line.Unlock(caller);
      r := Ok(());
    }

    /**
     * `solveDataLoadMiss`. Another context's reservation or a busy bus makes it give up: the local
     * line is released and nothing else changes (the reservation is kept when the bus was busy).
     * Otherwise block b's lines and the memory change as `LoadMissAsWritten` says; then the
     * target register receives the word and every lock and the reservation are released, or,
     * when the word or the register lies outside its array, it faults with the bus, the local
     * line and the reservation still held. A block beyond the memory faults in the fill, after
     * the eviction, with the peer line held too.
     */
    method SolveDataLoadMiss(blockNumber: int, positionOffset: int, position: int, finalRegister: int,
                             caller: Locks.ThreadId, callingContext: Context, peerFailures: nat)
      returns (r: Result<bool, Fault>, cycles: nat)
      requires LinesReady(blockNumber, caller) && position == Coherence.LocalIndex(blockNumber)
      requires dataBus.lock.owner != Some(caller)
      modifies this, dataBus.lock, dataBus.dataMemory, callingContext.registers
      modifies LocalPosition(blockNumber), PeerPosition(blockNumber)
      ensures r != Ok(false) <==> !ReservedByOther(old(reservedDataCachePosition), callingContext.contextNumber)
                                  && old(dataBus.lock.owner).None?
      ensures r.Err? <==> r != Ok(false) && !(0 <= blockNumber < C.TOTAL_DATA_BLOCKS
                                              && WordInRange(Load, positionOffset, finalRegister, callingContext.registers.Length))
      ensures r == Ok(true) <==> r != Ok(false) && 0 <= blockNumber < C.TOTAL_DATA_BLOCKS
                                 && WordInRange(Load, positionOffset, finalRegister, callingContext.registers.Length)
      ensures r == Ok(false) ==> cycles == 1 && Lines(blockNumber) == old(Lines(blockNumber))
                                 && dataBus.lock.owner == old(dataBus.lock.owner)
                                 && callingContext.registers[..] == old(callingContext.registers[..])
                                 && LocalPosition(blockNumber).owner == None
      ensures r == Ok(false) ==>
                reservedDataCachePosition ==
                  if ReservedByOther(old(reservedDataCachePosition), callingContext.contextNumber)
                  then old(reservedDataCachePosition) else Reservation(position, callingContext.contextNumber)
      ensures r != Ok(false) ==> cycles == peerFailures + 2
      ensures r != Ok(false) && 0 <= blockNumber < C.TOTAL_DATA_BLOCKS ==>
                PeerPosition(blockNumber).owner == None
                && Lines(blockNumber) ==
                     Coherence.LoadMissAsWritten(old(Lines(blockNumber)).local, old(Lines(blockNumber)).peer,
                                                 old(Lines(blockNumber)).memory, blockNumber)
      ensures r != Ok(false) && !(0 <= blockNumber < C.TOTAL_DATA_BLOCKS) ==>
                PeerPosition(blockNumber).owner == Some(caller)
                && Lines(blockNumber) ==
                     Coherence.FillBeyondMemory(old(Lines(blockNumber)).local, old(Lines(blockNumber)).peer,
                                                Coherence.Evict(old(Lines(blockNumber)).memory, old(Lines(blockNumber)).local,
                                                                blockNumber), blockNumber, false)
      ensures r == Ok(true) ==>
                reservedDataCachePosition == NO_RESERVATION
                && dataBus.lock.owner == None && LocalPosition(blockNumber).owner == None
                && callingContext.registers[..] ==
                     old(callingContext.registers[..])[finalRegister := Lines(blockNumber).local.words[positionOffset]]
      ensures r.Err? ==>
                r.error == IndexOutOfBounds && reservedDataCachePosition == Reservation(position, callingContext.contextNumber)
                && dataBus.lock.owner == Some(caller) && LocalPosition(blockNumber).owner == Some(caller)
                && callingContext.registers[..] == old(callingContext.registers[..])
      ensures Schedule() == old(Schedule()) && missHandler == old(missHandler)
      ensures reservedInstructionCachePosition == old(reservedInstructionCachePosition)
    {
      var line := dataBus.coreZeroCache[position];
      var reservingContext := reservedDataCachePosition.contextNumber;
      var contextNumber := callingContext.contextNumber;
      if reservingContext != -1 && reservingContext != contextNumber {
        var released := line.Unlock(caller);
        return Ok(false), 1;
      }
      reservedDataCachePosition := Reservation(position, contextNumber);
      var attempt := dataBus.lock.TryLock(caller);
      if attempt != Ok(true) {
        var released := line.Unlock(caller);
        return Ok(false), 1;
      }
      var done, spent := LoadMissHoldingBus(blockNumber, positionOffset, finalRegister, caller, callingContext, peerFailures);
      cycles := spent + 1;
      if done.Err? {
        return Err(done.error), cycles;
      }
      reservedDataCachePosition := NO_RESERVATION;
      r := Ok(true);
    }

    /**
     * The part of `solveDataStoreMiss` done under the bus lock: eviction, the peer line locked
     * after `peerFailures` failed attempts, the fill as `StoreFill` says, the peer released. For
     * a block beyond the memory the fill faults after the eviction, with the peer line still held.
     */
    method StoreMissOnBus(blockNumber: int, caller: Locks.ThreadId, peerFailures: nat)
      returns (r: Result<(), Fault>, cycles: nat)
      requires LinesReady(blockNumber, caller)
      modifies dataBus.dataMemory, LocalPosition(blockNumber), PeerPosition(blockNumber)
      ensures cycles == peerFailures + 1
      ensures r.Ok? <==> 0 <= blockNumber < C.TOTAL_DATA_BLOCKS
      ensures r.Ok? ==>
                Lines(blockNumber) ==
                  Coherence.StoreFill(old(Lines(blockNumber)).local, old(Lines(blockNumber)).peer,
                                      Coherence.Evict(old(Lines(blockNumber)).memory, old(Lines(blockNumber)).local, blockNumber),
                                      blockNumber)
                && PeerPosition(blockNumber).owner == None
      ensures r.Err? ==>
                r.error == IndexOutOfBounds && PeerPosition(blockNumber).owner == Some(caller)
                && Lines(blockNumber) ==
                     Coherence.FillBeyondMemory(old(Lines(blockNumber)).local, old(Lines(blockNumber)).peer,
                                                Coherence.Evict(old(Lines(blockNumber)).memory, old(Lines(blockNumber)).local,
                                                                blockNumber), blockNumber, true)
      ensures LocalPosition(blockNumber).owner == Some(caller)
    {
      var line := LocalPosition(blockNumber);
      var peer := PeerPosition(blockNumber);
      EvictLine(dataBus, line, blockNumber);
      var locked := peer.LockRetrying(caller);
      cycles := peerFailures + 1;
      r := StoreFill(dataBus, line, peer, blockNumber);
      if r.Err? {
        return;
      }
      var released := peer.Unlock(caller);
    }

    /**
     * The rest of `solveDataStoreMiss` once the caller holds the bus: the fill, the store, every
     * lock released. A block beyond the memory faults in the fill, with the peer line held as
     * well; a word offset outside the block faults at the store, after the fill and the release
     * of the peer line. Either way the bus and the local line stay held.
     */
    method StoreMissHoldingBus(blockNumber: int, positionOffset: int, value: int, caller: Locks.ThreadId,
                               peerFailures: nat) returns (r: Result<(), Fault>, cycles: nat)
      requires LinesReady(blockNumber, caller) && dataBus.lock.owner == Some(caller)
      modifies dataBus.lock, dataBus.dataMemory, LocalPosition(blockNumber), PeerPosition(blockNumber)
      ensures cycles == peerFailures + 1
      ensures r.Ok? <==> 0 <= blockNumber < C.TOTAL_DATA_BLOCKS && 0 <= positionOffset < C.TOTAL_DATA_BLOCK_WORDS
      ensures r.Ok? ==>
                Lines(blockNumber) ==
                  Coherence.StoreMiss(old(Lines(blockNumber)).local, old(Lines(blockNumber)).peer,
                                      old(Lines(blockNumber)).memory, blockNumber, positionOffset, value)
                && dataBus.lock.owner == None && LocalPosition(blockNumber).owner == None
                && PeerPosition(blockNumber).owner == None
      ensures r.Err? && 0 <= blockNumber < C.TOTAL_DATA_BLOCKS ==>
                Lines(blockNumber) ==
                  Coherence.StoreFill(old(Lines(blockNumber)).local, old(Lines(blockNumber)).peer,
                                      Coherence.Evict(old(Lines(blockNumber)).memory, old(Lines(blockNumber)).local,
                                                      blockNumber), blockNumber)
                && PeerPosition(blockNumber).owner == None
      ensures !(0 <= blockNumber < C.TOTAL_DATA_BLOCKS) ==>
                Lines(blockNumber) ==
                  Coherence.FillBeyondMemory(old(Lines(blockNumber)).local, old(Lines(blockNumber)).peer,
                                             Coherence.Evict(old(Lines(blockNumber)).memory, old(Lines(blockNumber)).local,
                                                             blockNumber), blockNumber, true)
                && PeerPosition(blockNumber).owner == Some(caller)
      ensures r.Err? ==>
                r.error == IndexOutOfBounds
                && dataBus.lock.owner == Some(caller) && LocalPosition(blockNumber).owner == Some(caller)
    {
      var line := LocalPosition(blockNumber);
      ghost var before := Lines(blockNumber);
      var filled;
      filled, cycles := StoreMissOnBus(blockNumber, caller, peerFailures);
      if filled.Err? {
        return filled, cycles;
      }
      Coherence.StoreFillKeepsShape(before.local, before.peer, before.memory, blockNumber);
      if !(0 <= positionOffset < |line.dataBlock|) {
        return Err(IndexOutOfBounds), cycles;
      }
      line.StoreWord(positionOffset, value);
      var busReleased := dataBus.lock.Unlock(caller);
      var lineReleased := line.Unlock(caller);
      r := Ok(());
    }

    /**
     * `solveDataStoreMiss`: gives up as the load miss does; otherwise block b's lines and the
     * memory change as `StoreMiss` says (the line ends MODIFIED with the word stored and the
     * peer copy INVALID) and every lock and the reservation are released, or, with the word
     * offset outside the block, the fill is done without the store and it faults with the bus,
     * the local line and the reservation still held. A block beyond the memory faults in the
     * fill, after the eviction, with the peer line held too.
     */
    method SolveDataStoreMiss(blockNumber: int, positionOffset: int, position: int, value: int,
                              caller: Locks.ThreadId, callingContext: Context, peerFailures: nat)
      returns (r: Result<bool, Fault>, cycles: nat)
      requires LinesReady(blockNumber, caller) && position == Coherence.LocalIndex(blockNumber)
      requires dataBus.lock.owner != Some(caller)
      modifies this, dataBus.lock, dataBus.dataMemory, LocalPosition(blockNumber), PeerPosition(blockNumber)
      ensures r != Ok(false) <==> !ReservedByOther(old(reservedDataCachePosition), callingContext.contextNumber)
                                  && old(dataBus.lock.owner).None?
      ensures r.Err? <==> r != Ok(false) && !(0 <= blockNumber < C.TOTAL_DATA_BLOCKS && 0 <= positionOffset < C.TOTAL_DATA_BLOCK_WORDS)
      ensures r == Ok(true) <==> r != Ok(false) && 0 <= blockNumber < C.TOTAL_DATA_BLOCKS
                                 && 0 <= positionOffset < C.TOTAL_DATA_BLOCK_WORDS
      ensures r == Ok(false) ==> cycles == 1 && Lines(blockNumber) == old(Lines(blockNumber))
                                 && dataBus.lock.owner == old(dataBus.lock.owner)
                                 && LocalPosition(blockNumber).owner == None
      ensures r == Ok(false) ==>
                reservedDataCachePosition ==
                  if ReservedByOther(old(reservedDataCachePosition), callingContext.contextNumber)
                  then old(reservedDataCachePosition) else Reservation(position, callingContext.contextNumber)
      ensures r != Ok(false) ==> cycles == peerFailures + 2
      ensures r == Ok(true) ==>
                reservedDataCachePosition == NO_RESERVATION
                && dataBus.lock.owner == None && LocalPosition(blockNumber).owner == None
                && PeerPosition(blockNumber).owner == None
                && Lines(blockNumber) ==
                     Coherence.StoreMiss(old(Lines(blockNumber)).local, old(Lines(blockNumber)).peer,
                                         old(Lines(blockNumber)).memory, blockNumber, positionOffset, value)
      ensures r.Err? ==>
                r.error == IndexOutOfBounds && reservedDataCachePosition == Reservation(position, callingContext.contextNumber)
                && dataBus.lock.owner == Some(caller) && LocalPosition(blockNumber).owner == Some(caller)
      ensures r.Err? && 0 <= blockNumber < C.TOTAL_DATA_BLOCKS ==>
                PeerPosition(blockNumber).owner == None
                && Lines(blockNumber) ==
                     Coherence.StoreFill(old(Lines(blockNumber)).local, old(Lines(blockNumber)).peer,
                                         Coherence.Evict(old(Lines(blockNumber)).memory, old(Lines(blockNumber)).local,
                                                         blockNumber), blockNumber)
      ensures r.Err? && !(0 <= blockNumber < C.TOTAL_DATA_BLOCKS) ==>
                PeerPosition(blockNumber).owner == Some(caller)
                && Lines(blockNumber) ==
                     Coherence.FillBeyondMemory(old(Lines(blockNumber)).local, old(Lines(blockNumber)).peer,
                                                Coherence.Evict(old(Lines(blockNumber)).memory, old(Lines(blockNumber)).local,
                                                                blockNumber), blockNumber, true)
      ensures Schedule() == old(Schedule()) && missHandler == old(missHandler)
      ensures reservedInstructionCachePosition == old(reservedInstructionCachePosition)
    {
      var line := dataBus.coreZeroCache[position];
      var reservingContext := reservedDataCachePosition.contextNumber;
      var contextNumber := callingContext.contextNumber;
      if reservingContext != -1 && reservingContext != contextNumber {
        var released := line.Unlock(caller);
        return Ok(false), 1;
      }
      reservedDataCachePosition := Reservation(position, contextNumber);
      var attempt := dataBus.lock.TryLock(caller);
      if attempt != Ok(true) {
        var released := line.Unlock(caller);
        return Ok(false), 1;
      }
      var done, spent := StoreMissHoldingBus(blockNumber, positionOffset, value, caller, peerFailures);
      cycles := spent + 1;
      if done.Err? {
        return Err(done.error), cycles;
      }
      reservedDataCachePosition := NO_RESERVATION;
      r := Ok(true);
    }

    /**
     * The part of `solveDataStoreHit` done under the bus lock: the peer line (found from the
     * local line's tag) is locked after `peerFailures` failed attempts and invalidated when it
     * holds the block in a state other than SHARED, and the local line becomes MODIFIED; then
     * the word is stored and the peer released, or, with the word offset outside the block, it
     * faults with the peer line still held.
     */
    method StoreHitOnBus(blockNumber: int, positionOffset: int, value: int, caller: Locks.ThreadId,
                         peerFailures: nat) returns (r: Result<(), Fault>, cycles: nat)
      requires LinesReady(blockNumber, caller) && LocalPosition(blockNumber).tag == blockNumber
      requires LocalPosition(blockNumber).state != Modified
      modifies LocalPosition(blockNumber), PeerPosition(blockNumber)
      ensures cycles == peerFailures + 1
      ensures LocalPosition(blockNumber).owner == Some(caller)
      ensures r.Ok? <==> 0 <= positionOffset < C.TOTAL_DATA_BLOCK_WORDS
      ensures r.Ok? ==>
                Lines(blockNumber) ==
                  Coherence.StoreHitAsWritten(old(Lines(blockNumber)).local, old(Lines(blockNumber)).peer,
                                              old(Lines(blockNumber)).memory, blockNumber, positionOffset, value)
                && PeerPosition(blockNumber).owner == None
      ensures r.Err? ==>
                r.error == IndexOutOfBounds
                && Lines(blockNumber) ==
                     Coherence.StoreHitUpgradeAsWritten(old(Lines(blockNumber)).local, old(Lines(blockNumber)).peer,
                                               old(Lines(blockNumber)).memory, blockNumber)
                && PeerPosition(blockNumber).owner == Some(caller)
    {
      var line := LocalPosition(blockNumber);
      var peer := PeerPosition(line.tag);
      cycles := peerFailures + 1;
      var locked := peer.LockRetrying(caller);
      if peer.tag == blockNumber && peer.state != Shared {
        peer.SetState(Invalid);
      }
      line.SetState(Modified);
      if !(0 <= positionOffset < |line.dataBlock|) {
        return Err(IndexOutOfBounds), cycles;
      }
      line.StoreWord(positionOffset, value);
      var released := peer.Unlock(caller);
      r := Ok(());
    }

    /**
     * `solveDataStoreHit` on a line holding block b. A MODIFIED line is written at once.
     * Otherwise the reservation and then the bus must be had, or it gives up; with both, block
     * b's lines change as `StoreHitAsWritten` says and every lock and the reservation are
     * released. A word offset outside the block faults at the store: at once on a MODIFIED
     * line, and otherwise after the peer and the line have been updated, with every lock and
     * the reservation still held.
     */
    method SolveDataStoreHit(blockNumber: int, position: int, positionOffset: int, value: int,
                             caller: Locks.ThreadId, callingContext: Context, peerFailures: nat)
      returns (r: Result<bool, Fault>, cycles: nat)
      requires LinesReady(blockNumber, caller) && position == Coherence.LocalIndex(blockNumber)
      requires LocalPosition(blockNumber).tag == blockNumber && LocalPosition(blockNumber).state != Invalid
      requires dataBus.lock.owner != Some(caller)
      modifies this, dataBus.lock, LocalPosition(blockNumber), PeerPosition(blockNumber)
      ensures LocalPosition(blockNumber).owner == if r.Ok? then None else Some(caller)
      ensures r != Ok(false) <==> old(LocalPosition(blockNumber).state) == Modified
                                  || (!ReservedByOther(old(reservedDataCachePosition), callingContext.contextNumber)
                                      && old(dataBus.lock.owner).None?)
      ensures r.Err? <==> r != Ok(false) && !(0 <= positionOffset < C.TOTAL_DATA_BLOCK_WORDS)
      ensures r == Ok(true) <==> r != Ok(false) && 0 <= positionOffset < C.TOTAL_DATA_BLOCK_WORDS
      ensures r.Err? ==> r.error == IndexOutOfBounds
      ensures r == Ok(true) ==>
                Lines(blockNumber) ==
                  Coherence.StoreHitAsWritten(old(Lines(blockNumber)).local, old(Lines(blockNumber)).peer,
                                              old(Lines(blockNumber)).memory, blockNumber, positionOffset, value)
      ensures r == Ok(false) ==> Lines(blockNumber) == old(Lines(blockNumber))
      ensures old(LocalPosition(blockNumber).state) == Modified ==>
                cycles == (if r.Ok? then 1 else 0) && reservedDataCachePosition == old(reservedDataCachePosition)
      ensures old(LocalPosition(blockNumber).state) == Modified && r.Err? ==> Lines(blockNumber) == old(Lines(blockNumber))
      ensures old(LocalPosition(blockNumber).state) == Modified || r == Ok(false) ==>
                dataBus.lock.owner == old(dataBus.lock.owner)
      ensures old(LocalPosition(blockNumber).state) != Modified && r == Ok(false) ==>
                cycles == 1 &&
                reservedDataCachePosition ==
                  if ReservedByOther(old(reservedDataCachePosition), callingContext.contextNumber)
                  then old(reservedDataCachePosition) else Reservation(position, callingContext.contextNumber)
      ensures old(LocalPosition(blockNumber).state) != Modified && r == Ok(true) ==>
                cycles == peerFailures + 2 && reservedDataCachePosition == NO_RESERVATION
                && dataBus.lock.owner == None && PeerPosition(blockNumber).owner == None
      ensures old(LocalPosition(blockNumber).state) != Modified && r.Err? ==>
                cycles == peerFailures + 2
                && reservedDataCachePosition == Reservation(position, callingContext.contextNumber)
                && dataBus.lock.owner == Some(caller) && PeerPosition(blockNumber).owner == Some(caller)
                && Lines(blockNumber) ==
                     Coherence.StoreHitUpgradeAsWritten(old(Lines(blockNumber)).local, old(Lines(blockNumber)).peer,
                                               old(Lines(blockNumber)).memory, blockNumber)
      ensures Schedule() == old(Schedule()) && missHandler == old(missHandler)
      ensures reservedInstructionCachePosition == old(reservedInstructionCachePosition)
    {
      var line := dataBus.coreZeroCache[position];
      if line.state == Modified {
        if !(0 <= positionOffset < |line.dataBlock|) {
          return Err(IndexOutOfBounds), 0;
        }
        line.StoreWord(positionOffset, value);
        var released := line.Unlock(caller);
        return Ok(true), 1;
      }
      var reserved := CanMakeReservation(position, callingContext);
      if !reserved {
        var released := line.Unlock(caller);
        return Ok(false), 1;
      }
      var attempt := dataBus.lock.TryLock(caller);
      if attempt != Ok(true) {
        var released := line.Unlock(caller);
        return Ok(false), 1;
      }
      var done, spent := StoreHitOnBus(blockNumber, positionOffset, value, caller, peerFailures);
      cycles := spent + 1;
      if done.Err? {
        return Err(done.error), cycles;
      }
      reservedDataCachePosition := NO_RESERVATION;
      var busReleased := dataBus.lock.Unlock(caller);
      var lineReleased := line.Unlock(caller);
      r := Ok(true);
    }
  }

  class MissHandler {
    const coreZero: CoreZero
    const currentContext: Context
    var missType: MissType
    const nextBlockNumber: int
    const nextCachePosition: int
    const dataCachePositionOffset: int
    const finalRegister: int
    const thread: Locks.ThreadId

    constructor(coreZero: CoreZero, context: Context, missType: MissType, nextBlockNumber: int,
                nextCachePosition: int, dataCachePositionOffset: int, finalRegister: int, thread: Locks.ThreadId)
      ensures this.coreZero == coreZero && currentContext == context && this.missType == missType
      ensures this.nextBlockNumber == nextBlockNumber && this.nextCachePosition == nextCachePosition
      ensures this.dataCachePositionOffset == dataCachePositionOffset && this.finalRegister == finalRegister
      ensures this.thread == thread
    {
      this.coreZero := coreZero;
      currentContext := context;
      this.missType := missType;
      this.nextBlockNumber := nextBlockNumber;
      this.nextCachePosition := nextCachePosition;
      this.dataCachePositionOffset := dataCachePositionOffset;
      this.finalRegister := finalRegister;
      this.thread := thread;
    }

    /** The miss this handler was made for: core, context, type, block, line, word offset, register or value, thread. */
    ghost predicate Serves(core: CoreZero, context: Context, missType: MissType, nextBlockNumber: int,
                           nextCachePosition: int, dataCachePositionOffset: int, finalRegister: int,
                           thread: Locks.ThreadId)
      reads this
    {
      coreZero == core && currentContext == context && this.missType == missType
      && this.nextBlockNumber == nextBlockNumber && this.nextCachePosition == nextCachePosition
      && this.dataCachePositionOffset == dataCachePositionOffset && this.finalRegister == finalRegister
      && this.thread == thread
    }

    /**
     * What the handler's load needs on entry: block b's lines in the system's shape with neither
     * the peer line nor the bus held by the handler, and its line number that of b. The word
     * offset and the target register may lie anywhere; the load faults on them.
     */
    ghost predicate LoadReady()
      reads this, coreZero, coreZero.dataBus, coreZero.dataBus.coreZeroCache, coreZero.dataBus.coreOneCache
      reads coreZero.dataBus.dataMemory, coreZero.dataBus.lock, currentContext
      reads if Coherence.HasLine(nextBlockNumber) && coreZero.coreNumber == 0 && coreZero.dataBus.Valid()
            then {coreZero.LocalPosition(nextBlockNumber), coreZero.PeerPosition(nextBlockNumber)} else {}
    {
      coreZero.coreNumber == 0 && coreZero.dataBus.Valid() && Coherence.HasLine(nextBlockNumber)
      && Coherence.Shaped(coreZero.Lines(nextBlockNumber), nextBlockNumber)
      && coreZero.PeerPosition(nextBlockNumber).owner != Some(thread)
      && nextCachePosition == Coherence.LocalIndex(nextBlockNumber)
      && coreZero.dataBus.lock.owner != Some(thread)
    }

    /**
     * `run`: the miss is solved; then the handler's context goes into core zero's waiting slot and
     * the core applies the swap-back rule and forgets its helper. A fault while solving ends the
     * handler before the hand-back.
     */
    method Run(busFailures: nat, peerFailures: nat) returns (r: Result<(), Fault>)
      requires missType == Instruction ==> coreZero.instructionCache.Valid()
      requires missType == Load ==> LoadReady()
      modifies coreZero
      modifies if missType == Instruction then {coreZero.instructionCache.instructionBus.lock} else {}
      modifies if missType == Instruction && 0 <= nextCachePosition < coreZero.instructionCache.instructionCachePositions.Length
               then {coreZero.instructionCache.instructionCachePositions[nextCachePosition]} else {}
      modifies if missType == Load
               then {coreZero.dataBus.lock, coreZero.dataBus.dataMemory, currentContext.registers,
                     coreZero.LocalPosition(nextBlockNumber), coreZero.PeerPosition(nextBlockNumber)}
               else {}
      ensures missType != Instruction && missType != Load ==> r == Err(IllegalArgumentException)
      ensures r.Err? ==> coreZero.Schedule() == old(coreZero.Schedule()) && coreZero.missHandler == old(coreZero.missHandler)
      ensures r.Ok? ==>
                coreZero.Schedule() == old(coreZero.Schedule()).(waiting := Some(currentContext),
                                                                 change := coreZero.changeContext)
                && coreZero.changeContext
                   == SolvedMissRule(currentContext.oldContext, old(coreZero.contextFinished),
                                     old(coreZero.contextWaitingForReservation), old(coreZero.changeContext))
                && coreZero.missHandler == None
    {
      r := SolveMiss(busFailures, peerFailures);
      if r.Err? {
        return;
      }
      coreZero.waitingContext := Some(currentContext);
      coreZero.FinishMissHandlerExecution();
    }

    /**
     * `solveMiss`: an instruction miss or a load miss is solved by the handler's thread; a store
     * or store-hit miss, which `enterCacheMiss` can hand to a helper, faults.
     */
    method SolveMiss(busFailures: nat, peerFailures: nat) returns (r: Result<(), Fault>)
      requires missType == Instruction ==> coreZero.instructionCache.Valid()
      requires missType == Load ==> LoadReady()
      modifies coreZero
      modifies if missType == Instruction then {coreZero.instructionCache.instructionBus.lock} else {}
      modifies if missType == Instruction && 0 <= nextCachePosition < coreZero.instructionCache.instructionCachePositions.Length
               then {coreZero.instructionCache.instructionCachePositions[nextCachePosition]} else {}
      modifies if missType == Load
               then {coreZero.dataBus.lock, coreZero.dataBus.dataMemory, currentContext.registers,
                     coreZero.LocalPosition(nextBlockNumber), coreZero.PeerPosition(nextBlockNumber)}
               else {}
      ensures missType != Instruction && missType != Load ==> r == Err(IllegalArgumentException) && unchanged(coreZero)
      ensures missType == Instruction ==>
                coreZero.InstructionFilled(nextBlockNumber, nextCachePosition,
                                           old(coreZero.instructionCache.instructionBus.lock.owner) == Some(thread), r.Ok?)
                && coreZero.reservedInstructionCachePosition == if r.Ok? then -1 else nextCachePosition
      ensures missType == Load ==>
                (r.Ok? <==> old(coreZero.LocalPosition(nextBlockNumber).owner) != Some(thread)
                            && old(coreZero.LocalPosition(nextBlockNumber).tag) == nextBlockNumber
                            && old(coreZero.LocalPosition(nextBlockNumber).state) != Invalid
                            && WordInRange(Load, dataCachePositionOffset, finalRegister, currentContext.registers.Length))
                && (r.Ok? ==>
                      coreZero.Lines(nextBlockNumber) == old(coreZero.Lines(nextBlockNumber))
                      && currentContext.registers[..]
                         == old(currentContext.registers[..])[finalRegister :=
                              old(coreZero.LocalPosition(nextBlockNumber).dataBlock)[dataCachePositionOffset]])
      ensures coreZero.Schedule() == old(coreZero.Schedule()) && coreZero.missHandler == old(coreZero.missHandler)
    {
      match missType
      case Instruction =>
        r := SolveInstructionMiss(busFailures);
      case Load =>
        r := SolveDataLoadMiss(peerFailures);
      case _ =>
        r := Err(IllegalArgumentException);
    }

    /**
     * `solveInstructionMiss` of the handler: the same reserve, fill and release as core zero's
     * own, done by the handler's thread.
     */
    method SolveInstructionMiss(busFailures: nat) returns (r: Result<(), Fault>)
      requires coreZero.instructionCache.Valid()
      modifies coreZero, coreZero.instructionCache.instructionBus.lock
      modifies if 0 <= nextCachePosition < coreZero.instructionCache.instructionCachePositions.Length
               then {coreZero.instructionCache.instructionCachePositions[nextCachePosition]} else {}
      ensures coreZero.InstructionFilled(nextBlockNumber, nextCachePosition,
                                         old(coreZero.instructionCache.instructionBus.lock.owner) == Some(thread), r.Ok?)
      ensures coreZero.reservedInstructionCachePosition == if r.Ok? then -1 else nextCachePosition
      ensures coreZero.Schedule() == old(coreZero.Schedule()) && coreZero.missHandler == old(coreZero.missHandler)
    {
      var filled := coreZero.SolveInstructionMiss(nextBlockNumber, nextCachePosition, thread, busFailures);
      r := if filled.Ok? then Ok(()) else Err(filled.error);
    }

    /**
     * `solveDataLoadMiss` of the handler: the line is locked (a lock the handler already holds
     * faults); a hit writes the word into the handler's context's register and releases the line;
     * a miss runs core zero's load miss for the handler's context, which releases the line itself,
     * so the unlock that follows faults whatever the miss did. The loop therefore ends after its
     * first pass. A word offset or a target register outside its array faults at the word's
     * copy, with the line still held.
     */
    method SolveDataLoadMiss(peerFailures: nat) returns (r: Result<(), Fault>)
      requires LoadReady()
      modifies coreZero, coreZero.dataBus.lock, coreZero.dataBus.dataMemory, currentContext.registers
      modifies coreZero.LocalPosition(nextBlockNumber), coreZero.PeerPosition(nextBlockNumber)
      ensures old(coreZero.LocalPosition(nextBlockNumber).owner) == Some(thread) ==>
                r == Err(TryLockException) && coreZero.Lines(nextBlockNumber) == old(coreZero.Lines(nextBlockNumber))
                && currentContext.registers[..] == old(currentContext.registers[..])
      ensures old(coreZero.LocalPosition(nextBlockNumber).owner) != Some(thread) ==>
                coreZero.LocalPosition(nextBlockNumber).owner
                == if r == Err(IndexOutOfBounds) then Some(thread) else None
      ensures old(coreZero.LocalPosition(nextBlockNumber).owner) != Some(thread)
              && old(coreZero.LocalPosition(nextBlockNumber).tag) == nextBlockNumber
              && old(coreZero.LocalPosition(nextBlockNumber).state) != Invalid ==>
                coreZero.Lines(nextBlockNumber) == old(coreZero.Lines(nextBlockNumber))
                && (r.Ok? <==> WordInRange(Load, dataCachePositionOffset, finalRegister, currentContext.registers.Length))
                && (r.Ok? ==>
                      currentContext.registers[..]
                      == old(currentContext.registers[..])[finalRegister :=
                           old(coreZero.LocalPosition(nextBlockNumber).dataBlock)[dataCachePositionOffset]])
                && (r.Err? ==> r.error == IndexOutOfBounds && currentContext.registers[..] == old(currentContext.registers[..]))
      ensures old(coreZero.LocalPosition(nextBlockNumber).owner) != Some(thread)
              && (old(coreZero.LocalPosition(nextBlockNumber).tag) != nextBlockNumber
                  || old(coreZero.LocalPosition(nextBlockNumber).state) == Invalid) ==>
                var o := MissOutcomeOf(Load, nextBlockNumber, dataCachePositionOffset, finalRegister,
                                       currentContext.contextNumber, old(coreZero.Entry(nextBlockNumber, currentContext.registers)));
                r == (if o.result.Err? then Err(o.result.error) else Err(TryLockException))
                && (coreZero.Lines(nextBlockNumber), currentContext.registers[..]) == (o.lines, o.registers)
      ensures coreZero.Schedule() == old(coreZero.Schedule()) && coreZero.missHandler == old(coreZero.missHandler)
    {
      var solved := false;
      while !solved
        invariant !solved ==> unchanged(coreZero, coreZero.dataBus.lock, coreZero.dataBus.dataMemory)
        invariant !solved ==> unchanged(coreZero.LocalPosition(nextBlockNumber), coreZero.PeerPosition(nextBlockNumber))
        invariant !solved ==> unchanged(currentContext.registers)
        invariant solved ==>
                    old(coreZero.LocalPosition(nextBlockNumber).owner) != Some(thread)
                    && old(coreZero.LocalPosition(nextBlockNumber).tag) == nextBlockNumber
                    && old(coreZero.LocalPosition(nextBlockNumber).state) != Invalid
                    && WordInRange(Load, dataCachePositionOffset, finalRegister, currentContext.registers.Length)
                    && coreZero.LocalPosition(nextBlockNumber).owner == None
                    && coreZero.Lines(nextBlockNumber) == old(coreZero.Lines(nextBlockNumber))
                    && currentContext.registers[..]
                       == old(currentContext.registers[..])[finalRegister :=
                            old(coreZero.LocalPosition(nextBlockNumber).dataBlock)[dataCachePositionOffset]]
        invariant coreZero.Schedule() == old(coreZero.Schedule()) && coreZero.missHandler == old(coreZero.missHandler)
        decreases if solved then 0 else 1
      {
        var attempt := LoadAttempt(peerFailures);
        if attempt.Err? {
          return Err(attempt.error);
        }
        solved := attempt.value;
      }
      r := Ok(());
    }

    /** One pass of the load loop: lock the line, then the hit or the miss path. */
    method LoadAttempt(peerFailures: nat) returns (r: Result<bool, Fault>)
      requires LoadReady()
      modifies coreZero, coreZero.dataBus.lock, coreZero.dataBus.dataMemory, currentContext.registers
      modifies coreZero.LocalPosition(nextBlockNumber), coreZero.PeerPosition(nextBlockNumber)
      ensures old(coreZero.LocalPosition(nextBlockNumber).owner) == Some(thread) ==>
                r == Err(TryLockException) && coreZero.Lines(nextBlockNumber) == old(coreZero.Lines(nextBlockNumber))
                && currentContext.registers[..] == old(currentContext.registers[..])
      ensures old(coreZero.LocalPosition(nextBlockNumber).owner) != Some(thread) ==>
                coreZero.LocalPosition(nextBlockNumber).owner
                == if r == Err(IndexOutOfBounds) then Some(thread) else None
      ensures old(coreZero.LocalPosition(nextBlockNumber).owner) != Some(thread)
              && old(coreZero.LocalPosition(nextBlockNumber).tag) == nextBlockNumber
              && old(coreZero.LocalPosition(nextBlockNumber).state) != Invalid ==>
                coreZero.Lines(nextBlockNumber) == old(coreZero.Lines(nextBlockNumber))
                && (r == Ok(true) <==> WordInRange(Load, dataCachePositionOffset, finalRegister, currentContext.registers.Length))
                && (r == Ok(true) ==>
                      currentContext.registers[..]
                      == old(currentContext.registers[..])[finalRegister :=
                           old(coreZero.LocalPosition(nextBlockNumber).dataBlock)[dataCachePositionOffset]])
                && (r != Ok(true) ==> r == Err(IndexOutOfBounds) && currentContext.registers[..] == old(currentContext.registers[..]))
      ensures old(coreZero.LocalPosition(nextBlockNumber).owner) != Some(thread)
              && (old(coreZero.LocalPosition(nextBlockNumber).tag) != nextBlockNumber
                  || old(coreZero.LocalPosition(nextBlockNumber).state) == Invalid) ==>
                var o := MissOutcomeOf(Load, nextBlockNumber, dataCachePositionOffset, finalRegister,
                                       currentContext.contextNumber, old(coreZero.Entry(nextBlockNumber, currentContext.registers)));
                r == (if o.result.Err? then Err(o.result.error) else Err(TryLockException))
                && (coreZero.Lines(nextBlockNumber), currentContext.registers[..]) == (o.lines, o.registers)
      ensures coreZero.Schedule() == old(coreZero.Schedule()) && coreZero.missHandler == old(coreZero.missHandler)
    {
      var line := coreZero.LocalPosition(nextBlockNumber);
      var locked := line.LockRetrying(thread);
      if locked.Err? {
        return Err(locked.error);
      }
      assert coreZero.Lines(nextBlockNumber) == old(coreZero.Lines(nextBlockNumber));
      if line.tag != nextBlockNumber || line.state == Invalid {
        r := LoadMissAttempt(peerFailures);
      } else {
        var hit := LoadHit();
        r := if hit.Ok? then Ok(true) else Err(hit.error);
      }
    }

    /**
     * The hit path: with the line held, the word goes into the register and the line is
     * released; a word offset or a register outside its array faults with the line held.
     */
    method LoadHit() returns (r: Result<(), Fault>)
      requires LoadReady()
      requires coreZero.LocalPosition(nextBlockNumber).owner == Some(thread)
      modifies coreZero.LocalPosition(nextBlockNumber), currentContext.registers
      ensures coreZero.Lines(nextBlockNumber) == old(coreZero.Lines(nextBlockNumber))
      ensures r.Ok? <==> WordInRange(Load, dataCachePositionOffset, finalRegister, currentContext.registers.Length)
      ensures r.Ok? ==>
                coreZero.LocalPosition(nextBlockNumber).owner == None
                && currentContext.registers[..]
                   == old(currentContext.registers[..])[finalRegister :=
                        old(coreZero.LocalPosition(nextBlockNumber).dataBlock)[dataCachePositionOffset]]
      ensures r.Err? ==>
                r.error == IndexOutOfBounds && coreZero.LocalPosition(nextBlockNumber).owner == Some(thread)
                && currentContext.registers[..] == old(currentContext.registers[..])
    {
      var line := coreZero.LocalPosition(nextBlockNumber);
      if !(0 <= dataCachePositionOffset < |line.dataBlock|) || !(0 <= finalRegister < currentContext.registers.Length) {
        return Err(IndexOutOfBounds);
      }
      currentContext.registers[finalRegister] := line.dataBlock[dataCachePositionOffset];
      var released := line.Unlock(thread);
      r := Ok(());
    }

    /**
     * The miss path: core zero's load miss for the handler's context, then the unlock of a line
     * the miss already released, which faults; a fault of the load miss itself ends the pass
     * before that unlock.
     */
    method LoadMissAttempt(peerFailures: nat) returns (r: Result<bool, Fault>)
      requires LoadReady()
      requires coreZero.LocalPosition(nextBlockNumber).owner == Some(thread)
      modifies coreZero, coreZero.dataBus.lock, coreZero.dataBus.dataMemory, currentContext.registers
      modifies coreZero.LocalPosition(nextBlockNumber), coreZero.PeerPosition(nextBlockNumber)
      ensures var o := MissOutcomeOf(Load, nextBlockNumber, dataCachePositionOffset, finalRegister,
                                     currentContext.contextNumber, old(coreZero.Entry(nextBlockNumber, currentContext.registers)));
        r == (if o.result.Err? then Err(o.result.error) else Err(TryLockException))
        && (coreZero.Lines(nextBlockNumber), currentContext.registers[..]) == (o.lines, o.registers)
        && coreZero.LocalPosition(nextBlockNumber).owner == if o.result.Err? then Some(thread) else None
      ensures coreZero.Schedule() == old(coreZero.Schedule()) && coreZero.missHandler == old(coreZero.missHandler)
    {
      var solved, cycles := coreZero.SolveDataLoadMiss(nextBlockNumber, dataCachePositionOffset, nextCachePosition,
                                                       finalRegister, thread, currentContext, peerFailures);
      if solved.Err? {
        return Err(solved.error);
      }
      var released := coreZero.LocalPosition(nextBlockNumber).Unlock(thread);
      r := if released.Ok? then solved else Err(released.error);
    }
  }
}
