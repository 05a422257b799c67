/**
 * A hardware context (program counter, 32 registers, tick count, number) and the shared FIFO
 * queue of contexts waiting for a core, guarded by an owner-checked lock.
 */
module Contexts {
  import opened Wrappers
  import opened Exceptions
  import Locks
  import SimulationConstants
  import JavaInt

  /** The fields of a context, as one value. */
  datatype ContextView = ContextView(programCounter: int, registers: array<int>, executionTics: int,
                                     contextNumber: int, currentQuantum: int, oldContext: bool,
                                     finishingCore: int)

  /**
   * The context record. `currentQuantum`, `oldContext` and `finishingCore` and the methods that
   * update them are used by the cores but declared nowhere in the repository; their meaning here
   * (plain fields, +4 / -4 on the program counter, +1 on quantum and ticks) is an assumption.
   */
  class Context {
    var programCounter: int
    var registers: array<int>
    var executionTics: int
    var contextNumber: int
    var currentQuantum: int
    var oldContext: bool
    var finishingCore: int

    constructor(programCounter: int, contextNumber: int)
      ensures this.programCounter == programCounter && this.contextNumber == contextNumber
      ensures registers.Length == SimulationConstants.TOTAL_REGISTERS
      ensures forall i :: 0 <= i < registers.Length ==> registers[i] == 0
      ensures executionTics == SimulationConstants.INITIAL_TICKS
      ensures currentQuantum == SimulationConstants.INITIAL_QUANTUM && !oldContext && finishingCore == -1
      ensures fresh(registers)
    {
      this.programCounter := programCounter;
      registers := new int[SimulationConstants.TOTAL_REGISTERS](_ => 0);
      executionTics := SimulationConstants.INITIAL_TICKS;
      this.contextNumber := contextNumber;
      currentQuantum := SimulationConstants.INITIAL_QUANTUM;
      oldContext := false;
      finishingCore := -1;
    }

    function View(): ContextView
      reads this
    {
      ContextView(programCounter, registers, executionTics, contextNumber, currentQuantum, oldContext, finishingCore)
    }

    method SetProgramCounter(pc: int)
      modifies this
      ensures programCounter == pc
      ensures registers == old(registers) && executionTics == old(executionTics)
      ensures contextNumber == old(contextNumber) && currentQuantum == old(currentQuantum)
      ensures oldContext == old(oldContext) && finishingCore == old(finishingCore)
    {
      programCounter := pc;
    }

    method SetRegisters(rs: array<int>)
      modifies this
      ensures registers == rs
      ensures programCounter == old(programCounter) && executionTics == old(executionTics)
      ensures contextNumber == old(contextNumber) && currentQuantum == old(currentQuantum)
      ensures oldContext == old(oldContext) && finishingCore == old(finishingCore)
    {
      registers := rs;
    }

    method SetExecutionTics(tics: int)
      modifies this
      ensures executionTics == tics
      ensures programCounter == old(programCounter) && registers == old(registers)
      ensures contextNumber == old(contextNumber) && currentQuantum == old(currentQuantum)
      ensures oldContext == old(oldContext) && finishingCore == old(finishingCore)
    {
      executionTics := tics;
    }

    /** Assumed: the PC advances by one instruction (4 bytes), with Java int wrap-around. */
    method IncrementPC()
      modifies this
      ensures programCounter == JavaInt.Wrap(old(programCounter) + 4)
      ensures registers == old(registers) && executionTics == old(executionTics)
      ensures contextNumber == old(contextNumber) && currentQuantum == old(currentQuantum)
      ensures oldContext == old(oldContext) && finishingCore == old(finishingCore)
    {
      programCounter := JavaInt.Wrap(programCounter + 4);
    }

    /** Assumed: the PC goes back one instruction, so that the instruction is repeated. */
    method DecrementPC()
      modifies this
      ensures programCounter == JavaInt.Wrap(old(programCounter) - 4)
      ensures registers == old(registers) && executionTics == old(executionTics)
      ensures contextNumber == old(contextNumber) && currentQuantum == old(currentQuantum)
      ensures oldContext == old(oldContext) && finishingCore == old(finishingCore)
    {
      programCounter := JavaInt.Wrap(programCounter - 4);
    }

    /** Assumed: one more instruction counted against the quantum. */
    method IncrementQuantum()
      modifies this
      ensures currentQuantum == JavaInt.Wrap(old(currentQuantum) + 1)
      ensures programCounter == old(programCounter) && registers == old(registers)
      ensures executionTics == old(executionTics) && contextNumber == old(contextNumber)
      ensures oldContext == old(oldContext) && finishingCore == old(finishingCore)
    {
      currentQuantum := JavaInt.Wrap(currentQuantum + 1);
    }

    method SetCurrentQuantum(q: int)
      modifies this
      ensures currentQuantum == q
      ensures programCounter == old(programCounter) && registers == old(registers)
      ensures executionTics == old(executionTics) && contextNumber == old(contextNumber)
      ensures oldContext == old(oldContext) && finishingCore == old(finishingCore)
    {
      currentQuantum := q;
    }

    method SetOldContext(b: bool)
      modifies this
      ensures oldContext == b
      ensures programCounter == old(programCounter) && registers == old(registers)
      ensures executionTics == old(executionTics) && contextNumber == old(contextNumber)
      ensures currentQuantum == old(currentQuantum) && finishingCore == old(finishingCore)
    {
      oldContext := b;
    }

    /** Assumed: the context spends one more clock cycle. */
    method IncrementClockCycle()
      modifies this
      ensures executionTics == JavaInt.Wrap(old(executionTics) + 1)
      ensures programCounter == old(programCounter) && registers == old(registers)
      ensures contextNumber == old(contextNumber) && currentQuantum == old(currentQuantum)
      ensures oldContext == old(oldContext) && finishingCore == old(finishingCore)
    {
      executionTics := JavaInt.Wrap(executionTics + 1);
    }

    method SetFinishingCore(core: int)
      modifies this
      ensures finishingCore == core
      ensures programCounter == old(programCounter) && registers == old(registers)
      ensures executionTics == old(executionTics) && contextNumber == old(contextNumber)
      ensures currentQuantum == old(currentQuantum) && oldContext == old(oldContext)
    {
      finishingCore := core;
    }
  }

  /** `poll` on a FIFO queue: the head and the rest, or nothing on an empty queue. */
  function Poll<T>(q: seq<T>): (r: (Option<T>, seq<T>))
    ensures |q| == 0 ==> r == (None, q)
    ensures |q| > 0 ==> r.0 == Some(q[0]) && [q[0]] + r.1 == q
  {
    if |q| == 0 then (None, q) else (Some(q[0]), q[1..])
  }

  /** Every element `poll` hands out, in order, until the queue is empty. */
  function Drain<T>(q: seq<T>): (out: seq<T>)
    decreases |q|
  {
    match Poll(q)
    case (None, _) => []
    case (Some(x), rest) => [x] + Drain(rest)
  }

  /** `add` for each element in turn. */
  function AddAll<T>(q: seq<T>, xs: seq<T>): (out: seq<T>)
    decreases |xs|
  {
    if |xs| == 0 then q else AddAll(q + [xs[0]], xs[1..])
  }

  lemma {:induction false} DrainIsIdentity<T>(q: seq<T>)
    ensures Drain(q) == q
    decreases |q|
  {
    if |q| > 0 {
      DrainIsIdentity(q[1..]);
    }
  }

  lemma {:induction false} AddAllAppends<T>(q: seq<T>, xs: seq<T>)
    ensures AddAll(q, xs) == q + xs
    decreases |xs|
  {
    if |xs| > 0 {
      AddAllAppends(q + [xs[0]], xs[1..]);
      assert q + [xs[0]] + xs[1..] == q + xs;
    }
  }

  /** First in, first out: contexts leave the queue in the order they were pushed. */
  lemma FifoOrder<T>(q: seq<T>, xs: seq<T>)
    ensures Drain(AddAll(q, xs)) == q + xs
  {
    AddAllAppends(q, xs);
    DrainIsIdentity(q + xs);
  }

  /** The queue shared by the cores; `contents` is its list, head first. */
  class ContextQueue {
    var owner: Option<Locks.ThreadId>
    var contents: seq<Context>

    constructor()
      ensures owner == None && contents == []
    {
      owner := None;
      contents := [];
    }

    method TryLock(caller: Locks.ThreadId) returns (r: Result<bool, Fault>)
      modifies this
      ensures contents == old(contents)
      ensures match Locks.TryLock(old(owner), caller)
              case Ok(a) => r == Ok(a.acquired) && owner == a.holder
              case Err(e) => r == Err(e) && owner == old(owner)
    {
      var a := Locks.TryLock(owner, caller);
      match a
      case Ok(attempt) =>
        owner := attempt.holder;
        r := Ok(attempt.acquired);
      case Err(e) =>
        r := Err(e);
    }

    /**
     * The retry loop `while (!tryLock()) advanceClockCycle();` with its outcome supplied: the
     * holder faults at once; anyone else ends up holding the lock (the failed attempts before
     * that are counted by the caller).
     */
    method LockRetrying(caller: Locks.ThreadId) returns (r: Result<(), Fault>)
      modifies this
      ensures contents == old(contents)
      ensures old(owner) == Some(caller) ==> r == Err(TryLockException) && owner == old(owner)
      ensures old(owner) != Some(caller) ==> r == Ok(()) && owner == Some(caller)
    {
      if owner == Some(caller) {
        return Err(TryLockException);
      }
      owner := Some(caller);
      r := Ok(());
    }

    method Unlock(caller: Locks.ThreadId) returns (r: Result<(), Fault>)
      modifies this
      ensures contents == old(contents)
      ensures match Locks.Unlock(old(owner), caller)
              case Ok(h) => r == Ok(()) && owner == h
              case Err(e) => r == Err(e) && owner == old(owner)
    {
      var u := Locks.Unlock(owner, caller);
      match u
      case Ok(h) =>
        owner := h;
        r := Ok(());
      case Err(e) =>
        r := Err(e);
    }

    /** Removes and returns the head; only the holder of the lock may do so. */
    method GetNextContext(caller: Locks.ThreadId) returns (r: Result<Option<Context>, Fault>)
      modifies this
      ensures owner == old(owner)
      ensures old(owner) != Some(caller) ==> r == Err(TryLockException) && contents == old(contents)
      ensures old(owner) == Some(caller) ==>
                r == Ok(Poll(old(contents)).0) && contents == Poll(old(contents)).1
    {
      if owner != Some(caller) {
        return Err(TryLockException);
      }
      var (head, rest) := Poll(contents);
      contents := rest;
      r := Ok(head);
    }

    /** Appends at the tail; no lock is checked. */
    method PushContext(c: Context)
      modifies this
      ensures owner == old(owner)
      ensures contents == old(contents) + [c]
    {
      contents := contents + [c];
    }
  }
}
