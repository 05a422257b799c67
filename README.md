# processor-simulation in Dafny

A model of the simulator's core zero, a MIPS-like two-core processor. Core zero runs up to two
hardware contexts: one executing and one parked. A miss handler thread can serve a cache miss for
the parked context. Each core has a private direct-mapped data cache with MSI states. The cores
share a data bus, an instruction bus and a locked queue of contexts waiting to run.

The model covers:

- the instruction set over a 32-register file, with Java `int` arithmetic (wrap-around at 32
  bits, division toward zero);
- the address arithmetic: data block, word and line; instruction block and slot;
- the locks of the buses, the cache lines and the context queue;
- core zero's context-change rules: swap, bring the waiting context, take the next context,
  quantum expiry, FIN, and the swap back when a miss handler finishes;
- the data-cache reservation that keeps two contexts of core zero off the same line;
- the three data transactions (load miss, store miss, store hit) and the coherence invariant they
  keep: a MODIFIED copy of a block means the other cache's copy is INVALID. Two of the
  transactions, as written, break that invariant (see Findings);
- `enterCacheMiss`, which hands a miss to a helper, waits for the reservation, or solves it
  locally;
- the miss handler's run;
- the program loader, which reads the context files, numbers the contexts and sets their start
  PCs, and packs the instructions four to a block into instruction memory.

Objects the source updates in place are classes: contexts, cache lines, caches, buses, the
queue, the core, the miss handler and the loader. Their methods carry `modifies` clauses and are
specified against pure functions. The context-change rules are `Scheduling.ApplyChange`, the
coherence transactions `Coherence.LoadMiss` and its siblings, and the loader's outcome
`Loader.PackOutcome`/`Loader.Filled`. Properties of whole runs are lemmas about those functions.

Modules: `Wrappers`, `Exceptions`, `SimulationConstants`, `JavaInt`, `Locks`, `Blocks`,
`CachePositions`, `Contexts`, `Memory`, `InstructionCache`, `Coherence`, `Scheduling`,
`AbstractCore`, `Core` and `Loader`.

Threads are not modelled. Every retry loop `while (!x.tryLock()) advanceClockCycle();` takes the
number of failed attempts as a parameter (`busFailures`, `peerFailures`), and the lock is then
held by the caller. A caller that already holds a lock and tries it again faults, as
`TryLockException` does.

Where the code and its comments disagree the model follows the code. Most notably:

- core zero's store hit invalidates the peer's copy only when that copy is not SHARED, against the
  comment at CoreZero.java:647;
- `MissHandler.solveDataLoadMiss` unlocks a line that the load miss has already released.

## Model

| member | source | states |
|---|---|---|
| `SimulationConstants.LinesOf` | src/main/java/cr/ac/ucr/ecci/ci1323/commons/SimulationConstants.java:10-23 | core zero has 8 data lines and core one 4; the result is 8 exactly for core 0 |
| `JavaInt.Wrap` | src/main/java/cr/ac/ucr/ecci/ci1323/core/AbstractCore.java:327-357 | the result is a 32-bit int congruent to the input mod 2^32, and equals the input when that already fits |
| `JavaInt.Quot` | src/main/java/cr/ac/ucr/ecci/ci1323/core/AbstractCore.java:419-438 | truncating quotient; agrees with floor division on non-negative operands |
| `JavaInt.Div` | src/main/java/cr/ac/ucr/ecci/ci1323/core/AbstractCore.java:363-371 | Java `/` on ints: always an int, equal to floor division on non-negative operands |
| `JavaInt.Rem` | src/main/java/cr/ac/ucr/ecci/ci1323/core/AbstractCore.java:419-438 | Java `%`: `a == Quot(a, b) * b + Rem(a, b)`, and it equals `a mod b` on non-negative operands |
| `JavaInt.SmallDivisor` | src/main/java/cr/ac/ucr/ecci/ci1323/core/AbstractCore.java:419-483 | for divisors 4, 8 and 16 the remainder lies strictly between -d and d; it is the ordinary one for a ≥ 0 and non-positive for a < 0 |
| `JavaInt.RemOfMultiple` | src/main/java/cr/ac/ucr/ecci/ci1323/core/AbstractCore.java:447-465 | a multiple of 8, negative ones included, leaves remainder 0 in Java's `%` by 4 and by 8, as in Dafny's |
| `JavaInt.MinOverMinusOne` | src/main/java/cr/ac/ucr/ecci/ci1323/core/AbstractCore.java:363-371 | `Integer.MIN_VALUE / -1` overflows back to `MIN_VALUE` |
| `Locks.TryLock` | src/main/java/cr/ac/ucr/ecci/ci1323/memory/Bus.java:16-21 | faults exactly when the caller already holds the lock; otherwise it acquires exactly when the lock is free, and a failed attempt leaves the holder unchanged |
| `Locks.Unlock` | src/main/java/cr/ac/ucr/ecci/ci1323/memory/Bus.java:26-31 | faults exactly when the caller is not the holder; otherwise the lock ends free |
| `Locks.MutualExclusion` | src/main/java/cr/ac/ucr/ecci/ci1323/memory/Bus.java:16-21 | once a thread acquires the lock, its own retry faults and any other thread's attempt fails and leaves it the holder |
| `Locks.AcquireReleaseRoundTrip` | src/main/java/cr/ac/ucr/ecci/ci1323/memory/Bus.java:16-31 | acquire then release returns the lock to free, and any thread can take it next |
| `Blocks.DataBlock.constructor` | src/main/java/cr/ac/ucr/ecci/ci1323/memory/DataBlock.java:14-16 | the block keeps the given array itself, not a copy |
| `Blocks.DataBlock.Clone` | src/main/java/cr/ac/ucr/ecci/ci1323/memory/DataBlock.java:24-32 | a fresh block over a fresh array with the same words |
| `Blocks.DataBlock.GetWords` | src/main/java/cr/ac/ucr/ecci/ci1323/memory/DataBlock.java:47-49 | returns the live array: writes through it change the block |
| `Blocks.DataBlock.GetWord` | src/main/java/cr/ac/ucr/ecci/ci1323/memory/DataBlock.java:51-53 | word `index` if it is in range, and an index fault otherwise |
| `Blocks.DataBlock.SetWords` | src/main/java/cr/ac/ucr/ecci/ci1323/memory/DataBlock.java:55-57 | the block now reads the given array |
| `Blocks.StoreIntoClone` | src/main/java/cr/ac/ucr/ecci/ci1323/memory/DataBlock.java:24-32 | a store into a clone changes the clone only; the original's words are unchanged |
| `Blocks.StoreThroughWords` | src/main/java/cr/ac/ucr/ecci/ci1323/core/CoreZero.java:577 | `getWords()[i] = v` changes word i of the block itself and nothing else, and reading word i back gives v |
| `Blocks.Instruction.GetField` | src/main/java/cr/ac/ucr/ecci/ci1323/memory/Instruction.java:18-20 | field `fieldNumber` of the instruction |
| `Blocks.Instruction.GetOperationCode` | src/main/java/cr/ac/ucr/ecci/ci1323/memory/Instruction.java:22-24 | the opcode is field 0 |
| `Blocks.Instruction.ToString` | src/main/java/cr/ac/ucr/ecci/ci1323/memory/Instruction.java:30-32 | the four fields in decimal, tab-separated; `Blocks.ToStringRoundTrip` proves the text reads back as the fields |
| `Blocks.GetInstruction` | src/main/java/cr/ac/ucr/ecci/ci1323/memory/InstructionBlock.java:16-18 | slot `index` of the block, empty when the slot holds no instruction |
| `Blocks.NatToStringDigits` | src/main/java/cr/ac/ucr/ecci/ci1323/memory/Instruction.java:30-32 | the decimal text of a natural is non-empty, all digits, and reads back as the number |
| `Blocks.IntToStringRoundTrip` | src/main/java/cr/ac/ucr/ecci/ci1323/memory/Instruction.java:30-32 | an int's decimal text (minus sign included) has no tab and parses back to the int |
| `Blocks.ParseInt` | src/main/java/cr/ac/ucr/ecci/ci1323/memory/Instruction.java:30-32 | reads an optional `-` and ASCII digits back into an int, the reading half of `Blocks.IntToStringRoundTrip` |
| `Blocks.Split` | src/main/java/cr/ac/ucr/ecci/ci1323/memory/Instruction.java:30-32 | the reader of the tab-separated text: cutting at a separator always gives at least one piece, empty pieces kept |
| `Blocks.SplitWithoutSeparator` | src/main/java/cr/ac/ucr/ecci/ci1323/memory/Instruction.java:30-32 | text without the separator is a single piece |
| `Blocks.SplitAtSeparator` | src/main/java/cr/ac/ucr/ecci/ci1323/memory/Instruction.java:30-32 | `a ++ sep ++ b` splits into `a` followed by the pieces of `b`, when `a` has no separator |
| `Blocks.SplitFour` | src/main/java/cr/ac/ucr/ecci/ci1323/memory/Instruction.java:30-32 | four tab-free texts joined by tabs, as `toString` joins the fields, split back into exactly those four |
| `Blocks.ToStringRoundTrip` | src/main/java/cr/ac/ucr/ecci/ci1323/memory/Instruction.java:30-32 | an instruction's printed form has four tab-separated pieces, and each parses back to its field |
| `CachePositions.DataCachePosition.constructor` | src/main/java/cr/ac/ucr/ecci/ci1323/cache/DataCachePosition.java:26-31 | the line holds the given tag, block and state and starts unlocked |
| `CachePositions.DataCachePosition.View` | src/main/java/cr/ac/ucr/ecci/ci1323/cache/DataCachePosition.java:54-80 | the line's tag, words and state as one value |
| `CachePositions.DataCachePosition.TryLock` | src/main/java/cr/ac/ucr/ecci/ci1323/cache/DataCachePosition.java:37-42 | the holder changes as `Locks.TryLock` says; the line's contents are untouched |
| `CachePositions.DataCachePosition.LockRetrying` | src/main/java/cr/ac/ucr/ecci/ci1323/core/CoreZero.java:268-270 | the retry loop: the holder faults at once, and anyone else ends holding the line; its contents are untouched |
| `CachePositions.DataCachePosition.Unlock` | src/main/java/cr/ac/ucr/ecci/ci1323/cache/DataCachePosition.java:47-52 | the holder changes as `Locks.Unlock` says; contents untouched |
| `CachePositions.DataCachePosition.SetTag` | src/main/java/cr/ac/ucr/ecci/ci1323/cache/DataCachePosition.java:58-60 | only the tag changes |
| `CachePositions.DataCachePosition.SetDataBlock` | src/main/java/cr/ac/ucr/ecci/ci1323/cache/DataCachePosition.java:66-68 | only the block changes |
| `CachePositions.DataCachePosition.SetState` | src/main/java/cr/ac/ucr/ecci/ci1323/cache/DataCachePosition.java:82-84 | only the state changes |
| `CachePositions.DataCachePosition.StoreWord` | src/main/java/cr/ac/ucr/ecci/ci1323/core/CoreZero.java:651-653 | one word of the line's block changes; tag, state and lock do not |
| `CachePositions.InstructionCachePosition.constructor` | src/main/java/cr/ac/ucr/ecci/ci1323/cache/InstructionCachePosition.java:23-26 | the line holds the given tag and block |
| `CachePositions.InstructionCachePosition.SetTag` | src/main/java/cr/ac/ucr/ecci/ci1323/cache/InstructionCachePosition.java:32-34 | only the tag changes |
| `CachePositions.InstructionCachePosition.SetInstructionBlock` | src/main/java/cr/ac/ucr/ecci/ci1323/cache/InstructionCachePosition.java:40-42 | only the block changes |
| `Contexts.Context.constructor` | src/main/java/cr/ac/ucr/ecci/ci1323/context/Context.java:38-43 | a new context: the given PC and number, 32 zeroed registers in a fresh array, 0 ticks; the quantum 0, the old flag false and the finishing core -1 are assumed, not in this constructor |
| `Contexts.Context.SetProgramCounter` | src/main/java/cr/ac/ucr/ecci/ci1323/context/Context.java:65-67 | only the PC changes |
| `Contexts.Context.SetRegisters` | src/main/java/cr/ac/ucr/ecci/ci1323/context/Context.java:73-75 | only the register array changes |
| `Contexts.Context.SetExecutionTics` | src/main/java/cr/ac/ucr/ecci/ci1323/context/Context.java:81-83 | only the tick count changes |
| `Contexts.Context.IncrementPC` | src/main/java/cr/ac/ucr/ecci/ci1323/core/AbstractCore.java:117 | the PC moves one instruction forward, with int wrap-around; nothing else changes |
| `Contexts.Context.DecrementPC` | src/main/java/cr/ac/ucr/ecci/ci1323/core/CoreZero.java:106 | the PC moves one instruction back; nothing else changes |
| `Contexts.Context.IncrementQuantum` | src/main/java/cr/ac/ucr/ecci/ci1323/core/AbstractCore.java:122 | one more instruction counted against the quantum; nothing else changes |
| `Contexts.Context.SetCurrentQuantum` | src/main/java/cr/ac/ucr/ecci/ci1323/core/AbstractCore.java:255 | only the quantum changes |
| `Contexts.Context.SetOldContext` | src/main/java/cr/ac/ucr/ecci/ci1323/core/CoreZero.java:173 | only the old flag changes |
| `Contexts.Context.IncrementClockCycle` | src/main/java/cr/ac/ucr/ecci/ci1323/core/AbstractCore.java:200 | one more tick; nothing else changes |
| `Contexts.Context.SetFinishingCore` | src/main/java/cr/ac/ucr/ecci/ci1323/core/AbstractCore.java:211 | only the finishing core changes |
| `Contexts.Poll` | src/main/java/cr/ac/ucr/ecci/ci1323/context/ContextQueue.java:59-64 | an empty queue gives nothing and stays empty; otherwise the head comes out and the rest stays in order |
| `Contexts.DrainIsIdentity` | src/main/java/cr/ac/ucr/ecci/ci1323/context/ContextQueue.java:59-64 | polling until empty hands out exactly the queue's contents, in order |
| `Contexts.AddAllAppends` | src/main/java/cr/ac/ucr/ecci/ci1323/context/ContextQueue.java:66-68 | adding elements one by one appends them at the tail |
| `Contexts.FifoOrder` | src/main/java/cr/ac/ucr/ecci/ci1323/context/ContextQueue.java:59-68 | contexts leave the queue in the order they were pushed |
| `Contexts.ContextQueue.constructor` | src/main/java/cr/ac/ucr/ecci/ci1323/context/ContextQueue.java:29-32 | an empty, unlocked queue |
| `Contexts.ContextQueue.TryLock` | src/main/java/cr/ac/ucr/ecci/ci1323/context/ContextQueue.java:38-43 | the holder changes as `Locks.TryLock` says; the contents are untouched |
| `Contexts.ContextQueue.LockRetrying` | src/main/java/cr/ac/ucr/ecci/ci1323/core/AbstractCore.java:250-252 | the retry loop: the holder faults at once, and anyone else ends holding the queue |
| `Contexts.ContextQueue.Unlock` | src/main/java/cr/ac/ucr/ecci/ci1323/context/ContextQueue.java:48-53 | the holder changes as `Locks.Unlock` says; the contents are untouched |
| `Contexts.ContextQueue.GetNextContext` | src/main/java/cr/ac/ucr/ecci/ci1323/context/ContextQueue.java:59-64 | a caller that does not hold the lock faults and changes nothing; the holder gets `Poll`'s head and the queue becomes `Poll`'s rest |
| `Contexts.ContextQueue.PushContext` | src/main/java/cr/ac/ucr/ecci/ci1323/context/ContextQueue.java:66-68 | the context is appended at the tail; the lock is not checked |
| `Memory.Bus.constructor` | src/main/java/cr/ac/ucr/ecci/ci1323/memory/Bus.java:12-14 | an unlocked bus |
| `Memory.Bus.TryLock` | src/main/java/cr/ac/ucr/ecci/ci1323/memory/Bus.java:16-21 | the holder changes as `Locks.TryLock` says |
| `Memory.Bus.LockRetrying` | src/main/java/cr/ac/ucr/ecci/ci1323/cache/InstructionCache.java:55-57 | the retry loop: the holder faults at once, and anyone else ends holding the bus |
| `Memory.Bus.Unlock` | src/main/java/cr/ac/ucr/ecci/ci1323/memory/Bus.java:26-31 | the holder changes as `Locks.Unlock` says |
| `Memory.InstructionBus.constructor` | src/main/java/cr/ac/ucr/ecci/ci1323/memory/InstructionBus.java:18-21 | the bus keeps the given memory and has a fresh unlocked lock |
| `Memory.InstructionBus.GetInstructionBlock` | src/main/java/cr/ac/ucr/ecci/ci1323/memory/InstructionBus.java:23-26 | block numbers 24 and up read memory slot number − 24; anything else is an index fault |
| `Memory.InstructionBus.SetInstructionBlock` | src/main/java/cr/ac/ucr/ecci/ci1323/memory/InstructionBus.java:28-30 | as written: slot `index` itself is written, with no offset, or an index fault leaves memory as it was |
| `Memory.InstructionBus.SetInstructionBlockMapped` | src/main/java/cr/ac/ucr/ecci/ci1323/memory/InstructionBus.java:23-30 | corrected setter: succeeds exactly when the getter would, and the getter then returns the block written |
| `Memory.InstructionBus.SetInstructionMemory` | src/main/java/cr/ac/ucr/ecci/ci1323/memory/InstructionBus.java:32-34 | the bus now reads the given memory |
| `Memory.InstructionBus.GetMemoryInstructionBlockInstruction` | src/main/java/cr/ac/ucr/ecci/ci1323/memory/InstructionBus.java:36-38 | instruction `offset` of block b; a missing block is an index fault, an empty slot a null dereference |
| `Memory.SetThenGetMismatch` | src/main/java/cr/ac/ucr/ecci/ci1323/memory/InstructionBus.java:23-30 | shows that after `setInstructionBlock(24, blk)` the getter at 24 still finds nothing, while slot 24 holds `blk` |
| `Memory.DataBus.constructor` | src/main/java/cr/ac/ucr/ecci/ci1323/memory/DataBus.java:12-17 | the caches and memory are stored under their own names, although the parameters arrive in the order core one, core zero; the lock is fresh and unlocked |
| `Memory.DataBus.GetCachePosition` | src/main/java/cr/ac/ucr/ecci/ci1323/memory/DataBus.java:19-27 | line `position` of core 0's or core 1's cache; any other core number is an illegal argument, a position out of range an index fault |
| `Memory.DataBus.GetOtherCachePosition` | src/main/java/cr/ac/ucr/ecci/ci1323/core/CoreZero.java:436 | the line of the other core's cache (the method is called but declared nowhere) |
| `Memory.DataBus.GetMemoryBlock` | src/main/java/cr/ac/ucr/ecci/ci1323/memory/DataBus.java:29-31 | memory block `index` when it exists, otherwise a fault |
| `Memory.DataBus.GetMemoryBlockData` | src/main/java/cr/ac/ucr/ecci/ci1323/memory/DataBus.java:33-35 | word `offset` of block b when both exist, otherwise a fault |
| `InstructionCache.InstructionCache.constructor` | src/main/java/cr/ac/ucr/ecci/ci1323/cache/InstructionCache.java:22-30 | `cacheSize` distinct fresh lines, each with tag -1 and no block |
| `InstructionCache.InstructionCache.GetInstructionCachePosition` | src/main/java/cr/ac/ucr/ecci/ci1323/cache/InstructionCache.java:40-42 | line `position` when it is in range, otherwise an index fault |
| `InstructionCache.InstructionCache.GetInstructionBlockFromMemory` | src/main/java/cr/ac/ucr/ecci/ci1323/cache/InstructionCache.java:52-69 | a thread already holding the bus faults at once; otherwise it spends failures + 41 cycles, the line gets the block and its number, the bus is freed, and no other line changes |
| `InstructionCache.EmptyLineMisses` | src/main/java/cr/ac/ucr/ecci/ci1323/cache/InstructionCache.java:22-30 | every PC from 384 up has an instruction block number ≥ 24, never the empty tag -1, so a line's first fetch misses |
| `AbstractCore.DataAddress` | src/main/java/cr/ac/ucr/ecci/ci1323/core/AbstractCore.java:419-438 | the address of a load or store, R[f1] + f3 with int wrap-around; its decomposition is `AbstractCore.DataAddressDecomposition` |
| `AbstractCore.CalculateDataBlockNumber` | src/main/java/cr/ac/ucr/ecci/ci1323/core/AbstractCore.java:419-424 | address / 16 with Java division; `AbstractCore.DataAddressDecomposition` and `AbstractCore.NegativeDataAddress` give its value |
| `AbstractCore.CalculateDataOffset` | src/main/java/cr/ac/ucr/ecci/ci1323/core/AbstractCore.java:433-438 | (address % 16) / 4 with Java remainder and division; word 0..3 for a non-negative address, negative just below 0 |
| `AbstractCore.CalculateCachePosition` | src/main/java/cr/ac/ucr/ecci/ci1323/core/AbstractCore.java:447-452 | block mod 8 on core zero, mod 4 on core one; `AbstractCore.CachePositionInRange` bounds it |
| `AbstractCore.CalculateOtherDataCachePosition` | src/main/java/cr/ac/ucr/ecci/ci1323/core/AbstractCore.java:460-465 | the line the other core would compute; `AbstractCore.OtherPositionIsPeerPosition` proves it |
| `AbstractCore.CalculateInstructionBlockNumber` | src/main/java/cr/ac/ucr/ecci/ci1323/core/AbstractCore.java:472-474 | PC / 16; `AbstractCore.ProgramCounterDecomposition` proves it names the PC's block |
| `AbstractCore.CalculateInstructionOffset` | src/main/java/cr/ac/ucr/ecci/ci1323/core/AbstractCore.java:481-483 | (PC % 16) / 4, the slot of the PC in its block, as `AbstractCore.ProgramCounterDecomposition` proves |
| `AbstractCore.CachePositionInRange` | src/main/java/cr/ac/ucr/ecci/ci1323/core/AbstractCore.java:447-452 | a non-negative block maps to line b mod 8 on core zero and b mod 4 on core one, inside that core's cache |
| `AbstractCore.OtherPositionIsPeerPosition` | src/main/java/cr/ac/ucr/ecci/ci1323/core/AbstractCore.java:447-465 | the other core's line number is the one that core would compute itself |
| `AbstractCore.LinesNest` | src/main/java/cr/ac/ucr/ecci/ci1323/core/AbstractCore.java:447-452 | a block's line on core one is determined by its line on core zero |
| `AbstractCore.DataAddressDecomposition` | src/main/java/cr/ac/ucr/ecci/ci1323/core/AbstractCore.java:419-438 | a non-negative address a is word (a mod 16)/4 of block a/16; the word index is in range, and block, word and byte recompose the address |
| `AbstractCore.NegativeDataAddress` | src/main/java/cr/ac/ucr/ecci/ci1323/core/AbstractCore.java:419-438 | an address in (-16, 0) still names block 0, and its word offset is negative (so the access faults) exactly from -4 down |
| `AbstractCore.ProgramCounterDecomposition` | src/main/java/cr/ac/ucr/ecci/ci1323/core/AbstractCore.java:472-483 | a word-aligned PC is slot `offset` of block `block`: block·16 + offset·4 == PC, with offset in 0..3 |
| `AbstractCore.Read` | src/main/java/cr/ac/ucr/ecci/ci1323/core/AbstractCore.java:148-190 | reading register i succeeds exactly when i is in range, and yields R[i] |
| `AbstractCore.Write` | src/main/java/cr/ac/ucr/ecci/ci1323/core/AbstractCore.java:148-190 | writing register i succeeds exactly when i is in range, and changes only R[i] |
| `AbstractCore.Binary` | src/main/java/cr/ac/ucr/ecci/ci1323/core/AbstractCore.java:336-371 | R[t] := R[a] op R[b] with both operands read first and a zero divisor fatal; `AbstractCore.ArithmeticWritesOneRegister` states its result |
| `AbstractCore.Branch` | src/main/java/cr/ac/ucr/ecci/ci1323/core/AbstractCore.java:377-393 | BEQZ/BNEZ: the PC moves 4·offset bytes when the test holds; `AbstractCore.BranchesAreComplementary` states it |
| `AbstractCore.Execute` | src/main/java/cr/ac/ucr/ecci/ci1323/core/AbstractCore.java:148-411 | an opcode outside the instruction set is rejected as an illegal argument, and only then; the result is Finish exactly for FIN |
| `AbstractCore.ValidInstructionsExecute` | src/main/java/cr/ac/ucr/ecci/ci1323/core/AbstractCore.java:148-190 | every opcode of the set executes without fault when its register fields are 0..31 and a DDIV divisor is non-zero |
| `AbstractCore.ArithmeticWritesOneRegister` | src/main/java/cr/ac/ucr/ecci/ci1323/core/AbstractCore.java:327-371 | DADDI, DADD, DSUB, DMUL and DDIV write only their target register (f2 for DADDI, f3 for the others) with the wrapped or truncated result, and leave the PC |
| `AbstractCore.BranchesAreComplementary` | src/main/java/cr/ac/ucr/ecci/ci1323/core/AbstractCore.java:377-393 | exactly one of BEQZ and BNEZ is taken; a taken branch moves the PC 4·f3 bytes and neither touches registers |
| `AbstractCore.JumpAndLinkReturns` | src/main/java/cr/ac/ucr/ecci/ci1323/core/AbstractCore.java:399-411 | JAL jumps by f3 and saves the return PC in R31, so a following `JR 31` returns right after the JAL |
| `AbstractCore.WrapAddUndoesSub` | src/main/java/cr/ac/ucr/ecci/ci1323/core/AbstractCore.java:336-348 | 32-bit subtraction is undone by 32-bit addition of the same operand |
| `AbstractCore.SubThenAddRestores` | src/main/java/cr/ac/ucr/ecci/ci1323/core/AbstractCore.java:336-348 | DSUB then DADD of the same operand restores the original value in the target, whatever wrap-around happens in between |
| `Coherence.WriteBack` | src/main/java/cr/ac/ucr/ecci/ci1323/core/CoreZero.java:432 | memory block `tag` becomes the line's words; every other block stays |
| `Coherence.Fetch` | src/main/java/cr/ac/ucr/ecci/ci1323/core/CoreZero.java:451 | the line gets tag b and memory block b's words; its state stays |
| `Coherence.CopyFrom` | src/main/java/cr/ac/ucr/ecci/ci1323/core/CoreZero.java:447 | the line takes the peer's tag and words; its state stays |
| `Coherence.Evict` | src/main/java/cr/ac/ucr/ecci/ci1323/core/CoreZero.java:430-433 | a line holding another block MODIFIED is written back; otherwise memory stays |
| `Coherence.LoadFill` | src/main/java/cr/ac/ucr/ecci/ci1323/core/CoreZero.java:444-452 | the line gets block b, from a MODIFIED peer (written back and demoted to SHARED) or from memory; its state stays |
| `Coherence.StoreFill` | src/main/java/cr/ac/ucr/ecci/ci1323/core/CoreZero.java:550-573 | the line gets block b MODIFIED, from a MODIFIED peer (written back) or from memory, and a peer holding b is invalidated |
| `Coherence.FillBeyondMemory` | src/main/java/cr/ac/ucr/ecci/ci1323/memory/DataBus.java:29-31 | a fill of a block outside the memory faults before any line changes: memory and the local line stay, the peer keeps its tag and words, and only a store's SHARED peer copy of b has been invalidated by then |
| `Coherence.LoadMissAsWritten` | src/main/java/cr/ac/ucr/ecci/ci1323/core/CoreZero.java:430-453 | as written: the line gets block b, but its state is never set |
| `Coherence.LoadMissKeepsShape` | src/main/java/cr/ac/ucr/ecci/ci1323/core/CoreZero.java:430-453 | a load miss over block-sized lines leaves a block-sized line |
| `Coherence.LoadMiss` | src/main/java/cr/ac/ucr/ecci/ci1323/core/CoreZero.java:430-461 | corrected load miss: the line ends SHARED on block b, and the peer keeps its block, demoted from MODIFIED to SHARED if it held b |
| `Coherence.StoreMiss` | src/main/java/cr/ac/ucr/ecci/ci1323/core/CoreZero.java:536-577 | the line ends MODIFIED on block b, and a peer holding block b ends INVALID |
| `Coherence.StoreHitAsWritten` | src/main/java/cr/ac/ucr/ecci/ci1323/core/CoreZero.java:613-653 | as written: the word is stored and the line ends MODIFIED; memory stays |
| `Coherence.StoreHitUpgradeAsWritten` | src/main/java/cr/ac/ucr/ecci/ci1323/core/CoreZero.java:646-650 | as written: a store hit before its word is stored: the line is MODIFIED with its words unchanged, memory stays, and the peer is invalidated only when it holds b in a state other than SHARED |
| `Coherence.StoreHitIsUpgradeThenStore` | src/main/java/cr/ac/ucr/ecci/ci1323/core/CoreZero.java:638-653 | a store hit on a line not MODIFIED is that upgrade followed by the store of the one word |
| `Coherence.StoreHitUpgrade` | src/main/java/cr/ac/ucr/ecci/ci1323/core/CoreZero.java:613-650 | corrected upgrade, what a store hit does before its word is stored: a MODIFIED line is left as it is (its store comes first); otherwise the line becomes MODIFIED with tag and words kept, a SHARED peer copy of b is invalidated, and memory stays |
| `Coherence.StoreHitIsIntendedUpgradeThenStore` | src/main/java/cr/ac/ucr/ecci/ci1323/core/CoreZero.java:638-653 | the corrected store hit is the corrected upgrade followed by the store of the one word |
| `Coherence.StoreHit` | src/main/java/cr/ac/ucr/ecci/ci1323/core/CoreZero.java:647-649 | corrected hit: as above, and when the line was not already MODIFIED a SHARED peer copy of the block is invalidated |
| `Coherence.LoadMissReadsLatest` | src/main/java/cr/ac/ucr/ecci/ci1323/core/CoreZero.java:430-455 | a dirty evicted block is saved to memory, and the word loaded is the block's latest value (the peer's when it held it MODIFIED) |
| `Coherence.StoreMissWritesLatest` | src/main/java/cr/ac/ucr/ecci/ci1323/core/CoreZero.java:536-577 | the stored word is in the line, and the other words are the block's latest values |
| `Coherence.OnlyHomeLinesHold` | src/main/java/cr/ac/ucr/ecci/ci1323/core/AbstractCore.java:447-452 | in a direct-mapped system a valid copy of block b can only be in line b mod 8 of core zero or line b mod 4 of core one |
| `Coherence.HomeUpdatePreserves` | src/main/java/cr/ac/ucr/ecci/ci1323/core/CoreZero.java:405-664 | a transaction that writes block b into the local home line, and leaves the peer home line unchanged, invalidated or demoted, keeps the system coherent if the new pair is coherent |
| `Coherence.LoadMissPreservesCoherence` | src/main/java/cr/ac/ucr/ecci/ci1323/core/CoreZero.java:405-461 | the corrected load miss keeps "MODIFIED here implies INVALID there" and the system's shape |
| `Coherence.StoreMissPreservesCoherence` | src/main/java/cr/ac/ucr/ecci/ci1323/core/CoreZero.java:510-583 | the store miss keeps the coherence invariant and the shape |
| `Coherence.StoreHitPreservesCoherence` | src/main/java/cr/ac/ucr/ecci/ci1323/core/CoreZero.java:610-664 | the corrected store hit keeps the coherence invariant and the shape |
| `Coherence.LoadMissAsWrittenKeepsShape` | src/main/java/cr/ac/ucr/ecci/ci1323/core/CoreZero.java:430-461 | the load miss as written keeps the system's shape, though not its coherence |
| `Coherence.StoreHitAsWrittenBreaksCoherence` | src/main/java/cr/ac/ucr/ecci/ci1323/core/CoreZero.java:647-649 | from a coherent state with block 1 SHARED in both caches, the store hit as written leaves core zero MODIFIED and core one SHARED |
| `Coherence.LoadMissAsWrittenBreaksCoherence` | src/main/java/cr/ac/ucr/ecci/ci1323/core/CoreZero.java:430-461 | from a coherent state with block 13 MODIFIED in core zero's line 5, loading block 5 leaves that line MODIFIED for block 5 beside core one's SHARED copy |
| `Coherence.StepPreserves` | src/main/java/cr/ac/ucr/ecci/ci1323/core/CoreZero.java:405-664 | any one access core zero would issue, including one cut short by a fault, keeps the shape, and keeps coherence; a load hit changes nothing, as `executeLW` only reads the line on a hit |
| `Coherence.BeyondMemoryPreserves` | src/main/java/cr/ac/ucr/ecci/ci1323/core/CoreZero.java:430-451 | a miss on a block beyond the memory changes no line of a well-formed system (no valid line holds such a block), and keeps the shape and coherence |
| `Coherence.StoreFillPreserves` | src/main/java/cr/ac/ucr/ecci/ci1323/core/CoreZero.java:536-577 | a store miss cut short at its store by a bad word offset keeps the shape and coherence |
| `Coherence.StoreHitUpgradePreserves` | src/main/java/cr/ac/ucr/ecci/ci1323/core/CoreZero.java:613-650 | a store hit cut short at its store by a bad word offset keeps the shape and coherence |
| `Coherence.Step` | src/main/java/cr/ac/ucr/ecci/ci1323/core/AbstractCore.java:275-321 | a block without a line changes nothing (the line lookup faults first); a load hit changes nothing; a load miss, store miss and store hit are the (corrected) transactions; a store with a word offset outside the block keeps the fill or upgrade done before its fault; a miss on a block beyond the memory keeps the eviction (and a store's invalidation) done before its fault; `Coherence.StepPreserves` states what a step keeps |
| `Coherence.Run` | src/main/java/cr/ac/ucr/ecci/ci1323/core/CoreZero.java:405-664 | a sequence of steps in order; `Coherence.RunPreservesCoherence` states that it stays coherent |
| `Coherence.LoadMissShape` | src/main/java/cr/ac/ucr/ecci/ci1323/core/CoreZero.java:430-461 | the corrected load miss keeps the shape |
| `Coherence.StoreMissShape` | src/main/java/cr/ac/ucr/ecci/ci1323/core/CoreZero.java:536-577 | the store miss keeps the shape |
| `Coherence.StoreHitShape` | src/main/java/cr/ac/ucr/ecci/ci1323/core/CoreZero.java:613-653 | the corrected store hit keeps the shape |
| `Coherence.RunPreservesCoherence` | src/main/java/cr/ac/ucr/ecci/ci1323/core/CoreZero.java:405-664 | any sequence of transactions from a coherent state stays coherent |
| `Coherence.StartIsCoherent` | src/main/java/cr/ac/ucr/ecci/ci1323/core/AbstractCore.java:69 | the all-INVALID start is assumed, as `new DataCache(dataBus, totalCachePositions)` is declared nowhere; that start is well formed and coherent |
| `Scheduling.ApplyChange` | src/main/java/cr/ac/ucr/ecci/ci1323/core/CoreZero.java:91-139 | the request is cleared; the cycle is interrupted exactly when a change applies; a swap exchanges the running and waiting contexts; BRING_WAITING and NEXT_CONTEXT move that slot in and empty it; an applied change resets the flags |
| `Scheduling.SwapTwiceRestores` | src/main/java/cr/ac/ucr/ecci/ci1323/core/CoreZero.java:91-139 | two swaps put both contexts back in their slots |
| `Scheduling.SlotsConserved` | src/main/java/cr/ac/ucr/ecci/ci1323/core/CoreZero.java:91-139 | an applied change never loses a context: a swap keeps the multiset of contexts, the others drop only the outgoing one |
| `Scheduling.SolvedMissRule` | src/main/java/cr/ac/ucr/ecci/ci1323/core/CoreZero.java:671-680 | the swap back is requested exactly when one was already pending, or the handler's context is older, the running one neither finished nor waits for the reservation, and nobody asked for BRING_WAITING; otherwise the request is unchanged |
| `Scheduling.SwapBackIsApplied` | src/main/java/cr/ac/ucr/ecci/ci1323/core/CoreZero.java:671-680 | a swap back requested on an unfinished core is carried out at the next cycle, and the handler's context runs |
| `Scheduling.Dispatched` | src/main/java/cr/ac/ucr/ecci/ci1323/core/CoreZero.java:288-340 | the miss dispatch changes only the next slot, the request and the reservation-wait flag |
| `Scheduling.DispatchSwitches` | src/main/java/cr/ac/ucr/ecci/ci1323/core/CoreZero.java:288-340 | with a waiting context, or with a queue head and no helper running, the closing cycle switches to that context; otherwise the pending change runs as before |
| `Scheduling.Reserve` | src/main/java/cr/ac/ucr/ecci/ci1323/core/CoreZero.java:470-481 | a reservation fails exactly when another context holds it; otherwise the caller now holds it on the given line |
| `Scheduling.ReservationAfter` | src/main/java/cr/ac/ucr/ecci/ci1323/core/CoreZero.java:405-461 | a miss that needed no bus leaves the reservation; a solved one releases it; an unsolved one leaves it with another holder or with the caller |
| `Scheduling.ReservationIsExclusive` | src/main/java/cr/ac/ucr/ecci/ci1323/core/CoreZero.java:470-481 | once a context reserves, every other context is refused and the holder can reserve again |
| `Scheduling.ReleaseAdmitsAll` | src/main/java/cr/ac/ucr/ecci/ci1323/core/CoreZero.java:470-481 | after a release any context can reserve |
| `Core.MissOutcomeOf` | src/main/java/cr/ac/ucr/ecci/ci1323/core/CoreZero.java:405-664 | a data miss is solved without the bus exactly on a store hit to a MODIFIED line; an unsolved miss changes nothing; only a load touches registers; a granted miss faults with IndexOutOfBounds exactly when its word offset (or load register) is out of range or, for a load or store miss, its block lies beyond the memory; it then leaves the lines as far as the source gets (after the eviction, as `FillBeyondMemory` says, for a block beyond the memory) and the registers as they were |
| `Core.WriteBlockToMemory` | src/main/java/cr/ac/ucr/ecci/ci1323/core/CoreZero.java:432 | memory changes as `Coherence.WriteBack` says; a tag outside the memory faults with IndexOutOfBounds exactly then, with memory unchanged |
| `Core.GetBlockFromMemory` | src/main/java/cr/ac/ucr/ecci/ci1323/memory/DataBus.java:29-31 | the line changes as `Coherence.Fetch` says, and its lock is kept; a block outside the memory faults with IndexOutOfBounds exactly then, with the line unchanged |
| `Core.SetPositionFromAnother` | src/main/java/cr/ac/ucr/ecci/ci1323/core/CoreZero.java:447 | the line changes as `Coherence.CopyFrom` says, and its lock is kept |
| `Core.EvictLine` | src/main/java/cr/ac/ucr/ecci/ci1323/core/CoreZero.java:430-433 | memory changes as `Coherence.Evict` says |
| `Core.LoadFill` | src/main/java/cr/ac/ucr/ecci/ci1323/core/CoreZero.java:444-452 | both lines and memory change as `Coherence.LoadFill` says; locks are kept; a block outside the memory faults exactly then, as `Coherence.FillBeyondMemory` says |
| `Core.StoreFill` | src/main/java/cr/ac/ucr/ecci/ci1323/core/CoreZero.java:550-573 | both lines and memory change as `Coherence.StoreFill` says; locks are kept; a block outside the memory faults exactly then, with only a SHARED peer copy invalidated, as `Coherence.FillBeyondMemory` says |
| `Core.CoreZero.constructor` | src/main/java/cr/ac/ucr/ecci/ci1323/core/CoreZero.java:68-78 | the starting context runs, both slots are empty, nothing is pending or reserved, and the instruction cache has 8 empty lines |
| `Core.CoreZero.ChangeContext` | src/main/java/cr/ac/ucr/ecci/ci1323/core/CoreZero.java:91-139 | the slots change as `ApplyChange` says, and a swap in mid-instruction rewinds the outgoing PC by one instruction |
| `Core.CoreZero.AdvanceClockCycle` | src/main/java/cr/ac/ucr/ecci/ci1323/core/AbstractCore.java:198-202 | the running context spends one tick, then the slots change as `ApplyChange` says |
| `Core.CoreZero.SolvedMiss` | src/main/java/cr/ac/ucr/ecci/ci1323/core/CoreZero.java:671-680 | the request becomes what `SolvedMissRule` says; nothing else changes |
| `Core.CoreZero.FinishMissHandlerExecution` | src/main/java/cr/ac/ucr/ecci/ci1323/core/CoreZero.java:685-688 | the `SolvedMissRule` request, and the core has no helper any more |
| `Core.CoreZero.BaseQuantumExpired` | src/main/java/cr/ac/ucr/ecci/ci1323/core/AbstractCore.java:246-266 | a holder of the queue lock faults; otherwise the head (if any) becomes the next context with NEXT_CONTEXT, the running context's quantum restarts and it joins the tail, and the queue is released |
| `Core.CoreZero.QuantumExpired` | src/main/java/cr/ac/ucr/ecci/ci1323/core/CoreZero.java:195-217 | the context counts as finished; without a waiting context the inherited rule applies; with one, the running context goes to the queue with quantum 0, ends old, and BRING_WAITING is requested |
| `Core.CoreZero.BaseModifiableFINExecution` | src/main/java/cr/ac/ucr/ecci/ci1323/core/AbstractCore.java:221-238 | a holder of the queue lock faults; otherwise an empty queue finishes the core and a head is requested with NEXT_CONTEXT, and the lock is released |
| `Core.CoreZero.ModifiableFINExecution` | src/main/java/cr/ac/ucr/ecci/ci1323/core/CoreZero.java:146-187 | the context counts as finished; a waiting context is brought in; else the head is requested; with the queue empty the core finishes unless a helper is at work, whose context is then brought in; of the running context only its old flag changes |
| `Core.CoreZero.ExecuteFIN` | src/main/java/cr/ac/ucr/ecci/ci1323/core/AbstractCore.java:209-213 | on success the outgoing context records core zero as its finishing core; nothing else of it changes but its old flag; the scheduling stays ready |
| `Core.CoreZero.ExecuteInstruction` | src/main/java/cr/ac/ucr/ecci/ci1323/core/AbstractCore.java:148-190 | the result is `AC.Execute` on the context's registers and PC; a jump, branch or arithmetic op writes exactly its registers and PC in place; anything else changes nothing |
| `Core.CoreZero.ExecuteLW` | src/main/java/cr/ac/ucr/ecci/ci1323/core/AbstractCore.java:275-295 | the address comes from R[f1] + f3; a bad index faults; a held line faults; a miss keeps the line held and returns the pending load; a hit writes the word into R[f2] and releases the line |
| `Core.CoreZero.ExecuteSW` | src/main/java/cr/ac/ucr/ecci/ci1323/core/AbstractCore.java:304-321 | the address comes from R[f1] + f3; a bad index faults; a held line faults; otherwise the line is held and a pending store miss or store hit is returned with R[f2] |
| `Core.CoreZero.ExecuteCoreStep` | src/main/java/cr/ac/ucr/ecci/ci1323/core/AbstractCore.java:115-129 | the PC moves past the instruction, which then runs as `AC.Execute` says: a fault stops the step; a register transfer completes it with those registers and PC; a load hit writes the line's word into R[f2] and releases the line; a load miss stalls with `Pending(Load, …)`; a store stalls as a store miss or a store hit by the line's tag and state; FIN records core zero as the finishing core; a completed step is marked finished, counts against the quantum (restarted on expiry unless FIN), and without expiry ends with the clock cycle `ApplyChange` says |
| `Core.CoreZero.StartStep` | src/main/java/cr/ac/ucr/ecci/ci1323/core/AbstractCore.java:116-118 | the opening of a step: the effect is `AC.Execute` on the registers and the PC moved past the instruction, the step is marked unfinished and nothing else in the schedule changes, and only a register transfer changes the registers; otherwise the PC is the moved one |
| `Core.CoreZero.FinishStep` | src/main/java/cr/ac/ucr/ecci/ci1323/core/AbstractCore.java:119-129 | the handler of a load, store or FIN, then, unless an access is pending, `EndInstruction`: the same load, store, FIN, quantum and clock-cycle facts as the whole step |
| `Core.CoreZero.HandleEffect` | src/main/java/cr/ac/ucr/ecci/ci1323/core/AbstractCore.java:148-190 | only FIN touches the queue, the schedule or the context; a load hit writes the word into R[f2] and releases the line; a load miss returns `Pending(Load, …)` with the line held; a store returns a pending store miss or store hit by the line's tag and state; FIN records core zero as the finishing core |
| `Core.CoreZero.EndInstruction` | src/main/java/cr/ac/ucr/ecci/ci1323/core/AbstractCore.java:120-129 | the instruction is marked finished and counted; unless it was FIN, a quantum that is used up expires and restarts; otherwise the closing cycle is `ApplyChange` on the schedule with the instruction finished, so it never rewinds the PC |
| `Core.CoreZero.QuantumCheck` | src/main/java/cr/ac/ucr/ecci/ci1323/core/AbstractCore.java:131-135 | after a context switch, the new context's quantum expires at once if it is already used up, and otherwise nothing changes |
| `Core.CoreZero.SolveInstructionMiss` | src/main/java/cr/ac/ucr/ecci/ci1323/core/CoreZero.java:385-392 | the line is reserved for the fill, which succeeds as `InstructionFilled` says in failures + 41 cycles; the reservation is released after a success and kept after a fault |
| `Core.CoreZero.SolveMissLocally` | src/main/java/cr/ac/ucr/ecci/ci1323/core/CoreZero.java:353-375 | the core's own thread serves the miss through the routine for its type; the scheduling is untouched; a data miss changes lines and registers and ends with the result `MissOutcomeOf` says; the line is released unless the miss faulted, and a late fault keeps the bus held |
| `Core.CoreZero.StartHelper` | src/main/java/cr/ac/ucr/ecci/ci1323/core/CoreZero.java:292-309 | a fresh handler is set up for exactly this miss and the running context, the given change is posted, and the data line is released |
| `Core.CoreZero.QueueBranch` | src/main/java/cr/ac/ucr/ecci/ci1323/core/CoreZero.java:311-336 | the queue is polled; a head becomes the next context with a helper and NEXT_CONTEXT; an empty queue makes the core solve the miss itself; the queue lock is released unless a fault cut the branch short |
| `Core.CoreZero.MissFromQueue` | src/main/java/cr/ac/ucr/ecci/ci1323/core/CoreZero.java:311-334 | the queue is polled and the miss is served as `ServeMiss` says, with the queue still held |
| `Core.CoreZero.ServeMiss` | src/main/java/cr/ac/ucr/ecci/ci1323/core/CoreZero.java:318-334 | a head gets a helper started with NEXT_CONTEXT; no head means a local solve, with the next slot cleared |
| `Core.CoreZero.DispatchMiss` | src/main/java/cr/ac/ucr/ecci/ci1323/core/CoreZero.java:288-336 | the slots become `Dispatched`: a waiting context gets a helper and BRING_WAITING; a running helper makes the context wait for the reservation; otherwise the queue branch runs, and a queue lock already held faults |
| `Core.CoreZero.EnterCacheMiss` | src/main/java/cr/ac/ucr/ecci/ci1323/core/CoreZero.java:288-340 | the miss is dispatched and a clock cycle follows; with a waiting context the miss counts as solved, with a helper running it does not, and a started helper always ends the call with the context switched |
| `Core.CoreZero.CanMakeReservation` | src/main/java/cr/ac/ucr/ecci/ci1323/core/CoreZero.java:470-481 | succeeds as `Reserve` says, and the reservation becomes `Reserve`'s |
| `Core.CoreZero.PeerLine` | src/main/java/cr/ac/ucr/ecci/ci1323/core/AbstractCore.java:460-465 | core zero's peer line number for block b is b mod 4, for every block with a line, a negative multiple of 8 included |
| `Core.CoreZero.PeerPosition` | src/main/java/cr/ac/ucr/ecci/ci1323/core/CoreZero.java:435-436 | the peer line found for block b is line b mod 4 of core one's cache |
| `Core.CoreZero.LoadMissOnBus` | src/main/java/cr/ac/ucr/ecci/ci1323/core/CoreZero.java:430-454 | under the bus: failures + 1 cycles; the lines and memory become `LoadMissAsWritten` and the peer is released; a block beyond the memory faults exactly then, after the eviction, with the peer held; the local line stays held |
| `Core.CoreZero.LoadMissHoldingBus` | src/main/java/cr/ac/ucr/ecci/ci1323/core/CoreZero.java:428-458 | the fill as above; with the block in memory and the offset and register in range the word is copied into the target register and bus and line released; otherwise an index fault with the registers as they were and bus and line still held (and the peer too for a block beyond the memory) |
| `Core.CoreZero.SolveDataLoadMiss` | src/main/java/cr/ac/ucr/ecci/ci1323/core/CoreZero.java:405-461 | another context's reservation or a busy bus gives up after one cycle, with the line released and nothing else changed; otherwise the lines and memory become `LoadMissAsWritten`, and either the register gets the word and every lock and the reservation are released, or an out-of-range offset or register faults with the bus, line and reservation held; a block beyond the memory faults in the fill, after the eviction, with the peer held as well |
| `Core.CoreZero.StoreMissOnBus` | src/main/java/cr/ac/ucr/ecci/ci1323/core/CoreZero.java:536-575 | under the bus: failures + 1 cycles; lines and memory become `StoreFill` and the peer is released; a block beyond the memory faults exactly then, after the eviction, with the peer held |
| `Core.CoreZero.StoreMissHoldingBus` | src/main/java/cr/ac/ucr/ecci/ci1323/core/CoreZero.java:534-582 | the fill, the word stored, and every lock released; an out-of-range offset instead faults after the fill (`StoreFill` after `Evict`), and a block beyond the memory in the fill, with bus and line held (and the peer for the latter) |
| `Core.CoreZero.SolveDataStoreMiss` | src/main/java/cr/ac/ucr/ecci/ci1323/core/CoreZero.java:510-583 | gives up as the load miss does; otherwise lines and memory become `StoreMiss` (MODIFIED here, INVALID there), and every lock and the reservation are released; an out-of-range offset faults after the fill, and a block beyond the memory in the fill after the eviction, with the bus, line and reservation held (and the peer for the latter) |
| `Core.CoreZero.StoreHitOnBus` | src/main/java/cr/ac/ucr/ecci/ci1323/core/CoreZero.java:638-653 | under the bus: the peer is locked, invalidated only if its copy is not SHARED, and released; the line becomes MODIFIED with the word; an out-of-range offset faults after the upgrade with the peer still held |
| `Core.CoreZero.SolveDataStoreHit` | src/main/java/cr/ac/ucr/ecci/ci1323/core/CoreZero.java:610-664 | a MODIFIED line is written at once and solved, or faults at once on a bad offset with nothing changed; otherwise the reservation and bus must be had or it gives up with nothing changed; with both, the lines become `StoreHitAsWritten` and all locks and the reservation are released, or a bad offset faults with them held |
| `Core.MissHandler.constructor` | src/main/java/cr/ac/ucr/ecci/ci1323/core/MissHandler.java:21-32 | the handler records the core, context, miss type, block, line, offset, register and thread it serves |
| `Core.MissHandler.Run` | src/main/java/cr/ac/ucr/ecci/ci1323/core/MissHandler.java:35-40 | a store-type miss faults; a fault leaves core zero's scheduling untouched; success puts the handler's context in the waiting slot, applies the swap-back rule, and clears the helper |
| `Core.MissHandler.SolveMiss` | src/main/java/cr/ac/ucr/ecci/ci1323/core/MissHandler.java:42-55 | an instruction or load miss is solved by the handler's thread; store and store-hit misses fault as an illegal argument |
| `Core.MissHandler.SolveInstructionMiss` | src/main/java/cr/ac/ucr/ecci/ci1323/core/MissHandler.java:57-63 | the same reserve, fill and release as core zero's own, on the handler's thread |
| `Core.MissHandler.SolveDataLoadMiss` | src/main/java/cr/ac/ucr/ecci/ci1323/core/MissHandler.java:65-78 | a held line faults; a hit writes the word and releases the line, or faults on a bad offset or register with the line held; a miss runs core zero's load miss for the handler's context, and the unlock that follows faults unless the miss itself faulted |
| `Core.MissHandler.LoadAttempt` | src/main/java/cr/ac/ucr/ecci/ci1323/core/MissHandler.java:67-77 | one pass of the load loop, with the same outcomes |
| `Core.MissHandler.LoadHit` | src/main/java/cr/ac/ucr/ecci/ci1323/core/MissHandler.java:70-74 | with the offset and register in range the word goes into the register and the line is released; otherwise an index fault with the line held and the registers as they were; the lines are untouched |
| `Core.MissHandler.LoadMissAttempt` | src/main/java/cr/ac/ucr/ecci/ci1323/core/MissHandler.java:74-76 | the lines and registers change as `MissOutcomeOf` says for a load; a fault of the miss is returned with the line held, and otherwise the second unlock faults with the line free |
| `Loader.AllLines` | src/main/java/cr/ac/ucr/ecci/ci1323/controller/parser/FileParser.java:90-105 | the lines of all files in file order; `Loader.AllLinesPrefix` and `Loader.FileLinesInPlace` place each file within them |
| `Loader.StartPC` | src/main/java/cr/ac/ucr/ecci/ci1323/controller/parser/FileParser.java:93-99 | 384 plus one word per line of the earlier files; `Loader.StartPCsSeparate` and `Loader.StartPCDecodes` state what it gives |
| `Loader.FirstInvalid` | src/main/java/cr/ac/ucr/ecci/ci1323/controller/parser/FileParser.java:65-66 | the first line without four fields, every line before it has four, and the result is at most the number of lines |
| `Loader.PackedBlock` | src/main/java/cr/ac/ucr/ecci/ci1323/controller/parser/FileParser.java:65-78 | block k of the packed program, line 4k+s in slot s; `Loader.PackedLinePlacement` states the placement |
| `Loader.Filled` | src/main/java/cr/ac/ucr/ecci/ci1323/controller/parser/FileParser.java:65-78 | the memory with its first blocks packed and the rest untouched; `Loader.StoreBlock` extends it one block at a time |
| `Loader.PackOutcome` | src/main/java/cr/ac/ucr/ecci/ci1323/controller/parser/FileParser.java:57-81 | how the packing ends and how many blocks it writes; `Loader.PackOutcomeCases` states when it succeeds |
| `Loader.ParseInstruction` | src/main/java/cr/ac/ucr/ecci/ci1323/controller/parser/FileParser.java:142-148 | a line is an instruction exactly when it has four fields, and then holds those fields; otherwise InvalidInstructionException |
| `Loader.NeededBlocks` | src/main/java/cr/ac/ucr/ecci/ci1323/controller/parser/FileParser.java:64 | the least number of four-slot blocks that hold n instructions (the ceiling of n/4) |
| `Loader.AllLinesPrefix` | src/main/java/cr/ac/ucr/ecci/ci1323/controller/parser/FileParser.java:90-105 | the lines of the first k files are a prefix of those of the first m ≥ k files |
| `Loader.FileLinesInPlace` | src/main/java/cr/ac/ucr/ecci/ci1323/controller/parser/FileParser.java:90-105 | file k's lines sit in the collected lines right after those of the files before it |
| `Loader.StartPCsSeparate` | src/main/java/cr/ac/ucr/ecci/ci1323/controller/parser/FileParser.java:93-99 | every start PC is word aligned and ≥ 384, and the code of two different contexts never overlaps |
| `Loader.StartPCDecodes` | src/main/java/cr/ac/ucr/ecci/ci1323/controller/parser/FileParser.java:93-99 | context k's start PC names block 24 + j/4, slot j mod 4, where j is the index of its first line |
| `Loader.PackOutcomeCases` | src/main/java/cr/ac/ucr/ecci/ci1323/controller/parser/FileParser.java:57-81 | packing succeeds exactly when every line has four fields and the blocks fit; then n/4 blocks are written, plus one for a partial block; it never writes more than it needs or than memory has; an invalid-instruction fault means a bad line exists |
| `Loader.PackedLinePlacement` | src/main/java/cr/ac/ucr/ecci/ci1323/controller/parser/FileParser.java:65-78 | after a successful pack, line j is slot j mod 4 of memory block j/4 |
| `Loader.StartPCFetchesFirstLine` | src/main/java/cr/ac/ucr/ecci/ci1323/controller/parser/FileParser.java:93-99 | after a successful pack, fetching at context k's start PC through the instruction bus yields file k's first line |
| `Loader.StoreBlock` | src/main/java/cr/ac/ucr/ecci/ci1323/controller/parser/FileParser.java:69-72 | storing the next packed block extends the filled prefix of memory by one |
| `Loader.FileParser.constructor` | src/main/java/cr/ac/ucr/ecci/ci1323/controller/parser/FileParser.java:34-48 | the parser keeps the given files, queue and instruction bus |
| `Loader.FileParser.ReadFiles` | src/main/java/cr/ac/ucr/ecci/ci1323/controller/parser/FileParser.java:90-105 | returns all lines in file order; one fresh context per file is appended to the queue, context k numbered k, starting at 384 + 4·(lines before file k) with zeroed registers |
| `Loader.FileParser.PrepareSimulation` | src/main/java/cr/ac/ucr/ecci/ci1323/controller/parser/FileParser.java:57-81 | the contexts as `ReadFiles` says; the outcome is `PackOutcome`, and memory ends as `Filled` with the blocks written by then |
| `Loader.FileParser.PackInstructions` | src/main/java/cr/ac/ucr/ecci/ci1323/controller/parser/FileParser.java:60-78 | the packing loop, with the trailing partial block: the outcome is `PackOutcome`, and memory ends as `Filled` |

## Left out

- Threads and the Phaser: each core and miss handler is a sequential object. Concurrent
  interleavings are not modelled. The number of failed lock attempts in every retry loop is a
  parameter.
- `executeCore`'s outer loop and the fetch through `getInstructionBlockFromCache`
  (CoreZero.java:227-249): the step takes the fetched instruction as a parameter. The fill itself
  is modelled (`Core.CoreZero.SolveInstructionMiss`), and so is the catch clause
  (`Core.CoreZero.QuantumCheck`).
- Core.CoreZero.ExecuteLW: one pass of `executeLW`'s retry loop. A miss returns the pending
  access instead of looping through `handleLoadMiss`.
- Core.CoreZero.ExecuteSW: one pass of `executeSW`'s retry loop, as for the load.
- Core.CoreZero.ExecuteLW: the wait for another context's reservation in
  `lockDataCachePosition` (CoreZero.java:257-271) is not modelled; the line is locked directly.
- Core.CoreZero.ExecuteCoreStep: requires that no NEXT_CONTEXT request is pending. The source
  can post one in `quantumExpired` inside the catch clause, and it is consumed at the next cycle.
- Core.CoreZero.EnterCacheMiss: requires that no NEXT_CONTEXT request is pending, as above. The
  lines and registers of the miss are stated through `Core.CoreZero.DispatchMiss` only.
- Core.CoreZero.ExecuteFIN: states the context's changes and that the scheduling stays ready.
  The queue and slot changes are in `Core.CoreZero.ModifiableFINExecution`.
- Core.CoreZero.ExecuteCoreStep: the clock cycle that closes a step is stated outright only when
  the quantum does not expire; after an expiry it follows the requests `quantumExpired` posts,
  which are in `Core.CoreZero.QuantumExpired`.
- Clock cycles spent inside a data transaction are returned as a count (`cycles`). They are not
  added to the context's ticks, and the context changes that `advanceClockCycle` could make
  between them are not modelled.
- `DataCache` declares none of `writeBlockToMemory`, `getBlockFromMemory` or
  `setPositionFromAnother`, nor `DataBus.getOtherCachePosition`, though the core calls them. They
  are modelled by the contracts in the Model table: a write-back copies the words, a fetch sets
  tag and words, a copy sets tag and words, and none of them touches the state. A fetch is
  taken to read the memory block (DataBus.java:30) before it touches the line, so a block
  beyond the memory faults with the line unchanged.
- Coherence.Run: goes on after a step that faults. In the source the faulting thread dies
  holding the local line, the bus and, for a fill beyond the memory, the peer line, so later
  accesses to those lines would block; the model tracks only the lines and the memory.
- Contexts.Context: context/Context.java declares only the PC, the registers, the ticks and the
  context number. The cores also call `incrementPC`, `decrementPC`, `incrementQuantum`,
  `get/setCurrentQuantum`, `isOldContext/setOldContext`, `setFinishingCore`,
  `incrementClockCycle` and `getContextNumber`, which are declared nowhere. They are modelled
  with an assumed meaning: `IncrementPC` and `DecrementPC` move the PC by 4 with int
  wrap-around, `IncrementQuantum` and `IncrementClockCycle` add 1, `SetCurrentQuantum`,
  `SetOldContext` and `SetFinishingCore` set one field, and a new context starts with quantum 0,
  not old, and finishing core -1.
- MissHandler.java calls `blockDataCachePosition` and `solveDataLoadMissLocally`, which exist
  nowhere. They are modelled as core zero's line lock and `Core.CoreZero.SolveDataLoadMiss`.
- The trailing unlock at MissHandler.java:76 releases a line the load miss has already released.
  It is modelled as the fault it would raise.
- CoreOne.java: only its data cache, core one's lines, is modelled, as the peer of core zero's
  transactions.
- SimulationController, Main, the files under `control/` and core/Context.java are not part of
  this model. The same goes for printing and the final statistics.
- File discovery and reading in the FileParser constructor (`getResource`, `FileUtils.readLines`)
  are I/O. The loader takes each file as its lines already split at spaces and parsed to integers.
  `Integer.parseInt` failures (NumberFormatException) are therefore outside the loader.
- Blocks.Split and Blocks.ParseInt read back the tab-separated text `Instruction.toString`
  writes, which the program itself never reads. They are not `String.split` and
  `Integer.parseInt`: Split keeps trailing empty pieces, and ParseInt takes no `+` sign, only
  ASCII digits, and has no int range check.
- `programCounterIndex` in `readFiles` is an `int` and could overflow for very large programs.
  The loader computes start PCs with unbounded integers.
- DDIV with a zero divisor calls `System.exit` in the source; the model returns a DivisionByZero
  fault.

## Findings

| source | as written | input that shows it | evidently intended | confidence | as-written member | corrected member |
|---|---|---|---|---|---|---|
| src/main/java/cr/ac/ucr/ecci/ci1323/core/CoreZero.java:647-649 | on a store hit to a SHARED line, the peer copy is invalidated only when its state is not SHARED | block 1 SHARED in both caches; core zero stores to it; core one's copy stays SHARED while core zero's becomes MODIFIED | invalidate a peer copy of the block that is SHARED, as the comment above the code says | not executed | `Coherence.StoreHitAsWrittenBreaksCoherence` | `Coherence.StoreHitPreservesCoherence` |
| src/main/java/cr/ac/ucr/ecci/ci1323/core/CoreZero.java:430-461 | a load miss never sets the local line's state (given that `getBlockFromMemory` sets only tag and words) | core zero's line 5 holds block 13 MODIFIED and core one holds block 5 SHARED; loading block 5 leaves line 5 MODIFIED for block 5 | the line ends SHARED after a load miss | not executed; depends on the assumed helper contract | `Coherence.LoadMissAsWrittenBreaksCoherence` | `Coherence.LoadMissPreservesCoherence` |
| src/main/java/cr/ac/ucr/ecci/ci1323/memory/InstructionBus.java:28-30 | `setInstructionBlock(i, b)` writes slot i, while `getInstructionBlock(i)` reads slot i − 24 | `setInstructionBlock(24, b)` then `getInstructionBlock(24)` reads slot 0, not b | the setter subtracts 24 as the getter does | not executed | `Memory.SetThenGetMismatch` | `Memory.InstructionBus.SetInstructionBlockMapped` |
