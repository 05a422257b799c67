/**
 * The program loader of FileParser: the contexts' files are read in order, context k is
 * numbered k and starts at the PC just past the lines of the files before it, and all lines
 * are packed four to a block into the instruction memory, a trailing partial block included.
 * A file is given as its lines, each already split at single spaces and parsed to integers.
 */
module Loader {
  import opened Wrappers
  import opened Exceptions
  import C = SimulationConstants
  import Blocks
  import Contexts
  import Memory
  import AC = AbstractCore
  import JavaInt

  /** A context file: one entry per line, holding the line's fields. */
  type ProgramFile = seq<seq<int>>

  // ---------------------------------------------------------------- reference definitions

  /** The lines of all files, in file order, as `readFiles` collects them. */
  function AllLines(files: seq<ProgramFile>): seq<seq<int>>
  {
    if |files| == 0 then [] else AllLines(files[..|files| - 1]) + files[|files| - 1]
  }

  /** The PC context `k` starts at: the first instruction address plus one word per earlier line. */
  function StartPC(files: seq<ProgramFile>, k: nat): int
    requires k <= |files|
  {
    C.INSTRUCTIONS_START + C.WORD_SIZE * |AllLines(files[..k])|
  }

  /** `parseInstruction`: a line must have exactly four fields. */
  function ParseInstruction(fields: seq<int>): (r: Result<Blocks.Instruction, Fault>)
    ensures r.Ok? <==> |fields| == C.TOTAL_INSTRUCTION_FIELDS
    ensures r.Ok? ==> r.value.WellFormed() && r.value.instructionFields == fields
    ensures r.Err? ==> r.error == InvalidInstructionException
  {
    if |fields| != C.TOTAL_INSTRUCTION_FIELDS then Err(InvalidInstructionException)
    else Ok(Blocks.Instruction(fields))
  }

  /** `neededInstructionBlocks`: the number of blocks of four that hold `n` instructions. */
  function NeededBlocks(n: nat): (m: nat)
    ensures C.INSTRUCTIONS_PER_BLOCK * m >= n
    ensures m > 0 ==> C.INSTRUCTIONS_PER_BLOCK * (m - 1) < n
  {
    (n + C.INSTRUCTIONS_PER_BLOCK - 1) / C.INSTRUCTIONS_PER_BLOCK
  }

  /** Block `k` of the packed program: slot s holds line 4k+s, or nothing past the last line. */
  function PackedBlock(lines: seq<seq<int>>, k: nat): Blocks.InstructionBlock
  {
    seq(C.INSTRUCTIONS_PER_BLOCK, s requires 0 <= s < C.INSTRUCTIONS_PER_BLOCK =>
      if C.INSTRUCTIONS_PER_BLOCK * k + s < |lines|
      then Some(Blocks.Instruction(lines[C.INSTRUCTIONS_PER_BLOCK * k + s])) else None)
  }

  /** The memory with its first `written` slots holding the packed blocks and the rest untouched. */
  function Filled(memory: seq<Option<Blocks.InstructionBlock>>, lines: seq<seq<int>>, written: nat)
    : seq<Option<Blocks.InstructionBlock>>
  {
    seq(|memory|, i requires 0 <= i < |memory| => if i < written then Some(PackedBlock(lines, i)) else memory[i])
  }

  /** The index of the first line without four fields, or the number of lines when there is none. */
  function FirstInvalid(lines: seq<seq<int>>): (j: nat)
    ensures j <= |lines|
    ensures forall i :: 0 <= i < j ==> |lines[i]| == C.TOTAL_INSTRUCTION_FIELDS
    ensures j < |lines| ==> |lines[j]| != C.TOTAL_INSTRUCTION_FIELDS
  {
    if |lines| == 0 then 0
    else if |lines[0]| != C.TOTAL_INSTRUCTION_FIELDS then 0
    else 1 + FirstInvalid(lines[1..])
  }

  /**
   * How packing `lines` into a memory of `slots` blocks ends, and how many blocks it has written
   * by then. Line j is parsed before block j/4 is stored, so a bad line ends the packing unless a
   * full block beyond the memory came first; running past the memory is an index fault.
   */
  function PackOutcome(lines: seq<seq<int>>, slots: nat): (Result<(), Fault>, nat)
  {
    var bad := FirstInvalid(lines);
    if bad < |lines| && bad < C.INSTRUCTIONS_PER_BLOCK * (slots + 1) then
      (Err(InvalidInstructionException), bad / C.INSTRUCTIONS_PER_BLOCK)
    else if NeededBlocks(|lines|) > slots then (Err(IndexOutOfBounds), slots)
    else (Ok(()), NeededBlocks(|lines|))
  }

  /** A fresh context as `new Context(pc, number)` leaves it. */
  ghost predicate Initial(c: Contexts.Context, pc: int, number: int)
    reads c, c.registers
  {
    c.programCounter == pc && c.contextNumber == number
    && c.registers.Length == C.TOTAL_REGISTERS
    && (forall i :: 0 <= i < c.registers.Length ==> c.registers[i] == 0)
    && c.executionTics == C.INITIAL_TICKS && c.currentQuantum == C.INITIAL_QUANTUM && !c.oldContext
  }

  // ---------------------------------------------------------------- properties of the layout

  /** The lines of the first k files are a prefix of the lines of the first m files. */
  lemma {:induction false} AllLinesPrefix(files: seq<ProgramFile>, k: nat, m: nat)
    requires k <= m <= |files|
    ensures AllLines(files[..k]) <= AllLines(files[..m])
  {
    if k < m {
      AllLinesPrefix(files, k, m - 1);
      assert files[..m][..m - 1] == files[..m - 1];
    } else {
      assert files[..k] == files[..m];
    }
  }

  /** File k's lines sit in the concatenation right after the lines of the files before it. */
  lemma FileLinesInPlace(files: seq<ProgramFile>, k: nat)
    requires k < |files|
    ensures var j := |AllLines(files[..k])|;
      j + |files[k]| <= |AllLines(files)| && AllLines(files)[j..j + |files[k]|] == files[k]
  {
    assert files[..k + 1][..k] == files[..k];
    assert AllLines(files[..k + 1]) == AllLines(files[..k]) + files[k];
    AllLinesPrefix(files, k + 1, |files|);
    assert files[..|files|] == files;
  }

  /** Every context starts word-aligned, and a later context starts past the code of an earlier one. */
  lemma StartPCsSeparate(files: seq<ProgramFile>, k1: nat, k2: nat)
    requires k1 < k2 <= |files|
    ensures StartPC(files, k1) % C.WORD_SIZE == 0 && StartPC(files, k1) >= C.INSTRUCTIONS_START
    ensures StartPC(files, k1) + C.WORD_SIZE * |files[k1]| <= StartPC(files, k2)
  {
    assert files[..k1 + 1][..k1] == files[..k1];
    assert AllLines(files[..k1 + 1]) == AllLines(files[..k1]) + files[k1];
    AllLinesPrefix(files, k1 + 1, k2);
  }

  /**
   * A start PC addresses the first line of its file: its instruction block number, minus the 24
   * data blocks, and its offset are the line's memory slot and its place in that block.
   */
  lemma StartPCDecodes(files: seq<ProgramFile>, k: nat)
    requires k < |files| && StartPC(files, k) <= JavaInt.INT_MAX
    ensures var pc, j := StartPC(files, k), |AllLines(files[..k])|;
      AC.CalculateInstructionBlockNumber(pc) - C.TOTAL_DATA_BLOCKS == j / C.INSTRUCTIONS_PER_BLOCK
      && AC.CalculateInstructionOffset(pc) == j % C.INSTRUCTIONS_PER_BLOCK
  {
    var pc, j := StartPC(files, k), |AllLines(files[..k])|;
    JavaInt.SmallDivisor(pc, 16);
    JavaInt.SmallDivisor(pc % 16, 4);
    assert pc == 16 * (24 + j / 4) + 4 * (j % 4);
  }

  /**
   * The outcome of packing: it succeeds exactly when every line has four fields and the ceiling
   * of n/4 blocks fit, and then it has written exactly those blocks, the last one partial iff n
   * is not a multiple of 4. It never writes past that ceiling or past the memory.
   */
  lemma PackOutcomeCases(lines: seq<seq<int>>, slots: nat)
    ensures var (outcome, written) := PackOutcome(lines, slots);
      (outcome.Ok? <==>
         (forall i :: 0 <= i < |lines| ==> |lines[i]| == C.TOTAL_INSTRUCTION_FIELDS)
         && NeededBlocks(|lines|) <= slots)
      && (outcome.Ok? ==> written == |lines| / 4 + (if |lines| % 4 == 0 then 0 else 1))
      && written <= NeededBlocks(|lines|) && written <= slots
      && (outcome == Err(InvalidInstructionException) ==>
            exists i :: 0 <= i < |lines| && |lines[i]| != C.TOTAL_INSTRUCTION_FIELDS)
  {
    var bad := FirstInvalid(lines);
    if bad < |lines| {
      assert |lines[bad]| != C.TOTAL_INSTRUCTION_FIELDS;
    }
  }

  /** After a successful packing, line j is slot j mod 4 of the block at memory slot j/4. */
  lemma PackedLinePlacement(memory: seq<Option<Blocks.InstructionBlock>>, lines: seq<seq<int>>, j: nat)
    requires PackOutcome(lines, |memory|).0.Ok? && j < |lines|
    ensures var filled := Filled(memory, lines, PackOutcome(lines, |memory|).1);
      j / 4 < |filled| && filled[j / 4].Some?
      && filled[j / 4].value[j % 4] == Some(Blocks.Instruction(lines[j]))
  {
    PackOutcomeCases(lines, |memory|);
    assert 4 * (j / 4) + j % 4 == j;
  }

  /**
   * After `prepareSimulation` succeeds, fetching at context k's start PC through the instruction
   * bus yields the first line of file k.
   */
  lemma StartPCFetchesFirstLine(bus: Memory.InstructionBus, before: seq<Option<Blocks.InstructionBlock>>,
                                files: seq<ProgramFile>, k: nat)
    requires |before| == bus.instructionMemory.Length
    requires PackOutcome(AllLines(files), |before|).0.Ok?
    requires bus.instructionMemory[..] == Filled(before, AllLines(files), PackOutcome(AllLines(files), |before|).1)
    requires k < |files| && |files[k]| > 0 && StartPC(files, k) <= JavaInt.INT_MAX
    ensures var pc := StartPC(files, k);
      bus.GetMemoryInstructionBlockInstruction(AC.CalculateInstructionBlockNumber(pc), AC.CalculateInstructionOffset(pc))
      == Ok(Some(Blocks.Instruction(files[k][0])))
  {
    var j := |AllLines(files[..k])|;
    FileLinesInPlace(files, k);
    assert AllLines(files)[j] == files[k][0];
    StartPCDecodes(files, k);
    PackedLinePlacement(before, AllLines(files), j);
    assert bus.instructionMemory[j / 4] == Filled(before, AllLines(files), PackOutcome(AllLines(files), |before|).1)[j / 4];
  }

  // ---------------------------------------------------------------- the parser

  /** Storing the next packed block extends the filled prefix by one. */
  lemma FilledStep(memory: seq<Option<Blocks.InstructionBlock>>, lines: seq<seq<int>>, written: nat)
    requires written < |memory|
    ensures Filled(memory, lines, written)[written := Some(PackedBlock(lines, written))]
            == Filled(memory, lines, written + 1)
  {
  }

  /** `setInstructionBlock` of the next packed block: the filled prefix grows by one. */
  method StoreBlock(memory: array<Option<Blocks.InstructionBlock>>, written: nat, block: Blocks.InstructionBlock,
                    lines: seq<seq<int>>, ghost initial: seq<Option<Blocks.InstructionBlock>>)
    requires written < memory.Length == |initial| && block == PackedBlock(lines, written)
    requires memory[..] == Filled(initial, lines, written)
    modifies memory
    ensures memory[..] == Filled(initial, lines, written + 1)
  {
    FilledStep(initial, lines, written);
    memory[written] := Some(block);
  }

  /** Packing stops at the first bad line when the blocks before it fitted. */
  lemma PackStopsAtBadLine(lines: seq<seq<int>>, slots: nat, j: nat)
    requires j < |lines| && j <= FirstInvalid(lines) && |lines[j]| != C.TOTAL_INSTRUCTION_FIELDS
    requires j / C.INSTRUCTIONS_PER_BLOCK <= slots
    ensures PackOutcome(lines, slots) == (Err(InvalidInstructionException), j / C.INSTRUCTIONS_PER_BLOCK)
  {
  }

  /** Packing runs past the memory when a block beyond the last slot is reached with no bad line before it. */
  lemma PackOverflows(lines: seq<seq<int>>, slots: nat)
    requires NeededBlocks(|lines|) > slots
    requires FirstInvalid(lines) == |lines| || FirstInvalid(lines) >= C.INSTRUCTIONS_PER_BLOCK * (slots + 1)
    ensures PackOutcome(lines, slots) == (Err(IndexOutOfBounds), slots)
  {
  }

  /** Packing succeeds when every line is valid and the blocks fit. */
  lemma PackSucceeds(lines: seq<seq<int>>, slots: nat)
    requires FirstInvalid(lines) == |lines| && NeededBlocks(|lines|) <= slots
    ensures PackOutcome(lines, slots) == (Ok(()), NeededBlocks(|lines|))
  {
  }

  class FileParser {
    const files: seq<ProgramFile>
    const contextQueue: Contexts.ContextQueue
    const instructionBus: Memory.InstructionBus

    /** The files are the ones found at 0.txt, 1.txt, ... until the first missing one. */
    constructor(contextQueue: Contexts.ContextQueue, instructionBus: Memory.InstructionBus, files: seq<ProgramFile>)
      ensures this.contextQueue == contextQueue && this.instructionBus == instructionBus && this.files == files
    {
      this.contextQueue := contextQueue;
      this.instructionBus := instructionBus;
      this.files := files;
    }

    /**
     * `readFiles`: one context per file, numbered in file order and pushed to the queue in that
     * order, each starting at the PC of its file's first line; the lines of all files are returned.
     */
    method ReadFiles() returns (lines: seq<seq<int>>)
      modifies contextQueue
      ensures lines == AllLines(files)
      ensures contextQueue.owner == old(contextQueue.owner)
      ensures |contextQueue.contents| == |old(contextQueue.contents)| + |files|
      ensures contextQueue.contents[..|old(contextQueue.contents)|] == old(contextQueue.contents)
      ensures forall k :: 0 <= k < |files| ==>
                fresh(contextQueue.contents[|old(contextQueue.contents)|..][k])
                && Initial(contextQueue.contents[|old(contextQueue.contents)|..][k], StartPC(files, k), k)
    {
      lines := [];
      var programCounterIndex := C.INSTRUCTIONS_START;
      var contextNumber := 0;
      while contextNumber < |files|
        invariant 0 <= contextNumber <= |files|
        invariant lines == AllLines(files[..contextNumber])
        invariant programCounterIndex == StartPC(files, contextNumber)
        invariant contextQueue.owner == old(contextQueue.owner)
        invariant |contextQueue.contents| == |old(contextQueue.contents)| + contextNumber
        invariant contextQueue.contents[..|old(contextQueue.contents)|] == old(contextQueue.contents)
        invariant forall k :: 0 <= k < contextNumber ==>
                    fresh(contextQueue.contents[|old(contextQueue.contents)|..][k])
                    && Initial(contextQueue.contents[|old(contextQueue.contents)|..][k], StartPC(files, k), k)
      {
        var context := new Contexts.Context(programCounterIndex, contextNumber);
        var newLines := files[contextNumber];
        assert files[..contextNumber + 1][..contextNumber] == files[..contextNumber];
        lines := lines + newLines;
        programCounterIndex := programCounterIndex + C.WORD_SIZE * |newLines|;
        contextQueue.PushContext(context);
        contextNumber := contextNumber + 1;
      }
      assert files[..contextNumber] == files;
    }

    /**
     * `prepareSimulation`: the files are read, then the lines are parsed one by one into a block
     * of four slots, each full block is stored at the next memory slot, and a trailing partial
     * block is stored after the last line. The memory array is written in place, so a fault
     * leaves the blocks stored before it.
     */
    method PrepareSimulation() returns (r: Result<(), Fault>)
      modifies contextQueue, instructionBus.instructionMemory
      ensures contextQueue.owner == old(contextQueue.owner)
      ensures |contextQueue.contents| == |old(contextQueue.contents)| + |files|
      ensures contextQueue.contents[..|old(contextQueue.contents)|] == old(contextQueue.contents)
      ensures forall k :: 0 <= k < |files| ==>
                fresh(contextQueue.contents[|old(contextQueue.contents)|..][k])
                && Initial(contextQueue.contents[|old(contextQueue.contents)|..][k], StartPC(files, k), k)
      ensures var (outcome, written) := PackOutcome(AllLines(files), instructionBus.instructionMemory.Length);
        r == outcome
        && instructionBus.instructionMemory[..] == Filled(old(instructionBus.instructionMemory[..]), AllLines(files), written)
    {
      var lines := ReadFiles();
      r := PackInstructions(lines);
    }

    /** The packing loop of `prepareSimulation`, as `PackOutcome` and `Filled` describe it. */
    method PackInstructions(lines: seq<seq<int>>) returns (r: Result<(), Fault>)
      modifies instructionBus.instructionMemory
      ensures var (outcome, written) := PackOutcome(lines, instructionBus.instructionMemory.Length);
        r == outcome
        && instructionBus.instructionMemory[..] == Filled(old(instructionBus.instructionMemory[..]), lines, written)
    {
      var memory := instructionBus.instructionMemory;
      var blockArray := new Option<Blocks.Instruction>[C.TOTAL_INSTRUCTION_FIELDS](_ => None);
      var memoryIndex := 0;
      var blockIndex := 0;
      var neededBlocks: int := NeededBlocks(|lines|);
      while blockIndex < |lines|
        invariant 0 <= blockIndex <= |lines| && blockIndex <= FirstInvalid(lines)
        invariant memoryIndex == blockIndex / C.INSTRUCTIONS_PER_BLOCK && memoryIndex <= memory.Length
        invariant fresh(blockArray) && blockArray.Length == C.INSTRUCTIONS_PER_BLOCK
        invariant forall s :: 0 <= s < C.INSTRUCTIONS_PER_BLOCK ==>
                    blockArray[s] == if s < blockIndex % C.INSTRUCTIONS_PER_BLOCK
                                     then Some(Blocks.Instruction(lines[C.INSTRUCTIONS_PER_BLOCK * memoryIndex + s]))
                                     else None
        invariant memory[..] == Filled(old(memory[..]), lines, memoryIndex)
      {
        var parsed := ParseInstruction(lines[blockIndex]);
        if parsed.Err? {
          PackStopsAtBadLine(lines, memory.Length, blockIndex);
          return Err(parsed.error);
        }
        blockArray[blockIndex % C.INSTRUCTIONS_PER_BLOCK] := Some(parsed.value);
        blockIndex := blockIndex + 1;
        if blockIndex % C.INSTRUCTIONS_PER_BLOCK == 0 {
          if memoryIndex >= memory.Length {
            PackOverflows(lines, memory.Length);
            return Err(IndexOutOfBounds);
          }
          assert blockArray[..] == PackedBlock(lines, memoryIndex);
          StoreBlock(memory, memoryIndex, blockArray[..], lines, old(memory[..]));
          blockArray := new Option<Blocks.Instruction>[C.TOTAL_INSTRUCTION_FIELDS](_ => None);
          memoryIndex := memoryIndex + 1;
        }
      }
      if memoryIndex == neededBlocks - 1 {
        if memoryIndex >= memory.Length {
          PackOverflows(lines, memory.Length);
          return Err(IndexOutOfBounds);
        }
        assert blockArray[..] == PackedBlock(lines, memoryIndex);
        StoreBlock(memory, memoryIndex, blockArray[..], lines, old(memory[..]));
      }
      PackSucceeds(lines, memory.Length);
      r := Ok(());
    }
  }
}
