/**
 * The pure part of the cores: address arithmetic (block number, word offset and cache line
 * from an address or the PC) and the meaning of each opcode over a 32-entry register file.
 * All arithmetic is Java `int` arithmetic: it wraps at 32 bits and divides toward zero.
 */
module AbstractCore {
  import opened Wrappers
  import opened Exceptions
  import opened JavaInt
  import C = SimulationConstants
  import Blocks

  // ---------------------------------------------------------------- addressing

  /** Data address of a load or store: R[f1] + f3. */
  function DataAddress(sourceRegister: int, immediate: int): int {
    Wrap(sourceRegister + immediate)
  }

  function CalculateDataBlockNumber(sourceRegister: int, immediate: int): int {
    Div(DataAddress(sourceRegister, immediate), C.BLOCK_SIZE)
  }

  function CalculateDataOffset(sourceRegister: int, immediate: int): int {
    Div(Rem(DataAddress(sourceRegister, immediate), C.BLOCK_SIZE), C.WORDS_PER_DATA_BLOCK)
  }

  /** Line of block `blockNumber` in core `coreNumber`'s cache: modulo 8 on core zero, 4 otherwise. */
  function CalculateCachePosition(blockNumber: int, coreNumber: int): int {
    if coreNumber == 0 then Rem(blockNumber, C.TOTAL_CORE_ZERO_CACHE_POSITIONS)
    else Rem(blockNumber, C.TOTAL_FIRST_CORE_CACHE_POSITIONS)
  }

  /** Line of block `blockNumber` in the cache of the core that is not `coreNumber`. */
  function CalculateOtherDataCachePosition(blockNumber: int, coreNumber: int): int {
    if coreNumber == 0 then Rem(blockNumber, C.TOTAL_FIRST_CORE_CACHE_POSITIONS)
    else Rem(blockNumber, C.TOTAL_CORE_ZERO_CACHE_POSITIONS)
  }

  function CalculateInstructionBlockNumber(programCounter: int): int {
    Div(programCounter, C.BLOCK_SIZE)
  }

  function CalculateInstructionOffset(programCounter: int): int {
    Div(Rem(programCounter, C.BLOCK_SIZE), C.INSTRUCTIONS_PER_BLOCK)
  }

  /** A non-negative block number lands on a line inside its own core's cache. */
  lemma CachePositionInRange(blockNumber: int, coreNumber: int)
    requires blockNumber >= 0 && (coreNumber == 0 || coreNumber == 1)
    ensures CalculateCachePosition(blockNumber, coreNumber) == blockNumber % C.LinesOf(coreNumber)
    ensures 0 <= CalculateCachePosition(blockNumber, coreNumber) < C.LinesOf(coreNumber)
  {
    SmallDivisor(blockNumber, C.LinesOf(coreNumber));
  }

  /** The peer's line is the line the peer core itself would compute. */
  lemma OtherPositionIsPeerPosition(blockNumber: int, coreNumber: int)
    requires coreNumber == 0 || coreNumber == 1
    ensures CalculateOtherDataCachePosition(blockNumber, coreNumber)
            == CalculateCachePosition(blockNumber, 1 - coreNumber)
  {
  }

  /** A block maps to the line of core one that its core-zero line maps to (8 is a multiple of 4). */
  lemma LinesNest(blockNumber: int)
    requires blockNumber >= 0
    ensures CalculateCachePosition(CalculateCachePosition(blockNumber, 0), 1)
            == CalculateCachePosition(blockNumber, 1)
  {
    SmallDivisor(blockNumber, 8);
    SmallDivisor(blockNumber, 4);
    SmallDivisor(blockNumber % 8, 4);
    var q, r := blockNumber / 8, blockNumber % 8;
    var s, t := r / 4, r % 4;
    assert blockNumber == 4 * (2 * q + s) + t && 0 <= t < 4;
    assert blockNumber % 4 == t;
  }

  /**
   * A non-negative address a is word (a mod 16) / 4 of block a / 16; the offset is a valid
   * word index and the pair recovers the address up to its byte within the word.
   */
  lemma DataAddressDecomposition(sourceRegister: int, immediate: int)
    requires DataAddress(sourceRegister, immediate) >= 0
    ensures var a := DataAddress(sourceRegister, immediate);
      var b := CalculateDataBlockNumber(sourceRegister, immediate);
      var o := CalculateDataOffset(sourceRegister, immediate);
      b == a / 16 && o == (a % 16) / 4 && 0 <= o < C.WORDS_PER_DATA_BLOCK
      && b * C.BLOCK_SIZE + o * C.WORD_SIZE + a % 4 == a
  {
    var a := DataAddress(sourceRegister, immediate);
    SmallDivisor(a, 16);
    SmallDivisor(a % 16, 4);
  }

  /**
   * A negative address truncates toward zero: an address in (-16, 0) still names block 0, and
   * from -4 down its offset is negative (so the word access faults).
   */
  lemma NegativeDataAddress(sourceRegister: int, immediate: int)
    requires -16 < DataAddress(sourceRegister, immediate) < 0
    ensures CalculateDataBlockNumber(sourceRegister, immediate) == 0
    ensures var o := CalculateDataOffset(sourceRegister, immediate);
      -C.WORDS_PER_DATA_BLOCK < o <= 0
      && (o < 0 <==> DataAddress(sourceRegister, immediate) <= -4)
  {
    var a := DataAddress(sourceRegister, immediate);
    SmallDivisor(a, 16);
    assert Rem(a, 16) == a;
    SmallDivisor(a, 4);
  }

  /** A word-aligned PC is exactly instruction `offset` of block `block`. */
  lemma ProgramCounterDecomposition(programCounter: int)
    requires IsInt(programCounter) && programCounter >= 0 && programCounter % C.WORD_SIZE == 0
    ensures var b := CalculateInstructionBlockNumber(programCounter);
      var o := CalculateInstructionOffset(programCounter);
      b * C.BLOCK_SIZE + o * C.WORD_SIZE == programCounter && 0 <= o < C.INSTRUCTIONS_PER_BLOCK
  {
    SmallDivisor(programCounter, 16);
    SmallDivisor(programCounter % 16, 4);
  }

  // ---------------------------------------------------------------- instruction set

  const JR: int := 2
  const JAL: int := 3
  const BEQZ: int := 4
  const BNEZ: int := 5
  const DADDI: int := 8
  const DMUL: int := 12
  const DDIV: int := 14
  const DADD: int := 32
  const DSUB: int := 34
  const LW: int := 35
  const SW: int := 43
  const FIN: int := 63

  predicate IsOpcode(op: int) {
    op in {JR, JAL, BEQZ, BNEZ, DADDI, DMUL, DDIV, DADD, DSUB, LW, SW, FIN}
  }

  /** What an instruction does: a new register file and PC, a memory access, or the end. */
  datatype Effect =
    | Transfer(registers: seq<int>, pc: int)
    | Load(address: int, target: int)
    | Store(address: int, value: int)
    | Finish

  function Read(registers: seq<int>, index: int): (r: Result<int, Fault>)
    ensures r.Ok? <==> 0 <= index < |registers|
    ensures r.Ok? ==> r.value == registers[index]
  {
    if 0 <= index < |registers| then Ok(registers[index]) else Err(IndexOutOfBounds)
  }

  function Write(registers: seq<int>, index: int, value: int): (r: Result<seq<int>, Fault>)
    ensures r.Ok? <==> 0 <= index < |registers|
    ensures r.Ok? ==> r.value == registers[index := value]
  {
    if 0 <= index < |registers| then Ok(registers[index := value]) else Err(IndexOutOfBounds)
  }

  /** `R[t] := R[a] op R[b]`: both operands are read (left first) before the target is checked. */
  function Binary(registers: seq<int>, a: int, b: int, t: int, op: int): Result<seq<int>, Fault>
    requires op in {DMUL, DDIV, DADD, DSUB}
  {
    match Read(registers, a)
    case Err(e) => Err(e)
    case Ok(x) =>
      match Read(registers, b)
      case Err(e) => Err(e)
      case Ok(y) =>
        if op == DDIV && y == 0 then Err(DivisionByZero)
        else
          var v := if op == DMUL then Wrap(x * y)
                   else if op == DDIV then Div(x, y)
                   else if op == DADD then Wrap(x + y)
                   else Wrap(x - y);
          Write(registers, t, v)
  }

  function Branch(registers: seq<int>, a: int, pc: int, offset: int, whenZero: bool): Result<Effect, Fault> {
    match Read(registers, a)
    case Err(e) => Err(e)
    case Ok(x) =>
      var taken := if whenZero then x == 0 else x != 0;
      Ok(Transfer(registers, if taken then Wrap(pc + 4 * offset) else pc))
  }

  /**
   * `executeInstruction` on the current context, whose PC has already been advanced past the
   * instruction: opcodes outside the instruction set are rejected, register indices outside
   * 0..31 fault, and a zero divisor is fatal.
   */
  function Execute(ins: Blocks.Instruction, registers: seq<int>, pc: int): (r: Result<Effect, Fault>)
    requires ins.WellFormed()
    ensures !IsOpcode(ins.GetOperationCode()) <==> r == Err(IllegalArgumentException)
    ensures r.Ok? && r.value.Finish? <==> ins.GetOperationCode() == FIN
  {
    var op, f1, f2, f3 := ins.GetField(0), ins.GetField(1), ins.GetField(2), ins.GetField(3);
    if op == JR then
      match Read(registers, f1)
      case Err(e) => Err(e)
      case Ok(x) => Ok(Transfer(registers, x))
    else if op == JAL then
      match Write(registers, C.LINK_REGISTER, pc)
      case Err(e) => Err(e)
      case Ok(rs) => Ok(Transfer(rs, Wrap(pc + f3)))
    else if op == BEQZ then Branch(registers, f1, pc, f3, true)
    else if op == BNEZ then Branch(registers, f1, pc, f3, false)
    else if op == DADDI then
      match Read(registers, f1)
      case Err(e) => Err(e)
      case Ok(x) =>
        match Write(registers, f2, Wrap(x + f3))
        case Err(e) => Err(e)
        case Ok(rs) => Ok(Transfer(rs, pc))
    else if op in {DMUL, DDIV, DADD, DSUB} then
      match Binary(registers, f1, f2, f3, op)
      case Err(e) => Err(e)
      case Ok(rs) => Ok(Transfer(rs, pc))
    else if op == LW then
      match Read(registers, f1)
      case Err(e) => Err(e)
      case Ok(x) => Ok(Load(DataAddress(x, f3), f2))
    else if op == SW then
      match Read(registers, f1)
      case Err(e) => Err(e)
      case Ok(x) =>
        match Read(registers, f2)
        case Err(e) => Err(e)
        case Ok(v) => Ok(Store(DataAddress(x, f3), v))
    else if op == FIN then Ok(Finish)
    else Err(IllegalArgumentException)
  }

  predicate RegistersInRange(ins: Blocks.Instruction)
    requires ins.WellFormed()
  {
    forall k :: 1 <= k < 4 ==> 0 <= ins.instructionFields[k] < C.TOTAL_REGISTERS
  }

  /** Every opcode of the instruction set executes when its register fields are in range. */
  lemma ValidInstructionsExecute(ins: Blocks.Instruction, registers: seq<int>, pc: int)
    requires ins.WellFormed() && RegistersInRange(ins) && |registers| == C.TOTAL_REGISTERS
    requires IsOpcode(ins.GetOperationCode())
    requires ins.GetOperationCode() == DDIV ==> registers[ins.GetField(2)] != 0
    ensures Execute(ins, registers, pc).Ok?
  {
    var f := ins.instructionFields;
    assert 0 <= f[1] < 32 && 0 <= f[2] < 32 && 0 <= f[3] < 32;
  }

  /**
   * The arithmetic opcodes write exactly one register (f2 for DADDI, f3 for the others) with the
   * wrapped result and leave the PC alone.
   */
  lemma ArithmeticWritesOneRegister(ins: Blocks.Instruction, registers: seq<int>, pc: int)
    requires ins.WellFormed() && RegistersInRange(ins) && |registers| == C.TOTAL_REGISTERS
    requires ins.GetOperationCode() in {DADDI, DMUL, DDIV, DADD, DSUB}
    requires ins.GetOperationCode() == DDIV ==> registers[ins.GetField(2)] != 0
    ensures Execute(ins, registers, pc).Ok? && Execute(ins, registers, pc).value.Transfer?
    ensures var e := Execute(ins, registers, pc).value;
      var f := ins.instructionFields;
      var target := if f[0] == DADDI then f[2] else f[3];
      var x, y := registers[f[1]], registers[f[2]];
      e.pc == pc && |e.registers| == |registers|
      && (forall k :: 0 <= k < |registers| && k != target ==> e.registers[k] == registers[k])
      && e.registers[target] == (if f[0] == DADDI then Wrap(x + f[3])
                                 else if f[0] == DMUL then Wrap(x * y)
                                 else if f[0] == DDIV then Div(x, y)
                                 else if f[0] == DADD then Wrap(x + y)
                                 else Wrap(x - y))
  {
    var f := ins.instructionFields;
    assert 0 <= f[1] < 32 && 0 <= f[2] < 32 && 0 <= f[3] < 32;
  }

  /** Exactly one of BEQZ and BNEZ takes a given branch; a taken branch moves 4 * f3 bytes. */
  lemma BranchesAreComplementary(registers: seq<int>, a: int, pc: int, offset: int)
    requires 0 <= a < |registers|
    ensures Branch(registers, a, pc, offset, true).Ok? && Branch(registers, a, pc, offset, false).Ok?
    ensures var z, n := Branch(registers, a, pc, offset, true).value, Branch(registers, a, pc, offset, false).value;
      z.registers == registers && n.registers == registers
      && (registers[a] == 0 ==> z.pc == Wrap(pc + 4 * offset) && n.pc == pc)
      && (registers[a] != 0 ==> n.pc == Wrap(pc + 4 * offset) && z.pc == pc)
  {
  }

  /** JAL saves the return PC in R31, so a later `JR 31` comes back right after the JAL. */
  lemma JumpAndLinkReturns(jal: Blocks.Instruction, jr: Blocks.Instruction, registers: seq<int>, pc: int)
    requires jal.WellFormed() && jr.WellFormed() && |registers| == C.TOTAL_REGISTERS
    requires jal.GetOperationCode() == JAL
    requires jr.GetOperationCode() == JR && jr.GetField(1) == C.LINK_REGISTER
    ensures var call := Execute(jal, registers, pc);
      call.Ok? && call.value.Transfer? && call.value.pc == Wrap(pc + jal.GetField(3))
      && Execute(jr, call.value.registers, call.value.pc) == Ok(Transfer(call.value.registers, pc))
  {
  }

  /** Wrap-around subtraction is undone by wrap-around addition, as on the machine. */
  lemma WrapAddUndoesSub(x: int, y: int)
    requires IsInt(x)
    ensures Wrap(Wrap(x - y) + y) == x
  {
    var d := Wrap(x - y);
    assert (x - y - d) % MODULUS == 0;
    var k := (x - y - d) / MODULUS;
    assert x - y - d == k * MODULUS;
    assert (d + y) == x - k * MODULUS;
    assert (d + y) % MODULUS == x % MODULUS by {
      ModShift(x, -k);
    }
  }

  lemma ModShift(x: int, k: int)
    ensures (x + k * MODULUS) % MODULUS == x % MODULUS
  {
  }

  /**
   * DSUB followed by DADD of the same operand restores the first value in the target, whatever
   * the wrap-around in between.
   */
  lemma SubThenAddRestores(sub: Blocks.Instruction, add: Blocks.Instruction, registers: seq<int>, pc: int)
    requires sub.WellFormed() && add.WellFormed() && RegistersInRange(sub) && RegistersInRange(add)
    requires |registers| == C.TOTAL_REGISTERS && IsInt(registers[sub.GetField(1)])
    requires sub.GetOperationCode() == DSUB && add.GetOperationCode() == DADD
    requires sub.GetField(3) != sub.GetField(2)
    requires add.GetField(1) == sub.GetField(3) && add.GetField(2) == sub.GetField(2)
    ensures var first := Execute(sub, registers, pc);
      first.Ok? && first.value.Transfer?
      && var second := Execute(add, first.value.registers, pc);
      second.Ok? && second.value.Transfer?
      && second.value.registers[add.GetField(3)] == registers[sub.GetField(1)]
  {
    ArithmeticWritesOneRegister(sub, registers, pc);
    var first := Execute(sub, registers, pc).value.registers;
    ArithmeticWritesOneRegister(add, first, pc);
    WrapAddUndoesSub(registers[sub.GetField(1)], registers[sub.GetField(2)]);
  }
}
