/** The memory layout and simulation constants of SimulationConstants.java. */
module SimulationConstants {

  const TOTAL_REGISTERS: int := 32
  const INITIAL_TICKS: int := 0
  const INSTRUCTIONS_START: int := 384
  const TOTAL_DATA_BLOCKS: int := 24
  const TOTAL_INSTRUCTION_BLOCKS: int := 40
  const TOTAL_INSTRUCTION_FIELDS: int := 4
  const OPCODE_FIELD_NUMBER: int := 0
  const INITIAL_QUANTUM: int := 0
  const INSTRUCTIONS_PER_BLOCK: int := 4
  const BLOCK_SIZE: int := 16
  const WORD_SIZE: int := 4
  const TOTAL_DATA_BLOCK_WORDS: int := 4
  const TOTAL_CORE_CERO_CACHE_POSITIONS: int := 8
  const TOTAL_FIRST_CORE_CACHE_POSITIONS: int := 4

  /** The callers use two names that the constants class spells differently. */
  const TOTAL_CORE_ZERO_CACHE_POSITIONS: int := TOTAL_CORE_CERO_CACHE_POSITIONS
  const WORDS_PER_DATA_BLOCK: int := TOTAL_DATA_BLOCK_WORDS

  /** The link register written by JAL. */
  const LINK_REGISTER: int := 31

  /** Number of data-cache (and instruction-cache) lines of a core. */
  function LinesOf(coreNumber: int): (n: int)
    ensures n == 8 || n == 4
    ensures coreNumber == 0 <==> n == TOTAL_CORE_ZERO_CACHE_POSITIONS
  {
    if coreNumber == 0 then TOTAL_CORE_ZERO_CACHE_POSITIONS else TOTAL_FIRST_CORE_CACHE_POSITIONS
  }
}
