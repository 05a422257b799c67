/** The exceptions the simulator throws, as error outcomes. */
module Exceptions {

  datatype Fault =
    | TryLockException            // lock re-acquired by its holder, or released by a non-holder
    | IllegalArgumentException    // invalid opcode, invalid core number, invalid miss type
    | InvalidInstructionException // a program line that does not have four fields
    | DivisionByZero              // DDIV with a zero divisor: the simulator exits
    | IndexOutOfBounds            // an array index outside its array
    | NullReference               // a null block or context dereferenced
}
