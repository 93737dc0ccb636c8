/** The small shared vocabulary of the other modules. */
module Prelude {
  datatype Option<+T> = None | Some(value: T)

  type Byte = b: int | 0 <= b < 256
  type Bytes = seq<Byte>

  // An assignment "column = $arg" of an UPDATE statement that is built step by step.
  datatype Clause = Clause(column: string, arg: nat)
}
