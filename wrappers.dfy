/** Option and Result, and the exceptions the model represents. */
module Wrappers {

  datatype Option<T> = None | Some(value: T)

  /** The two Python exceptions the model represents. */
  datatype Failure =
    | KeyError        // a dictionary lookup of a coordinate that is not on the board
    | NotImplemented  // NotImplementedError: an unsupported board width, or a Pawn's moves

  datatype Result<T> = Ok(value: T) | Err(error: Failure)
}
