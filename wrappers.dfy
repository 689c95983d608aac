/** Failure-compatible wrappers shared by every module of the model. */
module Wrappers {

  datatype Option<+T> = None | Some(value: T) {
    predicate IsFailure() { None? }

    function PropagateFailure<U>(): Option<U>
      requires None?
    {
      None
    }

    function Extract(): T
      requires Some?
    {
      value
    }
  }

  datatype Result<+T, +E> = Ok(value: T) | Err(error: E) {
    predicate IsFailure() { Err? }

    function PropagateFailure<U>(): Result<U, E>
      requires Err?
    {
      Err(error)
    }

    function Extract(): T
      requires Ok?
    {
      value
    }
  }
}

/**
 * The exceptions the engine can raise: its own ones (board/exception.py, fen.py) and the
 * Python built-in ones that its code paths can reach.
 */
module Exceptions {

  datatype Error =
    | InvalidPosition(position: string)   // InvalidPositionError
    | EmptyPosition(position: string)     // EmptyPositionError
    | InvalidIndex(index: int)            // InvalidIndexError
    | FenIncorrectFormat                  // FenIncorrectFormatError
    | KeyError                            // a dictionary lookup of a missing key
    | AttributeError                      // an attribute read on None
    | IndexError                          // a string or list index out of range
    | UnicodeDecodeError                  // bytes that are not UTF-8
}
