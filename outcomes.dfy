/** Values shared by the models of `func_remember` and `func_catch`. */
module Outcomes {

  /** A JavaScript slot that is either `undefined` (None) or holds a value. */
  datatype Option<+T> = None | Some(value: T)

  /** What one JavaScript call ends in: a returned value or a thrown error. */
  datatype Outcome<+R, +E> = Ok(value: R) | Throw(error: E)
}
