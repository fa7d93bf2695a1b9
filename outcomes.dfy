/** The three error kinds the bookkeeping component raises, and the
    result of a guarded operation: it either succeeds or fails with one
    of them before changing anything. */
module Outcomes {

  datatype Error = InvalidAmount | InsufficientFunds | AccountNotFound

  datatype Outcome = Ok | Fail(error: Error)

  datatype Option<T> = None | Some(value: T)
}
