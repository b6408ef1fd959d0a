/** Option and Result, used for the values the front end may find absent
    (a wallet, a public key, an identity, a DOM element). */
module Wrappers {

  datatype Option<+T> = None | Some(value: T)

  datatype Result<+R, +E> = Success(value: R) | Failure(error: E)
}
