/** Option and Result, used for values the source may find absent and for
    the exceptions that `generateRoute` catches. */
module Wrappers {

  datatype Option<+T> = None | Some(value: T)

  datatype Result<+R, +E> = Ok(value: R) | Err(error: E)
}
