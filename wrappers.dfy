/** Option and Result: the absent value (`null`, `undefined`, a failed `find`) and the error
    return (an HTTP error raised by a route). */
module Wrappers {

  datatype Option<+T> = None | Some(value: T)

  datatype Result<+T, +E> = Success(value: T) | Failure(error: E)
}
