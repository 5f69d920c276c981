/** Python's `None`-or-value results (`Option`) and success-or-error results (`Result`). */
module Wrappers {

  datatype Option<+T> = None | Some(value: T)

  datatype Result<+R, +E> = Success(value: R) | Failure(error: E)

  /** The string held by an optional value, or the empty string for None. */
  function OrEmpty(o: Option<string>): string {
    match o
    case Some(s) => s
    case None => ""
  }
}
