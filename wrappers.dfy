/** Option and Result, the two failure-carrying shapes the Rust code uses
    (`Option<T>`, `Result<T, E>` with the `?` operator, written `:-` here). */
module Wrappers {

  datatype Option<+T> = None | Some(value: T) {
    /** `unwrap_or_default` / `unwrap_or`: the carried value, or `default` when absent. */
    function GetOr(default: T): T {
      match this
      case Some(v) => v
      case None => default
    }
  }

  datatype Result<+T, +E> = Ok(value: T) | Err(error: E) {
    predicate IsFailure() {
      Err?
    }

    function PropagateFailure<U>(): Result<U, E>
      requires Err?
    {
      Err(error)
    }

    function Extract(): T
      requires Ok?
    {
      value
    }

    /** `map_err`: the same outcome with the error converted by `f` (Rust's `From` behind `?`). */
    function MapErr<F>(f: E -> F): Result<T, F> {
      match this
      case Ok(v) => Ok(v)
      case Err(e) => Err(f(e))
    }
  }
}
