/** Option and Result, used for nullable columns, optional arguments and thrown errors. */
module Wrappers {

  datatype Option<+T> = None | Some(value: T) {
    function GetOr(default: T): T {
      match this
      case Some(v) => v
      case None => default
    }
  }

  datatype Result<+T, +E> = Ok(value: T) | Err(error: E)

  /** JavaScript truthiness of a nullable text value: null and '' are false. */
  predicate Present(o: Option<string>) {
    o.Some? && o.value != ""
  }
}
