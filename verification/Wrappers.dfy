/** Option and the result type shared by both policy validators. */
module Wrappers {
  datatype Option<+T> = None | Some(value: T) {
    function GetOr(default: T): T {
      if Some? then value else default
    }
  }

  /** Unsafe: could cut the management path or leave nothing to open. Invalid: wrong keys or types. */
  datatype Refusal = Unsafe | Invalid

  datatype Result<+T> = Ok(value: T) | Err(error: Refusal)
}
