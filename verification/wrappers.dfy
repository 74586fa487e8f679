/** Optional values and success/failure results, as used by the request types
    (optional fields) and by the process-result interpreter (`Result<String, McpError>`). */
module Wrappers {

  /** An optional value: Rust's `Option<T>`. */
  datatype Option<+T> = None | Some(value: T) {

    /** The value if present, else `default` (Rust's `unwrap_or`). */
    function GetOr(default: T): T
    {
      match this
      case Some(v) => v
      case None => default
    }
  }

  /** A successful value or an error message (Rust's `Result<String, McpError>`,
      with the error reduced to its message). */
  datatype Result<+T> = Ok(value: T) | Err(error: string) {

    /** The value if successful, else `default` (Rust's `unwrap_or_else(|_| default)`). */
    function GetOr(default: T): T
    {
      match this
      case Ok(v) => v
      case Err(_) => default
    }
  }
}
