/** Small result types shared by the components. */
module Wrappers {

  datatype Option<+T> = None | Some(value: T) {
    /** The held value, or `default` when there is none (JavaScript's `x || default`). */
    function GetOr(default: T): T {
      match this
      case Some(v) => v
      case None => default
    }
  }

  /** The settled outcome of one `fetch` call followed by `response.json()`:
      either the decoded body or a rejection (network error, non-JSON body). */
  datatype Fetch<+T> = Success(data: T) | Failure
}
