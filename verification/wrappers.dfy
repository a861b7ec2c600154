/** Optional values: the model's stand-in for JavaScript's `undefined`/`null`. */
module Wrappers {

  datatype Option<+T> = None | Some(value: T) {

    /** The carried value, or `default` when there is none. */
    function GetOr(default: T): T {
      if Some? then value else default
    }
  }

  /** The outcome of a call to an external collaborator: its data, or a thrown error. */
  datatype Fetch<+T> = Fetched(data: T) | Failed
}
