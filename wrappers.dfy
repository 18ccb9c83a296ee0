/** Optional values and the answers of calls that may raise. */
module Wrappers {

  /** A value that may be absent (Python's `None`). */
  datatype Option<+T> = None | Some(value: T)

  /** What a call into a collaborator (the cloud provider, a control) gives back:
      a value, or a raised exception whose text `str(e)` is `error`. */
  datatype Answer<+T> = Ok(value: T) | Raise(error: string)
}
