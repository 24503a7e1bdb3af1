/** JavaScript's `null`/`undefined` for a value that may be absent. */
module Wrappers {
  datatype Option<+T> = None | Some(value: T)

  /** How an asynchronous call settles: the value it resolves with, or the
      message of the error it is rejected with (a `chrome.runtime.lastError`,
      a thrown `Error`). */
  datatype Settled<+T> = Resolved(value: T) | Rejected(reason: string)
}
