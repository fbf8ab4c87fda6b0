/** JavaScript's `null`/`undefined` next to a present value, and whether a
    call returned or threw. */
module Wrappers {

  datatype Option<+T> = None | Some(value: T)

  /** Whether a JavaScript call ran to its end or threw. */
  datatype Completion = Completed | Thrown
}
