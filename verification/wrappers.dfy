/** Small result types shared by the model. */
module Wrappers {

  /** Python's Optional: a value or None. */
  datatype Option<+T> = None | Some(value: T)

  /** The state left behind by a call that either returned normally or let an
      exception escape; in both cases `state` is what the caller observes. */
  datatype Outcome<+T> = Normal(state: T) | Raised(state: T)
}
