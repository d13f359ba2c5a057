/** The Option datatype used for the nullable values of the event-selection screen. */
module Wrappers {

  /** `None` stands for a C# `null`. */
  datatype Option<+T> = None | Some(value: T)
}
