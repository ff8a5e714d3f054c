/** The null-or-value shape of the C# references the model reads. */
module Wrappers {

  /** `None` stands for a C# `null` reference, `Some(v)` for a present value. */
  datatype Option<+T> = None | Some(value: T)
}
