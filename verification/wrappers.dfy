/** Absent-or-present values: the model's reading of TypeScript's `T | null`. */
module Wrappers {

  /** `None` stands for `null`, `Some(v)` for a non-null `v`. */
  datatype Option<+T> = None | Some(value: T)
}
