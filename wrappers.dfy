/** Option type standing for JavaScript's `null` / `undefined` / `NaN` results. */
module Wrappers {
  datatype Option<+T> = None | Some(value: T)
}
