/** A value that may be `null` or `undefined` in the modelled TypeScript. */
module Nullable {
  datatype Option<+T> = None | Some(value: T)
}
