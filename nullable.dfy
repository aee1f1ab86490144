/** A value that may be absent: TypeScript's `T | null` (and `T | undefined`). */
module Nullable {

  datatype Option<+T> = None | Some(value: T)
}
