/** The optional value, for a TypeScript `T | null`, `T | undefined` or optional field. */
module Wrappers {
  datatype Option<+T> = None | Some(value: T)
}
