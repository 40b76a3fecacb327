/** The usual optional value, standing for a TypeScript `T | undefined`. */
module Wrappers {

  datatype Option<+T> = None | Some(value: T)
}
