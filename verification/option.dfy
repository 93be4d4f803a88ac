/** JavaScript's `null`/`undefined` alternatives, as an option type. */
module Opt {
  datatype Option<+T> = None | Some(value: T)
}
