/** An optional value, standing for JavaScript's `null` / `undefined` where the source reads something that may be absent. */
module Wrappers {

  datatype Option<+T> = None | Some(value: T)
}
