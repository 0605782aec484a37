/** An optional value: used for the keys of a JavaScript object that may be absent. */
module Wrappers {

  datatype Option<+T> = None | Some(value: T)

}
