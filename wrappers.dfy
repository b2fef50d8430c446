/** The optional value used wherever the plugin reads a JavaScript property that may be missing. */
module Wrappers {

  datatype Option<+T> = None | Some(value: T)
}
