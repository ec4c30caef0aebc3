/** Option, the conventional "value or nothing" type, used for nullable
    arguments and optional callback results. */
module Wrappers {

  datatype Option<+T> = None | Some(value: T)
}
