/** Option values, used for the JavaScript `null`/`undefined` cases of the front end. */
module Wrappers {

  datatype Option<+T> = None | Some(value: T)
}
