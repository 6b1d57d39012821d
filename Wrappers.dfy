/** The optional value used for a form key that may be missing and for a
    parse that may yield NaN. */
module Wrappers {

  datatype Option<+T> = None | Some(value: T)

}
