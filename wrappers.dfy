/** The optional value used for the JavaScript `null` and `undefined` of the
    application's state cells. */
module Wrappers {

  datatype Option<+T> = None | Some(value: T)
}
