/** The optional values the gateway passes around: a JavaScript `undefined`
    (or a caught exception) on one side, a present value on the other. */
module Wrappers {
  datatype Option<+T> = None | Some(value: T)
}
