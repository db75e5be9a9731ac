/** The optional-value datatype the rest of the model uses for JavaScript's
    `undefined`/`null` and for parses that may fail. */
module Wrappers {

  datatype Option<+T> = None | Some(value: T)
}
