/** The optional-value datatype shared by the stores: `None` plays the part of
    JavaScript's `undefined` (a missing property, a `find` that matched nothing). */
module Wrappers {

  datatype Option<+T> = None | Some(value: T)
}
