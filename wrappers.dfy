/** The optional value shared by both cart models: JavaScript's `undefined`
    from `Array.prototype.find` and Python's `None` from `next(..., None)`. */
module Wrappers {
  datatype Option<+T> = None | Some(value: T)
}
