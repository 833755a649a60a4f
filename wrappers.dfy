/** An optional value; `None` stands for JavaScript's `undefined` wherever the
    modelled code reads a property that may be absent. */
module Wrappers {

  datatype Option<+T> = None | Some(value: T)
}
