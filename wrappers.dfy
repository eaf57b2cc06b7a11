/** An optional value: `None` stands for JavaScript's `undefined` wherever the broker tests for it. */
module Wrappers {

  datatype Option<+T> = None | Some(value: T)
}
