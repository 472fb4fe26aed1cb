/** The usual optional value. In this model `None` also stands for the
    non-finite numbers (NaN, +Infinity, -Infinity) that JavaScript produces
    when it divides by zero. */
module Wrappers {

  datatype Option<+T> = None | Some(value: T)
}
