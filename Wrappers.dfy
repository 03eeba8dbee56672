/** The result of an operation that fails for some inputs. */
module Wrappers {
  datatype Option<T> = None | Some(value: T)
}
