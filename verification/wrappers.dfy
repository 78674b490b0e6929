/** The optional-value type used for values that may be absent:
    environment variables, request headers, parsed instants, emitted events. */
module Wrappers {

  datatype Option<+T> = None | Some(value: T)
}
