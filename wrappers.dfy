/** The "value or nothing" result the engine uses for its `None` returns. */
module Wrappers {

  datatype Option<+T> = None | Some(value: T)

}
