/** Optional values, standing for the arguments the C interface may pass as NULL. */
module Wrappers {

  datatype Option<+T> = None | Some(value: T)
}
