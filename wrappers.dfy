/** Optional values: a JSON key that may be missing, or a Python result that may be `None`. */
module Wrappers {

  datatype Option<+T> = None | Some(value: T)

}
