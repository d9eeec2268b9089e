/** Optional values: a field or an error that may be absent. */
module Wrappers {

  /** Go's nil-able pointer fields and nil-able errors: absent, or present with a value. */
  datatype Option<+T> = None | Some(value: T)
}
