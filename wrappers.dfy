/** Optional values, used for the source's "nothing read" and "did not parse" cases. */
module Wrappers {

  datatype Option<+T> = None | Some(value: T)

}
