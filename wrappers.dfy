/** Optional values. A request field that JavaScript sees as `undefined` is `None`. */
module Wrappers {

  datatype Option<+T> = None | Some(value: T)

}
