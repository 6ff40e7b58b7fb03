/** Optional values: a scan line may or may not hold an address, a notice may or may not be sent. */
module Wrappers {

  datatype Option<+T> = None | Some(value: T)

}
