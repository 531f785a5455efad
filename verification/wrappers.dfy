/** Optional values, used for the statistics SinkNodeCSMACA leaves undefined. */
module Wrappers {

  /** Either no value, or one value. */
  datatype Option<+T> = None | Some(value: T)
}
