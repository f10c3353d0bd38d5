/** Optional values, standing for the C# `null` the editor service tests for. */
module Wrappers {
  datatype Option<+T> = None | Some(value: T)
}
