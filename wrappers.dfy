/** Optional values: a C# reference that may be null (an unset AudioClip, a
    line without a speaker, no bound dialogue) is an `Option`. */
module Wrappers {

  datatype Option<+T> = None | Some(value: T)
}
