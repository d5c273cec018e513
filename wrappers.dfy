/** Optional values, for Kotlin's nullable results (`Category?`, a missing preference). */
module Wrappers {

  datatype Option<+T> = None | Some(value: T)
}
