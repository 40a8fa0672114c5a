/** Optional values, and what Go's strings package is asked for. */
module Prelude {
  datatype Option<+T> = None | Some(value: T)

  /** `prefix` starts `s` (strings.HasPrefix). */
  predicate HasPrefix(s: string, prefix: string) {
    prefix <= s
  }
}
