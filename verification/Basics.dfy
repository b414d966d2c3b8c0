/** Optional values, and the two ends of a sequence. */
module Basics {

  datatype Option<+T> = None | Some(value: T)

  /** All but the last element. */
  function Front<T>(s: seq<T>): seq<T>
    requires s != []
  {
    s[..|s| - 1]
  }

  function Last<T>(s: seq<T>): T
    requires s != []
  {
    s[|s| - 1]
  }
}
