/** Types that every module uses. */
module Wrappers {
  datatype Option<+T> = None | Some(value: T)

  /** How a store statement ended: done, done but reported as an error, or not done. */
  datatype StoreReply = Acked | Lost | Refused

  function Min(a: int, b: int): int {
    if a < b then a else b
  }
}
