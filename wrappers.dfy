/** Optional values: a query argument or JSON field that may be absent. */
module Wrappers {

  /**
   * `None` stands for an absent query argument or JSON key (a song record echoes
   * it as `null`). In the reply of the
   * Genius search it means only an absent key, never a JSON `null`.
   */
  datatype Option<+T> = None | Some(value: T)
}
