/** Optional values: `None` stands for Java's `null` (or a thrown exception where noted). */
module Wrappers {

  datatype Option<+T> = None | Some(value: T)
}
