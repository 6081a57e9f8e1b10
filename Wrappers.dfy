/** Optional values: Java's nullable references in the AST become `Option`. */
module Wrappers {

  datatype Option<+T> = None | Some(value: T)
}
