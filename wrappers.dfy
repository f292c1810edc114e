/** Optional values: an absent string in the parser's AST is a NULL `sql3string *`. */
module Wrappers {

  datatype Option<+T> = None | Some(value: T)
}
