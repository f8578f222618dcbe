/** Optional values: an error that may or may not have happened, a cell
    that may or may not be rendered, a winner that may or may not exist. */
module Wrappers {

  datatype Option<+T> = None | Some(value: T)

}
