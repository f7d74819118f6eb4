/** Optional values: `None` stands for a field the invoice holds as `null`
    (or, for an item, a key the object does not have). */
module Wrappers {

  datatype Option<+T> = None | Some(value: T)
}
