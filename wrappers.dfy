/** Optional values: Go's nil slices, nil maps and `(value, err)` pairs are written with these. */
module Wrappers {

  datatype Option<+T> = None | Some(value: T)
}
