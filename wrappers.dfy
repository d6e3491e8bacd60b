/** Option type shared by the lookups of the terrain model. */
module Wrappers {
  datatype Option<+T> = None | Some(value: T)
}
