/** Optional values: the geometry index and the overall court box may not be loaded yet,
    and a ray test may miss. */
module Wrappers {
  datatype Option<+T> = None | Some(value: T)
}
