/** Values that may be absent, and the unspecified order in which a Go map is ranged over. */
module Wrappers {
  datatype Option<+T> = None | Some(value: T)

  /** The next key of a map range: any key not yet visited. */
  method NextKey<T(==)>(todo: set<T>) returns (key: T)
    requires todo != {}
    ensures key in todo
  {
    key :| key in todo;
  }
}
