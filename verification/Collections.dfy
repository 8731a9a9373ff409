module Collections {
  /** Ranging over a map takes its keys in any order. */
  method AnyOf<T>(todo: set<T>) returns (k: T)
    requires todo != {}
    ensures k in todo
  {
    k :| k in todo;
  }
}
