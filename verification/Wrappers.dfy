/** The optional value used where the program returns `(value, ok)` or a nil pointer, and the
    choice that walking a table makes. */
module Wrappers {
  datatype Option<+T> = None | Some(value: T)

  /** Any one of some names, as ranging over a table gives them. */
  method Pick(names: set<string>) returns (name: string)
    requires names != {}
    ensures name in names
  {
    name :| name in names;
  }
}
