/** Optional values, used for every field the program initialises to None. */
module Wrappers {

  datatype Option<+T> = None | Some(value: T)

  /** Python truthiness of an optional string: neither None nor "". */
  predicate Truthy(o: Option<string>): (truthy: bool)
    ensures truthy <==> o !in {None, Some("")}
  {
    o.Some? && o.value != ""
  }
}
