/** Optional values, and JavaScript truthiness of an optional string. */
module Wrappers {

  datatype Option<+T> = None | Some(value: T)

  /** `!!v` in JavaScript for a value that is a string or absent (null or
      undefined): absent values and the empty string are falsy. */
  predicate Truthy(v: Option<string>)
    ensures Truthy(v) <==> v != None && v != Some("")
  {
    v.Some? && v.value != ""
  }
}
