/** Values shared by every module of the model. */
module Common {

  /** Python's "a value or None". */
  datatype Option<+T> = None | Some(value: T)

  /** Python truthiness of an optional string: present and non-empty. */
  predicate Truthy(s: Option<string>)
  {
    s.Some? && s.value != ""
  }
}
