/** Small shared vocabulary: optional values and JavaScript truthiness of strings. */
module Common {

  /** A value that may be absent (`null` / `undefined` in the front-end). */
  datatype Option<+T> = None | Some(value: T)

  /** JavaScript truthiness of a nullable string: present and not the empty string. */
  predicate Truthy(s: Option<string>)
  {
    s.Some? && s.value != ""
  }
}
