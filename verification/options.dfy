/** The optional value used for absent configuration, missing JSON fields and
    missing map entries. */
module Options {

  datatype Option<+T> = None | Some(value: T)

  /** JavaScript truthiness of a possibly absent string: present and non-empty. */
  predicate Truthy(s: Option<string>)
  {
    s.Some? && s.value != ""
  }
}
