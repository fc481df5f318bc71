/** Values shared by every module: optional values, record ids and the
    truthiness test the route handlers apply to request fields. */
module Common {

  datatype Option<T> = None | Some(value: T)

  /** Record ids are opaque strings generated by the database. */
  type Id = string

  /** JavaScript's `!field` on an optional string field of a request body or
      query string: an absent field, `null` and the empty string are falsy. */
  predicate Given(field: Option<string>)
  {
    field.Some? && field.value != ""
  }
}
