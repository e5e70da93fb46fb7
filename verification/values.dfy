/** Small value types shared by the session registry and the call-flow handlers. */
module Values {

  /** A value that may be absent: a request field that was not sent, a JSON body that is null. */
  datatype Option<+T> = None | Some(value: T)

  /** JavaScript truthiness of a string field: `!field` holds exactly when the
      field is absent (undefined or null) or is the empty string. */
  predicate Truthy(field: Option<string>)
  {
    field.Some? && field.value != ""
  }
}
