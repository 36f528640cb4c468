/** A value that may be absent: the model of a TypeScript `T | null` or an
    optional property. */
module Options {

  datatype Option<+T> = None | Some(value: T)

  /** JavaScript truthiness of a `string | null`: null and the empty
      string are falsy, every other string is truthy. */
  predicate Truthy(s: Option<string>)
  {
    s.Some? && s.value != ""
  }
}
