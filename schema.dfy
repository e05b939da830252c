/** Shared vocabulary of the document schemas: optional values, results and
    the `required` rule that the object-document mapper applies to strings. */
module Schema {

  /** A value that may be absent (`undefined` or `null` in a request or a document). */
  datatype Option<+T> = None | Some(value: T) {
    function GetOr(default: T): (r: T)
      ensures Some? ==> r == value
      ensures None? ==> r == default
    {
      match this
      case Some(v) => v
      case None => default
    }
  }

  /** The outcome of a step that can fail with an error message. */
  datatype Result<+R> = Success(value: R) | Failure(message: string)

  /** Milliseconds since the epoch, the unit of `Date.now`. */
  type Timestamp = int

  /** A `required: true` String path: the value must be present and be a
      non-empty string; `undefined`, `null` and `""` all fail validation. */
  predicate Required(v: Option<string>) {
    v.Some? && |v.value| > 0
  }

  /** JavaScript truthiness of an optional string: absent and `""` are falsy. */
  predicate Truthy(v: Option<string>) {
    v.Some? && v.value != ""
  }
}
