/** Small value types shared by the dashboard's components. */
module Common {

  /** An optional value: a TypeScript `T | undefined` or `T | null`. */
  datatype Option<+T> = None | Some(value: T)

  /** The settlement of an awaited promise: its value, or the reason it was rejected. */
  datatype Result<+T, +E> = Success(value: T) | Failure(error: E)

  /** JavaScript truthiness of an optional string: it is present and not empty.
      This is what `if (subscriptionId)`, `resource.id && ...` and `x || 'Unknown'` test. */
  predicate Truthy(s: Option<string>)
  {
    s.Some? && s.value != ""
  }
}
