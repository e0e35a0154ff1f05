/** Small value wrappers shared by every module of the model. */
module Wrappers {

  /** A value that may be absent: TypeScript's `T | null`. */
  datatype Option<+T> = None | Some(value: T)

  /** The answer of a remote call that returns a record: the source tests
      `!error && data`, so an error and a missing record are one case. */
  datatype Reply<+T> = Ok(data: T) | Failed

  /** JavaScript truthiness of a `string | null`: both `null` and the empty
      string are falsy, so `!x` holds for them. */
  predicate Present(o: Option<string>)
  {
    o.Some? && o.value != ""
  }
}
