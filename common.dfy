/** Shared value types: optional values, results, and MongoDB object ids. */
module Common {

  /** A value that may be absent (JavaScript `undefined` / `null`). */
  datatype Option<T> = None | Some(value: T)

  /** The outcome of an operation that may fail with an error value. */
  datatype Result<T, E> = Ok(value: T) | Err(error: E)

  /** A MongoDB `_id`. Ids are compared only for equality, so a serial number stands for the 12 bytes. */
  datatype ObjectId = ObjectId(serial: nat)

  /** JavaScript truthiness of an optional string: absent and "" are both falsy. */
  predicate Present(s: Option<string>) {
    s.Some? && s.value != ""
  }

  /** `s || ""` for an optional string. */
  function OrEmpty(s: Option<string>): (r: string)
    ensures Present(s) ==> r == s.value
    ensures !Present(s) ==> r == ""
  {
    if s.Some? then s.value else ""
  }
}
