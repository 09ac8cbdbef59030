/** Values shared by every part of the model: optional values and JavaScript truthiness of
    optional strings (null, undefined and "" are all falsy). */
module Common {

  datatype Option<+T> = None | Some(value: T)

  /** `if (x)` for a value that is either a string or null/undefined. */
  predicate Present(o: Option<string>) {
    o.Some? && o.value != ""
  }
}
