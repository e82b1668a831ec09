/** Values shared by every part of the model: optional values and the
    JavaScript notion of a "truthy" string. */
module Common {

  /** A value that may be missing (`null` or `undefined` in the client). */
  datatype Option<+T> = None | Some(value: T)

  /** A string is truthy in JavaScript when it is present and not empty. */
  predicate Truthy(v: Option<string>)
  {
    v.Some? && v.value != ""
  }

  /** `s || ''`: a missing string reads as the empty string. */
  function OrEmpty(v: Option<string>): string
  {
    if v.Some? then v.value else ""
  }
}
