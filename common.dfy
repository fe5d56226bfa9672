/** Values shared by every part of the bot model. */
module Common {

  /** A JavaScript value that is either present or `null`. */
  datatype Option<+T> = None | Some(value: T)

  /** JavaScript truthiness of a string-or-null value: `null` and `""` are falsy. */
  predicate Truthy(s: Option<string>) {
    s.Some? && s.value != ""
  }

  function Min(a: int, b: int): (m: int) {
    if a < b then a else b
  }
}
