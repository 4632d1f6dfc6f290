/** Optional request-body values and the JavaScript truthiness test the
    profile routes apply to them. */
module Optional {

  /** A request-body field: `None` stands for `undefined` (the client did not
      send the field). */
  datatype Option<+T> = None | Some(value: T) {

    /** The carried value, or `default` when the field is absent. */
    function GetOr(default: T): T {
      match this
      case Some(v) => v
      case None => default
    }
  }

  /** JavaScript truthiness of a string field: `undefined` and the empty
      string are falsy, every other string (even " ") is truthy. */
  predicate Truthy(o: Option<string>) {
    o.Some? && |o.value| > 0
  }

  /** The output of an `if (x) { out.x = x }` step: the input itself when it is
      truthy, otherwise the key is left out. */
  predicate SparseCopy(input: Option<string>, output: Option<string>) {
    (Truthy(input) ==> output == input) && (!Truthy(input) ==> output == None)
  }
}
