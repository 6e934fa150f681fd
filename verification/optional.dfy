/** Optional values and the Python truthiness rule for optional strings. */
module Optional {

  /** An argument that may be omitted (Python's `None` default). */
  datatype Option<+T> = None | Some(value: T)

  /** Python's `if value:` on a `str | None`: both `None` and `""` are false. */
  predicate Truthy(o: Option<string>): (b: bool)
    ensures !b <==> o == None || o == Some("")
  {
    o.Some? && |o.value| > 0
  }

  /** The value of a truthy option, and the empty string otherwise. */
  function ValueOr(o: Option<string>): (s: string)
    ensures Truthy(o) <==> |s| > 0
    ensures Truthy(o) ==> s == o.value
  {
    if o.Some? then o.value else ""
  }
}
