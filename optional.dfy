/** Kotlin's nullable types (`T?`) and Java's null references. */
module Optional {

  datatype Option<T> = None | Some(value: T)

  /** Kotlin's `x ?: default`. */
  function OrElse<T>(o: Option<T>, default: T): (r: T)
    ensures o.Some? ==> r == o.value
    ensures o.None? ==> r == default
  {
    match o
    case Some(v) => v
    case None => default
  }
}
