/** Values as they arrive over the wire or out of the browser cache: a field
    is either absent (JavaScript `undefined`) or holds a value, and the
    component's `x || d` idiom keeps `x` only when it is truthy. */
module Wire {

  /** A possibly absent field. */
  datatype Option<+T> = None | Some(value: T)

  /** JavaScript truthiness of a field whose type has one falsy value
      `falsy` (0 for numbers, "" for strings); an absent field is falsy. */
  predicate Truthy<T(==)>(f: Option<T>, falsy: T)
  {
    f.Some? && f.value != falsy
  }

  /** The expression `f || fallback`: a truthy field wins, anything else
      gives the fallback, so the result is falsy only if the fallback is. */
  function OrElse<T(==)>(f: Option<T>, falsy: T, fallback: T): (r: T)
    ensures Truthy(f, falsy) ==> Some(r) == f
    ensures !Truthy(f, falsy) ==> r == fallback
    ensures r == falsy ==> fallback == falsy
  {
    if Truthy(f, falsy) then f.value else fallback
  }

  /** `f || 0` on a numeric field: zero exactly when the field is falsy,
      and otherwise the field's own value. */
  function OrZero(f: Option<int>): (r: int)
    ensures r == 0 <==> !Truthy(f, 0)
    ensures r != 0 ==> f == Some(r)
  {
    OrElse(f, 0, 0)
  }
}
