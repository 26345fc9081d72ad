/** Optional values, and the JavaScript truthiness the handlers use on them. */
module Options {

  /** A value that may be absent (`undefined` or `null` in JavaScript). */
  datatype Option<+T> = None | Some(value: T)

  /** JavaScript truthiness of a possibly absent string: absent and "" are both falsy. */
  predicate Present(o: Option<string>)
  {
    o.Some? && o.value != ""
  }

  /** `o || fallback` on a possibly absent string. */
  function OrElse(o: Option<string>, fallback: string): string
  {
    if Present(o) then o.value else fallback
  }
}
