/** Small shared datatypes: an optional value and the tagged reply every handler returns. */
module Base {

  datatype Option<T> = None | Some(value: T)

  /** An optional argument with its default filled in. */
  function Or<T>(o: Option<T>, default: T): T
  {
    if o.Some? then o.value else default
  }

  /** A handler's reply: `{"ok": true, ...}` carrying `value`, or `{"ok": false, "error": error}`. */
  datatype Reply<T> = Ok(value: T) | Fail(error: string)

  /** `sub` occurs in `s` at position `i`. */
  predicate OccursAt(sub: string, s: string, i: int)
  {
    0 <= i && i + |sub| <= |s| && s[i..i + |sub|] == sub
  }

  /** Python's `sub in s` for strings. */
  predicate Contains(s: string, sub: string)
  {
    exists i | 0 <= i <= |s| :: OccursAt(sub, s, i)
  }
}
