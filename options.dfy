/**
 * Optional values and JavaScript's handling of absent strings: a missing
 * request field, a lookup that found nothing, `s || fallback`.
 */
module Options {

  datatype Option<T> = None | Some(value: T)

  /** JavaScript's `s || fallback` on a string: the empty string counts as absent. */
  function Or(s: string, fallback: string): string {
    if s != "" then s else fallback
  }
}
