/** Optional values: JavaScript's `undefined`/`null` fields and failed lookups. */
module Base {

  datatype Option<+T> = None | Some(value: T)

  /** JavaScript truthiness of an optional string: absent, null and "" are all falsy. */
  predicate Truthy(s: Option<string>) {
    s.Some? && s.value != ""
  }

  /** `s || fallback` for an optional string. */
  function Or(s: Option<string>, fallback: string): string
  {
    if Truthy(s) then s.value else fallback
  }

  /** How a template literal `${s}` renders an absent field. */
  function Shown(s: Option<string>): string
  {
    if s.Some? then s.value else "undefined"
  }
}
