/** JavaScript values as the route handlers see them: optional strings and their truthiness. */
module JsValues {

  /** A value that may be `null`/`undefined` (None) or present (Some). */
  datatype Option<+T> = None | Some(value: T)

  /** `!!v` for a string-valued field: absent and the empty string are falsy. */
  predicate Truthy(v: Option<string>) {
    v.Some? && v.value != ""
  }

  /** `a || b` on two string-valued fields. */
  function Or(a: Option<string>, b: Option<string>): Option<string> {
    if Truthy(a) then a else b
  }

  /** `s.endsWith(suffix)`. */
  predicate EndsWith(s: string, suffix: string) {
    |suffix| <= |s| && s[|s| - |suffix|..] == suffix
  }

  /** A template literal `${v}`: an absent value prints as "undefined". */
  function Interpolate(v: Option<string>): string {
    match v
    case Some(s) => s
    case None => "undefined"
  }
}
