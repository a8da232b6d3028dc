/**
 * The handful of zod field schemas the routes use, each as a function from
 * the field's JSON value (`None` when the key is absent) to the parsed value,
 * `None` standing for a validation issue. Optional fields parse to
 * `Some(None)` when absent; a JSON `null` is never accepted — zod's
 * `.optional()` admits only `undefined`.
 */
module Schema {
  import opened Wrappers
  import opened Json

  /** `z.string().min(minLen)`. */
  function Str(v: Option<Json>, minLen: nat): Option<string> {
    if v.Some? && v.value.JStr? && |v.value.s| >= minLen then Some(v.value.s) else None
  }

  /** `z.string().optional()`. */
  function OptStr(v: Option<Json>): Option<Option<string>> {
    if v.None? then Some(None) else if v.value.JStr? then Some(Some(v.value.s)) else None
  }

  /** `z.number().min(lo)`. */
  function Num(v: Option<Json>, lo: Option<real>): Option<real> {
    if v.Some? && v.value.JNum? && (lo.None? || v.value.n >= lo.value) then Some(v.value.n) else None
  }

  /** `z.number().min(lo).default(d)`: an absent key takes the default, a present one must pass. */
  function NumOr(v: Option<Json>, lo: real, d: real): Option<real> {
    if v.None? then Some(d) else Num(v, Some(lo))
  }

  /** `z.number().min(lo).optional()`. */
  function OptNum(v: Option<Json>, lo: real): Option<Option<real>> {
    if v.None? then Some(None) else match Num(v, Some(lo)) case None => None case Some(n) => Some(Some(n))
  }

  /** `z.boolean().default(d)`. */
  function BoolOr(v: Option<Json>, d: bool): Option<bool> {
    if v.None? then Some(d) else if v.value.JBool? then Some(v.value.b) else None
  }

  /** `z.enum(options)`: one of the listed strings exactly. */
  function OneOf(v: Option<Json>, options: seq<string>): Option<string> {
    if v.Some? && v.value.JStr? && v.value.s in options then Some(v.value.s) else None
  }
}
