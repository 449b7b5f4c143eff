/**
 * The few JavaScript values the action handles and the coercions it applies to
 * them: truthiness (`if (x)`, `x || y`), the "not null, undefined or empty"
 * guard, an explicit `.toString()` call and template-literal interpolation.
 */
module JsValues {

  datatype Option<+T> = None | Some(value: T)

  /** An environment lookup yields `undefined` or a string; the source also passes the
      boolean literals `true` and `false`. Environment values are never `null`, so `null`
      has no case here. */
  datatype JsValue = Undefined | Str(s: string) | Bool(b: bool)

  /** JavaScript truthiness, restricted to these values. */
  predicate Truthy(v: JsValue) {
    match v
    case Undefined => false
    case Str(s) => s != ""
    case Bool(b) => b
  }

  /** The test `v === undefined || v === null || v === ''` shared by the required-input
      check and the guarded write. Unlike falsiness, it lets `false` through. */
  predicate Blank(v: JsValue) {
    v == Undefined || v == Str("")
  }

  /** `a || b` */
  function Or(a: JsValue, b: JsValue): (r: JsValue)
    ensures Truthy(r) <==> Truthy(a) || Truthy(b)
    ensures r == a || r == b
    ensures Truthy(a) ==> r == a
    ensures !Truthy(a) ==> r == b
  {
    if Truthy(a) then a else b
  }

  /** `v.toString()`; `None` stands for the TypeError that calling it on `undefined` throws. */
  function CallToString(v: JsValue): (r: Option<string>)
    ensures r == None <==> v == Undefined
    ensures v.Str? ==> r == Some(v.s)
  {
    match v
    case Undefined => None
    case Str(s) => Some(s)
    case Bool(b) => Some(if b then "true" else "false")
  }

  /** `${v}` inside a template literal: it never throws, and renders `undefined` as text. */
  function Interpolate(v: JsValue): (r: string)
    ensures v == Undefined ==> r == "undefined"
    ensures v.Str? ==> r == v.s
  {
    match v
    case Undefined => "undefined"
    case Str(s) => s
    case Bool(b) => if b then "true" else "false"
  }

  /** Interpolation and an explicit `.toString()` agree wherever the call does not throw. */
  lemma InterpolateAgreesWithToString(v: JsValue)
    ensures v != Undefined <==> CallToString(v) == Some(Interpolate(v))
  {
  }

  /** Every blank value is falsy; the only falsy value that is not blank is `false`. */
  lemma BlankVersusFalsy(v: JsValue)
    ensures Blank(v) ==> !Truthy(v)
    ensures (!Truthy(v) && !Blank(v)) <==> v == Bool(false)
  {
  }
}
