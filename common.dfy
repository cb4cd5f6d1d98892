/** Values shared by the client's modules: JavaScript's `undefined`, the
    form values a controlled input produces, and the two coercions the
    client relies on (`a || fallback` on strings, and `String(v)` as
    `RegExp.prototype.test` applies it to its argument). */
module Common {

  datatype Option<+T> = None | Some(value: T)

  /** A value held by a form field: the text of an input, or the `checked`
      flag of a checkbox. */
  datatype Value = Text(text: string) | Flag(flag: bool)

  /** What reading a key of a form-values object gives: `None` is `undefined`. */
  type Input = Option<Value>

  function Lookup(m: map<string, Value>, key: string): (r: Input)
    ensures r.Some? <==> key in m
    ensures key in m ==> r.value == m[key]
  {
    if key in m then Some(m[key]) else None
  }

  /** `a || fallback` where `a` is a string or `undefined`: a string is truthy
      exactly when it is not empty. */
  function Or(a: Option<string>, fallback: string): (r: string)
    ensures r == fallback || (a == Some(r) && r != "")
    ensures a.Some? && a.value != "" ==> r == a.value
    ensures fallback != "" ==> r != ""
  {
    match a
    case Some(s) => if s != "" then s else fallback
    case None => fallback
  }

  /** `String(v)`: the text a regular expression is tested against. */
  function AsString(v: Input): (r: string)
    ensures v.Some? && v.value.Text? ==> r == v.value.text
    ensures v.None? ==> r == "undefined"
  {
    match v
    case None => "undefined"
    case Some(Text(s)) => s
    case Some(Flag(b)) => if b then "true" else "false"
  }
}
