/** JSON-shaped JavaScript values and the conversions the application code applies to them
    (`String(v)`, `Number(v)`, truthiness, `??` and `||`, property access). Numbers are
    integers here. A missing property (`undefined`) is `None` where an `Option<Json>` is used. */
module JsonValue {
  import opened Wrappers
  import opened Strings

  datatype Json =
    | JNull
    | JBool(b: bool)
    | JNum(n: int)
    | JStr(s: string)
    | JArr(items: seq<Json>)
    | JObj(fields: map<string, Json>)

  /** JavaScript truthiness: `null`, `false`, `0` and `""` are falsy; arrays and objects,
      even empty ones, are truthy. */
  predicate Truthy(j: Json) {
    match j
    case JNull => false
    case JBool(b) => b
    case JNum(n) => n != 0
    case JStr(s) => s != []
    case JArr(_) => true
    case JObj(_) => true
  }

  /** Truthiness of a possibly-undefined value. */
  predicate Present(v: Option<Json>) {
    v.Some? && Truthy(v.value)
  }

  /** `v === null || v === undefined`. */
  predicate Nullish(v: Option<Json>) {
    v.None? || v.value.JNull?
  }

  /** `a ?? b`. */
  function Coalesce(a: Option<Json>, b: Option<Json>): (r: Option<Json>)
    ensures !Nullish(a) ==> r == a
    ensures Nullish(a) ==> r == b
  {
    if Nullish(a) then b else a
  }

  /** `a || b`. */
  function OrElse(a: Option<Json>, b: Option<Json>): (r: Option<Json>)
    ensures Present(a) ==> r == a
    ensures !Present(a) ==> r == b
  {
    if Present(a) then a else b
  }

  /** `j[key]` on a non-null value: only objects have own properties here. */
  function Field(j: Json, key: string): (r: Option<Json>)
    ensures r.Some? <==> j.JObj? && key in j.fields
  {
    match j
    case JObj(m) => if key in m then Some(m[key]) else None
    case _ => None
  }

  /** `v?.[key]`: undefined when `v` is undefined or null. */
  function FieldOpt(v: Option<Json>, key: string): Option<Json> {
    if v.None? then None else Field(v.value, key)
  }

  predicate IsArray(v: Option<Json>) {
    v.Some? && v.value.JArr?
  }

  /** `String(v)`. Array elements that are null render as the empty string, as in
      `Array.prototype.join`. */
  function ToJsString(j: Json): string
    decreases j
  {
    match j
    case JNull => "null"
    case JBool(b) => if b then "true" else "false"
    case JNum(n) => IntToString(n)
    case JStr(s) => s
    case JObj(_) => "[object Object]"
    case JArr(items) =>
      JoinWith(seq(|items|, i requires 0 <= i < |items| => if items[i].JNull? then "" else ToJsString(items[i])), ',')
  }

  /** `String(v)` where `undefined` renders as "undefined". */
  function OptToJsString(v: Option<Json>): string {
    if v.None? then "undefined" else ToJsString(v.value)
  }

  /** `String(v || "")`: a falsy value reads as the empty string, any other as its string
      form. */
  function TextOr(v: Option<Json>): (r: string)
    ensures Present(v) ==> r == ToJsString(v.value)
    ensures !Present(v) ==> r == []
  {
    if Present(v) then ToJsString(v.value) else []
  }

  /** `Number(v)`; `None` is NaN. Arrays and objects go through their string form. */
  function ToNumber(j: Json): Option<int> {
    match j
    case JNull => Some(0)
    case JBool(b) => Some(if b then 1 else 0)
    case JNum(n) => Some(n)
    case JStr(s) => StringToNumber(s)
    case _ => StringToNumber(ToJsString(j))
  }

  /** `String(x)` of a number reads back through `Number` to the same number. */
  lemma NumberOfNumberString(n: int)
    ensures ToNumber(JStr(ToJsString(JNum(n)))) == Some(n)
  {
    NumberOfIntToString(n);
  }

  /** Strict equality `a === b` of two possibly-undefined values. Two distinct array or
      object values produced by separate parses are never the same reference, so only
      primitives compare equal. */
  predicate StrictEq(a: Option<Json>, b: Option<Json>) {
    (a.None? && b.None?)
    || (a.Some? && b.Some? && !a.value.JArr? && !a.value.JObj? && a.value == b.value)
  }
}
