/** JavaScript values as the rest of the model sees them: what `JSON.parse`
    yields, plus `undefined` (an absent property or argument). Numbers are
    integers only. Objects compare by value here. */
module JsValues {

  datatype Option<+T> = None | Some(value: T)

  datatype Result<+T, +E> = Success(value: T) | Failure(error: E)

  datatype JsValue =
    | Undefined
    | Null
    | Bool(b: bool)
    | Num(n: int)
    | Str(s: string)
    | Arr(items: seq<JsValue>)
    | Obj(fields: map<string, JsValue>)

  /** `v == undefined || v == null` (loose equality with null). */
  predicate Nullish(v: JsValue) {
    v.Undefined? || v.Null?
  }

  /** JavaScript truthiness: `false`, `0`, `""`, `null` and `undefined` are falsy. */
  predicate Truthy(v: JsValue) {
    match v
    case Undefined => false
    case Null => false
    case Bool(b) => b
    case Num(n) => n != 0
    case Str(s) => s != ""
    case Arr(_) => true
    case Obj(_) => true
  }

  /** Property read `v[key]` on a value that is not null or undefined:
      an own key of an object, otherwise `undefined`. */
  function Get(v: JsValue, key: string): (r: JsValue)
    ensures !v.Obj? ==> r == Undefined
    ensures v.Obj? && key !in v.fields ==> r == Undefined
    ensures v.Obj? && key in v.fields ==> r == v.fields[key]
  {
    if v.Obj? && key in v.fields then v.fields[key] else Undefined
  }

  /** The `in` operator on an object: the key is present, whatever its value. */
  predicate HasKey(v: JsValue, key: string) {
    v.Obj? && key in v.fields
  }

  /** Nullish coalescing `v ?? d`. */
  function Coalesce(v: JsValue, d: JsValue): (r: JsValue)
    ensures Nullish(v) ==> r == d
    ensures !Nullish(v) ==> r == v
  {
    if Nullish(v) then d else v
  }

  /** A string-or-undefined value as a JS value. */
  function OptStr(o: Option<string>): (r: JsValue)
    ensures o.None? <==> r == Undefined
    ensures o.Some? ==> r == Str(o.value)
  {
    match o
    case None => Undefined
    case Some(s) => Str(s)
  }

  /** Template-literal interpolation `${x}` of a string-or-undefined value. */
  function Interpolate(o: Option<string>): (r: string)
    ensures o.Some? ==> r == o.value
    ensures o.None? ==> r == "undefined"
  {
    match o
    case None => "undefined"
    case Some(s) => s
  }

  /** Lookup of a string-keyed argument record: absent means `undefined`. */
  function Lookup(m: map<string, string>, key: string): (r: Option<string>)
    ensures r.Some? <==> key in m
    ensures key in m ==> r.value == m[key]
  {
    if key in m then Some(m[key]) else None
  }
}
