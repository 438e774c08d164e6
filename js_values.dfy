/**
 * The part of JavaScript's value semantics the client relies on: parsed JSON
 * bodies (plus `undefined`), truthiness, property access (`a.b`, which throws on
 * `null`/`undefined`), optional chaining (`a?.b`) and nullish coalescing (`??`).
 * Numbers are modelled as integers.
 */
module JsValues {
  import opened Wrappers

  datatype JsValue =
    | Undefined
    | Null
    | Bool(b: bool)
    | Num(n: int)
    | Str(s: string)
    | Arr(items: seq<JsValue>)
    | Obj(fields: map<string, JsValue>)

  /** What a client call can reject with. */
  datatype Error =
    | Thrown(value: JsValue)   // the parsed body of an error response, rethrown as is
    | TypeError                // property read on null/undefined
    | NetworkError             // `fetch` itself rejected

  predicate IsNullish(v: JsValue) {
    v.Undefined? || v.Null?
  }

  /** JavaScript truthiness: `false`, `0`, `""`, `null` and `undefined` are falsy; arrays and objects are truthy. */
  predicate Truthy(v: JsValue) {
    match v
    case Undefined => false
    case Null => false
    case Bool(b) => b
    case Num(n) => n != 0
    case Str(s) => s != ""
    case Arr(_) => true
    case Obj(_) => true
  }

  /** `v?.key`: never throws; `undefined` on a nullish value or a missing key. */
  function OptionalMember(v: JsValue, key: string): (r: JsValue)
    ensures !v.Obj? ==> r == Undefined
    ensures v.Obj? && key !in v.fields ==> r == Undefined
    ensures v.Obj? && key in v.fields ==> r == v.fields[key]
  {
    if v.Obj? && key in v.fields then v.fields[key] else Undefined
  }

  /** `v.key`: a TypeError on a nullish value, otherwise as `v?.key`. */
  function Member(v: JsValue, key: string): (r: Result<JsValue, Error>)
    ensures r.Failure? <==> IsNullish(v)
    ensures r.Failure? ==> r.error == TypeError
    ensures r.Success? ==> r.value == OptionalMember(v, key)
  {
    if IsNullish(v) then Failure(TypeError) else Success(OptionalMember(v, key))
  }

  /** `a ?? b`. */
  function Coalesce(a: JsValue, b: JsValue): (r: JsValue)
    ensures IsNullish(a) ==> r == b
    ensures !IsNullish(a) ==> r == a
  {
    if IsNullish(a) then b else a
  }

  /** `s ? … : …` on an optional string argument: present and non-empty. */
  predicate StringTruthy(s: Option<string>) {
    s.Some? && s.value != ""
  }

  /** `n || d` on an optional number: `undefined` and `0` fall back to `d`. */
  function NumberOr(n: Option<int>, d: int): (r: int)
    ensures n.Some? && n.value != 0 ==> r == n.value
    ensures n.None? || n.value == 0 ==> r == d
  {
    if n.Some? && n.value != 0 then n.value else d
  }
}
