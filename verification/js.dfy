/** The fragment of JavaScript value semantics that the storefront's handlers rely on:
    truthiness, `||`, `??`, property access `v.k` and optional chaining `v?.k`.

    Numbers are integers: every number the handlers read or write is an amount in
    centavos or an HTTP status code. NaN is not representable. */
module Js {
  import opened Wrappers

  datatype Json =
    | Undefined
    | Null
    | Bool(b: bool)
    | Num(n: int)
    | Str(s: string)
    | Arr(elems: seq<Json>)
    | Obj(fields: map<string, Json>)

  /** JavaScript truthiness: undefined, null, false, 0 and "" are falsy. */
  predicate Truthy(v: Json) {
    match v
    case Undefined => false
    case Null => false
    case Bool(b) => b
    case Num(n) => n != 0
    case Str(s) => s != ""
    case Arr(_) => true
    case Obj(_) => true
  }

  /** The values `??` and `?.` treat as absent. */
  predicate Nullish(v: Json) {
    v.Undefined? || v.Null?
  }

  /** `a || b` */
  function Or(a: Json, b: Json): Json {
    if Truthy(a) then a else b
  }

  /** `a ?? b` */
  function Coalesce(a: Json, b: Json): Json {
    if Nullish(a) then b else a
  }

  /** `v?.key`: undefined on null and undefined, the field on an object, undefined
      otherwise (none of the keys the handlers read is a built-in property of a
      primitive or an array). */
  function OptMember(v: Json, key: string): Json {
    match v
    case Obj(m) => if key in m then m[key] else Undefined
    case _ => Undefined
  }

  /** `v.key`: like `v?.key`, except that reading a property of null or undefined
      throws a TypeError, modelled as None. */
  function Member(v: Json, key: string): (r: Option<Json>)
    ensures r.None? <==> Nullish(v)
    ensures r.Some? ==> r.value == OptMember(v, key)
  {
    if Nullish(v) then None else Some(OptMember(v, key))
  }
}

/** HTTP replies as the handlers build them: a status code and a JSON body. */
module Http {
  import opened Js

  datatype Response = Response(status: int, body: Json)

  /** `{ ok: true }` */
  function OkBody(): Json {
    Obj(map["ok" := Bool(true)])
  }

  /** `{ ok: false, error: message }` */
  function ErrorBody(message: string): Json {
    Obj(map["ok" := Bool(false), "error" := Str(message)])
  }

  /** The Fetch API's `response.ok`. */
  predicate IsOkStatus(status: int) {
    200 <= status <= 299
  }

  /** The 405 reply of both serverless handlers. */
  function MethodNotAllowed(): Response {
    Response(405, ErrorBody("Method not allowed"))
  }

  /** The catch-all 500 of both checkout handlers. */
  function InternalError(): Response {
    Response(500, ErrorBody("Erro interno no servidor"))
  }
}
