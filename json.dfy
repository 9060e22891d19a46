/**
 * JSON documents as rendered by the controllers (`render json: …`) and the
 * HTTP statuses they use.
 */
module Json {

  datatype Json =
    | Null
    | Bool(b: bool)
    | Int(i: int)
    /** A non-integer number, kept as its literal text (no float arithmetic). */
    | Decimal(text: string)
    | Str(s: string)
    | Arr(items: seq<Json>)
    | Obj(fields: map<string, Json>)

  /** A rendered HTTP response: status code and JSON body. */
  datatype Rendered = Rendered(status: int, body: Json)

  const OK := 200
  const CREATED := 201
  const NO_CONTENT := 204
  const BAD_REQUEST := 400
  const UNAUTHORIZED := 401
  const PAYMENT_REQUIRED := 402
  const FORBIDDEN := 403
  const NOT_FOUND := 404
  const CONFLICT := 409
  const UNPROCESSABLE_ENTITY := 422
  const INTERNAL_SERVER_ERROR := 500

  /** The value of `key` in an object body, if the body is an object holding it. */
  function Field(j: Json, key: string): Json {
    if j.Obj? && key in j.fields then j.fields[key] else Null
  }

  predicate HasField(j: Json, key: string) {
    j.Obj? && key in j.fields
  }

  function StrArr(xs: seq<string>): (r: Json)
    ensures r.Arr? && |r.items| == |xs|
    ensures forall k :: 0 <= k < |xs| ==> r.items[k] == Str(xs[k])
  {
    if xs == [] then Arr([]) else Arr([Str(xs[0])] + StrArr(xs[1..]).items)
  }
}
