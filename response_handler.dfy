/** src/utils/responseHandler.js: builds a `{ success, status, message }`
    envelope with at most one of `error` and `data`. */
module ResponseHandler {

  /** The JavaScript values the arguments may hold, as far as truthiness
      tells them apart. Numbers are integers here, with `NaN` apart. */
  datatype JsValue =
    | Undefined
    | Null
    | Bool(b: bool)
    | Number(n: int)
    | NaN
    | Str(s: string)
    | Object(fields: map<string, JsValue>)
    | Array(items: seq<JsValue>)

  /** JavaScript truthiness: `undefined`, `null`, `false`, `0`, `NaN` and
      `""` are falsy; every object and array is truthy. */
  predicate Truthy(v: JsValue) {
    match v
    case Undefined => false
    case Null => false
    case Bool(b) => b
    case Number(n) => n != 0
    case NaN => false
    case Str(s) => s != ""
    case Object(_) => true
    case Array(_) => true
  }

  /** Which optional key the envelope carries. */
  datatype Extra = Bare | WithError(error: JsValue) | WithData(data: JsValue)

  datatype Envelope = Envelope(success: bool, status: int, message: string, extra: Extra)

  /** `responseHandler(message, status, data, error)`. */
  function Respond(message: string, status: int, data: JsValue, error: JsValue): (r: Envelope)
    ensures r.success <==> 200 <= status < 300
    ensures r.status == status && r.message == message
    ensures r.extra.WithError? <==> Truthy(error)
    ensures r.extra.WithData? <==> !Truthy(error) && Truthy(data)
    ensures r.extra.Bare? <==> !Truthy(error) && !Truthy(data)
    ensures r.extra.WithError? ==> r.extra.error == error
    ensures r.extra.WithData? ==> r.extra.data == data
  {
    var success := status >= 200 && status < 300;
    if Truthy(error) then Envelope(success, status, message, WithError(error))
    else if Truthy(data) then Envelope(success, status, message, WithData(data))
    else Envelope(success, status, message, Bare)
  }

  /** An error wins over data: whatever `data` is, a truthy `error` gives
      the same envelope. A falsy `error` of any kind is the same as none. */
  lemma ErrorTakesPrecedence(message: string, status: int, data: JsValue, other: JsValue, error: JsValue)
    ensures Truthy(error) ==> Respond(message, status, data, error) == Respond(message, status, other, error)
    ensures !Truthy(error) ==> Respond(message, status, data, error) == Respond(message, status, data, Undefined)
  {
  }

  /** `success` depends on the status alone: neither the message nor what
      else is sent changes it. */
  lemma SuccessFollowsStatus(message: string, status: int, data: JsValue, error: JsValue, other: JsValue)
    ensures Respond(message, status, data, error).success == Respond("", status, other, Undefined).success
  {
  }
}
