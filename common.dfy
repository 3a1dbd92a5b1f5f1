/**
 * Values shared by the three telemetry handlers: optional values, the
 * attribute map attached to every record, and the JavaScript `Error`
 * objects that the error handler and the logger receive.
 */
module Common {

  /** JavaScript `undefined`/`null` versus a present value. */
  datatype Option<+T> = None | Some(value: T) {
    /** `x ?? fallback` */
    function GetOr(fallback: T): T {
      match this
      case Some(v) => v
      case None => fallback
    }
  }

  /** A JavaScript number, kept as its IEEE-754 bit pattern: the model only copies it. */
  datatype Number = Number(bits: bv64)

  /** A value stored under an attribute key. */
  datatype AttrValue = Str(s: string) | Num(n: Number) | Bool(b: bool)

  /** String keys to values; key order plays no part. */
  type Attributes = map<string, AttrValue>

  /** The attribute key under which every handler records its service name. */
  const ServiceNameKey: string := "service.name"

  /** The fields of a JavaScript `Error` that the client reads; `stack` may be missing. */
  datatype JsError = JsError(name: string, message: string, stack: Option<string>)

  /**
   * `{ ...attrs, 'service.name': name }`: the caller's attributes, with the
   * service name written last so that it overrides any caller value.
   */
  function WithServiceName(attrs: Attributes, name: string): (r: Attributes)
    ensures r.Keys == attrs.Keys + {ServiceNameKey}
    ensures r[ServiceNameKey] == Str(name)
    ensures forall k :: k in attrs && k != ServiceNameKey ==> r[k] == attrs[k]
  {
    attrs[ServiceNameKey := Str(name)]
  }

  /** Settings every handler falls back to when an option is missing. */
  const DefaultName: string := "sample-app"
  const DefaultToken: string := "tk_1234567890"
  const DefaultEndpoint: string := "ingress.vigilant.run"

  /** The most records one request carries. */
  const MaxBatchSize: nat := 100
}
