/** JavaScript values as `JSON.parse` produces them, with the language's
    truthiness, optional property lookup and `||`. Numbers are integers in
    this model (no fractions, no NaN, no infinities). */
module Js {

  datatype JsValue =
    | JUndefined
    | JNull
    | JBool(b: bool)
    | JNum(n: int)
    | JStr(s: string)
    | JArray(items: seq<JsValue>)
    | JObject(fields: map<string, JsValue>)

  /** `!!v`: `undefined`, `null`, `false`, `0` and `''` are the falsy values. */
  predicate Truthy(v: JsValue) {
    match v
    case JUndefined => false
    case JNull => false
    case JBool(b) => b
    case JNum(n) => n != 0
    case JStr(s) => s != ""
    case _ => true
  }

  /** `v?.key`: a member of an object, `undefined` for anything else. */
  function Get(v: JsValue, key: string): JsValue {
    if v.JObject? && key in v.fields then v.fields[key] else JUndefined
  }

  /** `v.key !== undefined`; a parsed JSON document never holds `undefined`,
      so this is "the key is present". */
  predicate Has(v: JsValue, key: string) {
    Get(v, key) != JUndefined
  }

  /** `a || b` */
  function Or(a: JsValue, b: JsValue): JsValue {
    if Truthy(a) then a else b
  }

  /** `typeof v === 'object'` (true of `null` and of arrays as well). */
  predicate IsObject(v: JsValue) {
    v.JNull? || v.JArray? || v.JObject?
  }

  /** The members `{...v}` copies: an object's own members; nothing for
      `null`, `undefined`, booleans and numbers. (Strings and arrays, which
      spread their elements under index keys, also copy nothing here.) */
  function Spread(v: JsValue): map<string, JsValue> {
    if v.JObject? then v.fields else map[]
  }
}

/** The outcome of one call to `fetch`, supplied to the model from outside. */
module Net {
  import opened Wrappers

  /** The call threw (network failure, aborted request), or a response came
      back with its `ok` flag and its body as `response.json()` parsed it
      (`None` when that call throws). */
  datatype HttpResult<T> = NetworkError(reason: string) | Reply(ok: bool, body: Option<T>)

  /** The response is ok and its body parsed: the only case in which the
      callers in this model go on to use the body. */
  predicate Delivered<T>(h: HttpResult<T>) {
    h.Reply? && h.ok && h.body.Some?
  }

  /** The JSON a pinning endpoint answers with; `IpfsHash` may be missing. */
  datatype PinReceipt = PinReceipt(ipfsHash: Option<string>)

  /** `result.IpfsHash` is truthy. */
  predicate HasHash(r: PinReceipt) {
    r.ipfsHash.Some? && r.ipfsHash.value != ""
  }
}
