/** Optional values: `None` stands for a missing value. */
module Wrappers {
  datatype Option<+T> = None | Some(value: T)
}

/**
 * The plain data the error-and-response layer works on: JSON-like values,
 * JavaScript truthiness, the HTTP status constants it uses, and the raw
 * error objects the persistence layer reports.
 */
module Values {
  import opened Wrappers

  /** HTTP 200 OK. */
  const OK := 200
  /** HTTP 400 Bad Request (section 15.5.1 of RFC 9110). */
  const BAD_REQUEST := 400
  /** HTTP 500 Internal Server Error (section 15.6.1 of RFC 9110). */
  const INTERNAL_SERVER_ERROR := 500

  /** The fixed message used when no better one is known. */
  const DEFAULT_MESSAGE := "Internal error processing the request"

  /** The `name` of an error that is already in the normalised shape. */
  const HTTP_STATUS_ERROR := "HttpStatusError"

  /**
   * A JSON-like JavaScript value, as handed to a response. `Null` stands for
   * both `null` and `undefined`; object members are kept in property order.
   */
  datatype Json =
    | Null
    | Bool(b: bool)
    | Num(n: int)
    | Str(s: string)
    | Arr(items: seq<Json>)
    | Obj(members: seq<(string, Json)>)

  /** JavaScript truthiness: null, undefined, false, 0 and "" are falsy; objects and arrays are truthy. */
  predicate Truthy(v: Json) {
    match v
    case Null => false
    case Bool(b) => b
    case Num(n) => n != 0
    case Str(s) => s != ""
    case Arr(_) => true
    case Obj(_) => true
  }

  /** Truthiness of a numeric property that may be undefined. */
  predicate TruthyNum(x: Option<int>) {
    x.Some? && x.value != 0
  }

  /**
   * A string property of an error object: undefined, `null` or a string. The
   * two missing forms are told apart because a template literal renders them
   * differently.
   */
  datatype Text = Undefined | Null | Defined(s: string)

  /** Truthiness of a string property: only a non-empty string is truthy. */
  predicate TruthyStr(x: Text) {
    x.Defined? && x.s != ""
  }

  /** What a template literal `${x}` renders for a string property. */
  function Interpolate(x: Text): string {
    match x
    case Defined(s) => s
    case Null => "null"
    case Undefined => "undefined"
  }

  /** Reading property `key` of an object: the first member with that key, if any. */
  function Get(members: seq<(string, Json)>, key: string): (r: Option<Json>)
    ensures r.None? <==> forall i :: 0 <= i < |members| ==> members[i].0 != key
    ensures r.Some? ==> exists i :: 0 <= i < |members| && members[i] == (key, r.value)
  {
    if members == [] then None
    else if members[0].0 == key then Some(members[0].1)
    else
      var r := Get(members[1..], key);
      assert forall i :: 1 <= i < |members| ==> members[i] == members[1..][i - 1];
      r
  }

  /** One entry of a validation error's `errors` object: the failure reported for one field. */
  datatype FieldError = FieldError(path: Text)

  /**
   * A raw error object as the persistence layer (or the normaliser itself)
   * produces it. Only the properties the error-and-response layer reads are
   * kept: `name`, `message`, `path`, the per-field `errors` of a validation
   * error (in property order, so its first entry is the first key) and
   * `statusCode`. Every property but `name` may be missing; a missing
   * `errors` or `statusCode` is `None`, whether it is `null` or undefined,
   * since the source only tests those two for truthiness.
   */
  datatype RawError = RawError(
    name: string,
    message: Text,
    path: Text,
    errors: Option<seq<(string, FieldError)>>,
    statusCode: Option<int>)

  /** A freshly built normalised error, `new HttpStatusError(status, message)`, as plain data. */
  function HttpStatusError(status: int, message: Text): RawError {
    RawError(HTTP_STATUS_ERROR, message, Undefined, None, Some(status))
  }
}
