/**
 * The response writer: finishes an HTTP response either with the result of
 * the request or with an error body `{code, message}`, with exactly one
 * status / body / end sequence on the response handle.
 */
module ResponseWriter {
  import opened Wrappers
  import opened Values
  import ErrorNormalizer

  /** One call made on a response handle. */
  datatype Call = SetStatus(code: int) | SendJson(body: Json) | End

  /** The number of `end()` calls in a call history. */
  function Ends(calls: seq<Call>): nat {
    if calls == [] then 0
    else (if calls[0].End? then 1 else 0) + Ends(calls[1..])
  }

  /** The number of body writes in a call history. */
  function Sends(calls: seq<Call>): nat {
    if calls == [] then 0
    else (if calls[0].SendJson? then 1 else 0) + Sends(calls[1..])
  }

  /** Counting `end()` calls distributes over concatenated histories. */
  lemma {:induction false} EndsAppend(a: seq<Call>, b: seq<Call>)
    ensures Ends(a + b) == Ends(a) + Ends(b)
  {
    if a != [] {
      assert (a + b)[0] == a[0] && (a + b)[1..] == a[1..] + b;
      EndsAppend(a[1..], b);
    } else {
      assert a + b == b;
    }
  }

  /** Counting body writes distributes over concatenated histories. */
  lemma {:induction false} SendsAppend(a: seq<Call>, b: seq<Call>)
    ensures Sends(a + b) == Sends(a) + Sends(b)
  {
    if a != [] {
      assert (a + b)[0] == a[0] && (a + b)[1..] == a[1..] + b;
      SendsAppend(a[1..], b);
    } else {
      assert a + b == b;
    }
  }

  /**
   * An HTTP response handle: the status it will send, the body written, whether
   * it has been ended and how many bodies were written. `calls` is the history
   * of calls made on it; a handle takes at most one body and is ended at most
   * once, and is ended exactly when its history holds an `end()`.
   */
  class Response {
    var statusCode: int
    var body: Option<Json>
    var ended: bool
    var writes: nat
    ghost var calls: seq<Call>

    ghost predicate Valid()
      reads this
    {
      Ends(calls) == (if ended then 1 else 0) && writes == Sends(calls) && writes <= 1
    }

    /** A response not yet written to; the status starts as 200. */
    constructor ()
      ensures Valid() && !ended && calls == []
      ensures statusCode == OK && body == None && writes == 0
    {
      statusCode, body, ended, writes := OK, None, false, 0;
      calls := [];
    }

    /** `status(code)`: sets the status to send. */
    method Status(code: int)
      requires Valid()
      modifies this
      ensures Valid() && calls == old(calls) + [SetStatus(code)]
      ensures statusCode == code && body == old(body) && ended == old(ended) && writes == old(writes)
    {
      EndsAppend(calls, [SetStatus(code)]);
      SendsAppend(calls, [SetStatus(code)]);
      statusCode := code;
      calls := calls + [SetStatus(code)];
    }

    /**
     * `json(value)`: writes `value` as the body; allowed only once, and not
     * once the response has ended.
     */
    method Json(value: Json)
      requires Valid() && !ended && writes == 0
      modifies this
      ensures Valid() && calls == old(calls) + [SendJson(value)]
      ensures body == Some(value) && statusCode == old(statusCode) && !ended && writes == old(writes) + 1
    {
      EndsAppend(calls, [SendJson(value)]);
      SendsAppend(calls, [SendJson(value)]);
      body := Some(value);
      writes := writes + 1;
      calls := calls + [SendJson(value)];
    }

    /** `end()`: finishes the response; a response is ended only once. */
    method End()
      requires Valid() && !ended
      modifies this
      ensures Valid() && calls == old(calls) + [Call.End]
      ensures ended && statusCode == old(statusCode) && body == old(body) && writes == old(writes)
    {
      EndsAppend(calls, [Call.End]);
      SendsAppend(calls, [Call.End]);
      ended := true;
      calls := calls + [Call.End];
    }
  }

  /** What a finished response carries: its status and its body. */
  datatype Written = Written(status: int, body: Json)

  /** The error body `{code: status, message: message}`. */
  function ErrorBody(status: int, message: string): Json {
    Obj([("code", Num(status)), ("message", Str(message))])
  }

  /**
   * What processResponse writes: the result with 200 when there is no error and
   * the result is truthy; otherwise an error body whose status is the error's
   * truthy `statusCode` or 500, and whose message is the error's truthy
   * `message` or the fixed default.
   */
  function ReplyFor(err: Option<RawError>, result: Json): Written {
    if err.None? && Truthy(result) then Written(OK, result)
    else
      var code := if err.Some? && TruthyNum(err.value.statusCode) then err.value.statusCode.value
                  else INTERNAL_SERVER_ERROR;
      var message := if err.Some? && TruthyStr(err.value.message) then err.value.message.s
                     else DEFAULT_MESSAGE;
      Written(code, ErrorBody(code, message))
  }

  /**
   * processResponse. Given a response that has neither a body nor an end yet,
   * writes the status and the body of `ReplyFor(err, result)` and ends the
   * response: one status, one body write and one end, after which the response
   * holds exactly one body and has been ended exactly once.
   */
  method ProcessResponse(err: Option<RawError>, result: Json, response: Response)
    requires response.Valid() && !response.ended && response.writes == 0
    modifies response
    ensures response.Valid() && response.ended && Ends(response.calls) == 1 && Sends(response.calls) == 1
    ensures response.statusCode == ReplyFor(err, result).status
    ensures response.body == Some(ReplyFor(err, result).body)
    ensures response.writes == 1
    ensures response.calls ==
      old(response.calls) + [SetStatus(ReplyFor(err, result).status), SendJson(ReplyFor(err, result).body), Call.End]
  {
    if err.None? && Truthy(result) {
      response.Status(OK);
      response.Json(result);
      response.End();
    } else {
      var statusCode := if err.Some? && TruthyNum(err.value.statusCode) then err.value.statusCode.value
                        else INTERNAL_SERVER_ERROR;
      var message := if err.Some? && TruthyStr(err.value.message) then err.value.message.s
                     else DEFAULT_MESSAGE;
      response.Status(statusCode);
      response.Json(ErrorBody(statusCode, message));
      response.End();
    }
  }

  /** With no error and a truthy result, the result is sent with status 200. */
  lemma SuccessSendsResult(result: Json)
    requires Truthy(result)
    ensures ReplyFor(None, result) == Written(OK, result)
  {
  }

  /**
   * Every error reply is an object whose `code` is the status written and whose
   * `message` is non-empty; the status is never 0.
   */
  lemma ErrorBodyCarriesStatus(err: Option<RawError>, result: Json)
    requires !(err.None? && Truthy(result))
    ensures var w := ReplyFor(err, result);
      w.status != 0 && w.body.Obj? &&
      Get(w.body.members, "code") == Some(Num(w.status)) &&
      exists m :: m != "" && Get(w.body.members, "message") == Some(Str(m))
  {
    var w := ReplyFor(err, result);
    assert Get(w.body.members, "code") == Some(Num(w.status));
    var message := if err.Some? && TruthyStr(err.value.message) then err.value.message.s
                   else DEFAULT_MESSAGE;
    assert Get(w.body.members, "message") == Some(Str(message));
  }

  /**
   * An error reply takes the error's status and message when they are truthy,
   * and otherwise falls back to 500 and the default message.
   */
  lemma ErrorDefaults(err: Option<RawError>, result: Json)
    requires !(err.None? && Truthy(result))
    ensures var w := ReplyFor(err, result);
      (if err.Some? && TruthyNum(err.value.statusCode)
       then w.status == err.value.statusCode.value
       else w.status == INTERNAL_SERVER_ERROR) &&
      (if err.Some? && TruthyStr(err.value.message)
       then w.body == ErrorBody(w.status, err.value.message.s)
       else w.body == ErrorBody(w.status, DEFAULT_MESSAGE))
  {
  }

  /** No error and a falsy result (null, undefined, false, 0, "") is reported as a 500. */
  lemma MissingResultIsInternalError(result: Json)
    requires !Truthy(result)
    ensures ReplyFor(None, result) == Written(INTERNAL_SERVER_ERROR, ErrorBody(INTERNAL_SERVER_ERROR, DEFAULT_MESSAGE))
  {
  }

  /**
   * Normalising a raw persistence error and then writing the response: the three
   * store error kinds are answered with 400, an unrecognised error with 500 and
   * the default message, and an already-normalised error with its own truthy
   * status (or 500). A store error without a message still gets 400, with the
   * default message; this last fact rests on the constructed `HttpStatusError`
   * being plain data that keeps the message as passed (see "Left out" in the
   * README).
   */
  lemma NormalizedErrorReply(e: RawError, result: Json)
    ensures var w := ReplyFor(ErrorNormalizer.HandleMongodbError(Some(e)), result);
      (e.name in {ErrorNormalizer.CAST_ERROR, ErrorNormalizer.VALIDATION_ERROR, ErrorNormalizer.MONGO_ERROR} ==> w.status == BAD_REQUEST) &&
      (e.name !in {ErrorNormalizer.CAST_ERROR, ErrorNormalizer.VALIDATION_ERROR, ErrorNormalizer.MONGO_ERROR, HTTP_STATUS_ERROR} ==>
         w == Written(INTERNAL_SERVER_ERROR, ErrorBody(INTERNAL_SERVER_ERROR, DEFAULT_MESSAGE))) &&
      (e.name == HTTP_STATUS_ERROR ==> w.status == (if TruthyNum(e.statusCode) then e.statusCode.value else INTERNAL_SERVER_ERROR)) &&
      (e.name == ErrorNormalizer.MONGO_ERROR && !TruthyStr(e.message) ==> w == Written(BAD_REQUEST, ErrorBody(BAD_REQUEST, DEFAULT_MESSAGE)))
  {
  }
}
