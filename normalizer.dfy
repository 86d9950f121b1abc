/**
 * The error normaliser: maps a raw persistence error (or its absence) to
 * nothing or to an error in the normalised `HttpStatusError` shape, by a
 * first-match chain on the error's `name`.
 */
module ErrorNormalizer {
  import opened Wrappers
  import opened Values

  const CAST_ERROR := "CastError"
  const VALIDATION_ERROR := "ValidationError"
  const MONGO_ERROR := "MongoError"

  /** Prefix of the message for a malformed parameter. */
  const INVALID_PARAMETER := "Invalid parameter "
  /** Prefix of the description of the first failing field of a validation error. */
  const INVALID := "Invalid "

  /**
   * handleMongodbError. Absent input gives no error; every present input gives
   * an error named `HttpStatusError`, and unless the input already had that
   * name its status is 400 or 500.
   */
  function HandleMongodbError(err: Option<RawError>): (r: Option<RawError>)
    ensures r.None? <==> err.None?
    ensures r.Some? ==> r.value.name == HTTP_STATUS_ERROR
    ensures r.Some? && err.value.name != HTTP_STATUS_ERROR ==>
      r.value.statusCode == Some(BAD_REQUEST) || r.value.statusCode == Some(INTERNAL_SERVER_ERROR)
  {
    if err.None? then None
    else
      var e := err.value;
      if e.name == CAST_ERROR then
        Some(HttpStatusError(BAD_REQUEST, Defined(INVALID_PARAMETER + Interpolate(e.path))))
      else if e.name == VALIDATION_ERROR then
        var desc := if e.errors.Some? && |e.errors.value| > 0
                    then INVALID + Interpolate(e.errors.value[0].1.path)
                    else "";
        Some(HttpStatusError(BAD_REQUEST, Defined(Interpolate(e.message) + "." + desc)))
      else if e.name == MONGO_ERROR then
        Some(HttpStatusError(BAD_REQUEST, e.message))
      else if e.name == HTTP_STATUS_ERROR then
        err
      else
        Some(HttpStatusError(INTERNAL_SERVER_ERROR, Defined(DEFAULT_MESSAGE)))
  }

  /**
   * A malformed parameter gives 400, and the offending field, as a template
   * literal renders it (`"null"` or `"undefined"` when missing), can be read
   * back from the message.
   */
  lemma CastErrorNamesParameter(e: RawError)
    requires e.name == CAST_ERROR
    ensures var r := HandleMongodbError(Some(e)).value;
      r.statusCode == Some(BAD_REQUEST) && r.message.Defined? &&
      INVALID_PARAMETER <= r.message.s &&
      r.message.s[|INVALID_PARAMETER|..] == Interpolate(e.path)
  {
  }

  /** Two malformed-parameter errors on different fields never produce the same message. */
  lemma CastErrorMessagesDistinguishFields(e1: RawError, e2: RawError)
    requires e1.name == CAST_ERROR && e2.name == CAST_ERROR
    requires Interpolate(e1.path) != Interpolate(e2.path)
    ensures HandleMongodbError(Some(e1)).value.message != HandleMongodbError(Some(e2)).value.message
  {
    CastErrorNamesParameter(e1);
    CastErrorNamesParameter(e2);
  }

  /**
   * A validation error gives 400 with the error's own message followed by "."
   * and, when some field failed, "Invalid " and the path of the first failing
   * field; with no failing field the message ends in the bare ".". Missing
   * values render as `"null"` or `"undefined"`, as in a template literal.
   */
  lemma ValidationErrorMessage(e: RawError)
    requires e.name == VALIDATION_ERROR
    ensures var r := HandleMongodbError(Some(e)).value;
      var head := Interpolate(e.message) + ".";
      r.statusCode == Some(BAD_REQUEST) && r.message.Defined? &&
      head <= r.message.s &&
      if e.errors.Some? && |e.errors.value| > 0
      then r.message.s[|head|..] == INVALID + Interpolate(e.errors.value[0].1.path)
      else r.message.s == head && r.message.s[|r.message.s| - 1] == '.'
  {
  }

  /** Only the first reported field of a validation error influences the result. */
  lemma ValidationUsesFirstFieldOnly(e: RawError)
    requires e.name == VALIDATION_ERROR && e.errors.Some? && |e.errors.value| > 0
    ensures HandleMongodbError(Some(e)) == HandleMongodbError(Some(e.(errors := Some(e.errors.value[..1]))))
  {
  }

  /** A generic store error gives 400 and keeps the store's message verbatim. */
  lemma MongoErrorKeepsMessage(e: RawError)
    requires e.name == MONGO_ERROR
    ensures HandleMongodbError(Some(e)) == Some(HttpStatusError(BAD_REQUEST, e.message))
  {
  }

  /** An error already in the normalised shape is passed through unchanged. */
  lemma HttpStatusErrorPassesThrough(e: RawError)
    requires e.name == HTTP_STATUS_ERROR
    ensures HandleMongodbError(Some(e)) == Some(e)
  {
  }

  /** Any unrecognised error gives 500 with the fixed message. */
  lemma UnknownErrorIsInternal(e: RawError)
    requires e.name !in {CAST_ERROR, VALIDATION_ERROR, MONGO_ERROR, HTTP_STATUS_ERROR}
    ensures HandleMongodbError(Some(e)) == Some(HttpStatusError(INTERNAL_SERVER_ERROR, Defined(DEFAULT_MESSAGE)))
  {
  }

  /** Normalising an already-normalised result changes nothing. */
  lemma NormalizeIdempotent(err: Option<RawError>)
    ensures HandleMongodbError(HandleMongodbError(err)) == HandleMongodbError(err)
  {
  }

  /** The error kinds of the normaliser, as an explicit tagged classification. */
  datatype Kind = MalformedParameter | ValidationFailed | StoreConflict | AlreadyNormalized | Unknown

  /**
   * Classification of an error name; the earlier kinds take priority. This is
   * the reference classification that `StatusFollowsKind` checks the
   * normaliser against.
   */
  function KindOf(name: string): Kind {
    if name == CAST_ERROR then MalformedParameter
    else if name == VALIDATION_ERROR then ValidationFailed
    else if name == MONGO_ERROR then StoreConflict
    else if name == HTTP_STATUS_ERROR then AlreadyNormalized
    else Unknown
  }

  /** The status each kind is given; an already-normalised error keeps its own. */
  function KindStatus(k: Kind, own: Option<int>): Option<int> {
    match k
    case MalformedParameter => Some(BAD_REQUEST)
    case ValidationFailed => Some(BAD_REQUEST)
    case StoreConflict => Some(BAD_REQUEST)
    case AlreadyNormalized => own
    case Unknown => Some(INTERNAL_SERVER_ERROR)
  }

  /**
   * The status the normaliser gives depends only on the kind of the error (and,
   * for an already-normalised error, on its own status): errors of each of the
   * other four kinds always get the same status.
   */
  lemma StatusFollowsKind(e: RawError)
    ensures HandleMongodbError(Some(e)).value.statusCode == KindStatus(KindOf(e.name), e.statusCode)
  {
  }
}
