# Error-and-response layer of a Person record web service

This project models, in Dafny, the error-and-response layer of a small
Express/mongoose web service that stores "Person" records. That layer lives in
`helpers/utils.js` and has two parts:

- **The error normaliser (`handleMongodbError`).** It turns a raw persistence
  error, or its absence, into either nothing or a normalised `HttpStatusError`
  with a status and a message. It does this by a first-match chain on the
  error's `name`:
  - `CastError` gives 400 `"Invalid parameter <path>"`.
  - `ValidationError` gives 400 `"<message>.Invalid <path of first failing field>"`.
  - `MongoError` gives 400 with the store's message, unchanged.
  - `HttpStatusError` is passed through as it is.
  - Anything else gives 500 `"Internal error processing the request"`.

  The status codes are 400 Bad Request and 500 Internal Server Error
  (sections 15.5.1 and 15.6.1 of RFC 9110).
- **The response writer (`processResponse`).** It ends an HTTP response with one
  `status(...)`, one `json(...)` and one `end()` call:
  - with no error and a truthy result, it writes 200 and the result;
  - otherwise it writes the error's status (or 500) and the body
    `{code, message}`, filling in the default message when the error has none.

Layout:

- `values.dfy`: `Wrappers.Option`; module `Values`. `Values` holds JSON-like
  values, JavaScript truthiness, template-literal rendering of properties
  that may be `null` or undefined, the status constants, and the raw error record.
- `normalizer.dfy`: module `ErrorNormalizer`. It holds `HandleMongodbError`,
  the per-branch lemmas, idempotence, and an explicit error-kind classification
  that the status is proved to follow.
- `response.dfy`: module `ResponseWriter`. It holds:
  - the `Response` handle as a class with `statusCode`, `body`, `ended` and a
    body-write counter `writes`;
  - a ghost history of the calls made on the handle;
  - the specification function `ReplyFor`;
  - the method `ProcessResponse`, proved against `ReplyFor`;
  - the lemmas about replies, including one about a normalised error followed
    by a written response.

Modelling choices:

- A string property that the source may interpolate (`message`, `path`, the
  `path` of a field error) is `Undefined`, `Null` or a defined string. A
  template literal renders the two missing forms as `"undefined"` and
  `"null"`, and so does the model.
- A missing error, `errors` object or `statusCode` is `None`, whether it is
  `null` or undefined. The source only tests these for truthiness.
- The truthiness tests of the source are modelled for the values the model
  represents:
  - `err.statusCode` of 0 counts as missing;
  - an empty `err.message` counts as missing;
  - a result of `null`, `false`, `0` or `""` counts as missing.
- The normaliser's input and output have the same type. A constructed
  `HttpStatusError` is a raw error named `HttpStatusError`, so normalising a
  normalised error is meaningful, and the model proves it is the identity.
- A validation error's `errors` object is a sequence of (key, field error)
  pairs in property order. Its first pair is the entry `Object.keys(...)[0]`
  selects.
- The code writes a validation message as `"<message>.Invalid <field>"`, with
  a dot and no space (helpers/utils.js:43). The model follows it.

## Model

| member | source | states |
|---|---|---|
| `ErrorNormalizer.HandleMongodbError` | helpers/utils.js:30-52 | No error results exactly when there was no error. Every result is named `HttpStatusError`. Unless the input already had that name, its status is 400 or 500. |
| `ErrorNormalizer.CastErrorNamesParameter` | helpers/utils.js:34-35 | A `CastError` gives 400. Its message is `"Invalid parameter "` followed by the offending path as a template literal renders it (`"null"` or `"undefined"` when missing), so the path can be read back from the message. |
| `ErrorNormalizer.CastErrorMessagesDistinguishFields` | helpers/utils.js:34-35 | Cast errors on different paths give different messages. |
| `ErrorNormalizer.ValidationErrorMessage` | helpers/utils.js:36-43 | A `ValidationError` gives 400. The message is the error's message, then `"."`, then `"Invalid <path>"` of the first failing field when there is one. With no failing field, the message ends in the bare `"."`. A missing message or path renders as `"null"` or `"undefined"`. |
| `ErrorNormalizer.ValidationUsesFirstFieldOnly` | helpers/utils.js:37-41 | Only the first entry of a validation error's `errors` affects the result. Dropping every later entry changes nothing. |
| `ErrorNormalizer.MongoErrorKeepsMessage` | helpers/utils.js:44-45 | A `MongoError` gives 400 with the store's message copied verbatim, even when that message is `null` or undefined. |
| `ErrorNormalizer.HttpStatusErrorPassesThrough` | helpers/utils.js:46-47 | An error named `HttpStatusError` is returned unchanged. |
| `ErrorNormalizer.UnknownErrorIsInternal` | helpers/utils.js:48-49 | Any other name gives 500 with `"Internal error processing the request"`. |
| `ErrorNormalizer.NormalizeIdempotent` | helpers/utils.js:30-52 | Normalising a normaliser's result gives that result again. |
| `ErrorNormalizer.StatusFollowsKind` | helpers/utils.js:34-50 | The status follows the first-match classification into five kinds. The three store kinds give 400 and an unknown error gives 500. An already-normalised error keeps its own status. So errors of each of the other four kinds always get the same status. |
| `ResponseWriter.Response.Status` | helpers/utils.js:16 | `status(code)` sets the status to send and records the call. Nothing else changes. |
| `ResponseWriter.Response.Json` | helpers/utils.js:20 | `json(value)` is only allowed once, and only before the end. It sets the body, sets the write counter to one and records the call. A handle never holds two bodies. |
| `ResponseWriter.Response.End` | helpers/utils.js:20 | `end()` is only allowed once. It marks the response ended and records the call. |
| `ResponseWriter.ProcessResponse` | helpers/utils.js:14-22 | It needs a response with no body and no end yet. It leaves exactly one status, one body write and one end, in that order. The response then holds exactly one body and has been ended exactly once, with the status and body of `ReplyFor`. |
| `ResponseWriter.SuccessSendsResult` | helpers/utils.js:15-16 | No error and a truthy result give status 200 with the result as the body. |
| `ResponseWriter.ErrorBodyCarriesStatus` | helpers/utils.js:17-21 | Every error reply is an object. Its `code` equals the status written, its `message` is non-empty, and the status is never 0. |
| `ResponseWriter.ErrorDefaults` | helpers/utils.js:18-20 | An error reply uses the error's truthy `statusCode`, else 500. It uses the error's truthy `message`, else the default message. |
| `ResponseWriter.MissingResultIsInternalError` | helpers/utils.js:15-20 | No error with a falsy result (null, undefined, false, 0, "") is answered with 500 and the default message. |
| `ResponseWriter.NormalizedErrorReply` | helpers/utils.js:14-52 | Normalising a raw error and then writing the response gives the following. Cast, validation and store errors get 400. Unknown errors get 500 with the default message. An `HttpStatusError` gets its own truthy status, else 500. A store error without a message gets 400 with the default message. |

## Left out

- The HTTP route layer, static file serving, body parsing, CORS, the database connection and the startup self-test in `app.js` are framework and network I/O. They are not part of this model.
- `helpers/serviceHelper.js` only wraps the object-document mapper's `save`, `remove` and `find`, whose code is not visible. It is not part of this model.
- `models/person.js` (a schema declaration), `helpers/logger.js` and `config/config.js` (logging and environment configuration), and the test files (demonstrations of third-party libraries) are not part of this model.
- The internals of the `common-errors` `HttpStatusError` class and of the `http-status` constants are not modelled. A constructed error is plain data: a name, a status and the message exactly as passed, even when that message is undefined. Other properties the class may add, such as a stack trace, are left out.
- `Object.keys` lists integer-like keys before other keys, in ascending order. The model takes the first key in property order. Validation error keys are field paths, which are not integer-like.
- An entry of a validation error's `errors` that is `null` would make the source throw. The model assumes every entry is an object.
- An error whose `name` is undefined is modelled as a name that matches none of the four recognised names. That is the branch JavaScript's strict comparison takes.
- `statusCode` is modelled as an integer or undefined. Non-numeric status values such as strings or `NaN` are left out.
- `ResponseWriter.Response.Json` models Express's `json` as writing the body only. In Express, `json` already finishes the response, so the chained `end()` is then a second, ignored end. The model treats `end()` as the one terminal call.
- `ResponseWriter.ReplyFor` and `ResponseWriter.Response.Status` accept any integer status. Node refuses to send a status outside 100 to 999. An `HttpStatusError` carrying such a status would make the source fail when the headers are written; the model writes it as given.
- JavaScript numbers are modelled as integers. `NaN`, `-0` and fractional numbers are left out. So is their truthiness, which matters for `!err` and `err.statusCode`: `NaN` and `-0` are falsy.
- A falsy error that is not `null` or undefined (`0`, `""`, `false`) is modelled as `None`, like the source's `!err` test treats it.
- Results are modelled as JSON-like values. Functions, symbols and other non-JSON JavaScript values are left out.
