/** The failures a call of the client can end with (mygengo.py:42-66), plus the
    `urllib2.HTTPError` that `_request` re-raises unchanged. */
module Errors {
  import opened JsonValue

  /** Code of `ConnectionError` (mygengo.py:176). */
  const CONNECTION_ERROR_CODE: int := -1
  /** Code of every `JsonError` (mygengo.py:87, 187, 192). */
  const JSON_ERROR_CODE: int := -2

  /** Why a response was rejected as bad JSON; stands for the message text. */
  datatype JsonFault =
    | Unparsable
    | MissingField(field: string)
    | UnknownOpstat(opstat: Json)

  datatype Error =
    | ConnectionError(code: int, cause: string)
    | JsonError(code: int, fault: JsonFault)
    | MygengoError(remoteCode: Json, remoteMsg: Json)
    | HttpError(status: int)
}
