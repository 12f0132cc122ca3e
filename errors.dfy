/**
 * Error codes of the server: HTTP statuses mapped to 5-digit codes, the
 * server's error value and its API form (src/utils/errors.py).
 */
module Errors {
  import opened Wrappers
  import opened PyValues

  /** The code an error carries when none is given. */
  const DEFAULT_ERROR_CODE: int := 50000

  /** The wire form of an error: a 5-digit code and a message. */
  datatype ApiError = ApiError(errorCode: int, message: string)

  /** The server's error value; `details` is any attached Python value. */
  datatype ObsidianError = ObsidianError(name: string, message: string, errorCode: int, details: Value)

  /**
   * The code the error constructor stores for a requested `code`: codes that
   * already have five digits are kept, smaller ones are read as HTTP statuses
   * and multiplied by 100, and the rest fall back to the default code.
   */
  function NormalizeErrorCode(code: int): (r: int)
    ensures 10000 <= code <= 99999 ==> r == code
    ensures code >= 100 ==> 10000 <= r <= 99999
    ensures code < 1000 ==> r == code * 100
    ensures code < 100 ==> r < 10000
    ensures (1000 <= code < 10000 || code > 99999) ==> r == DEFAULT_ERROR_CODE
  {
    if code < 10000 || code > 99999 then
      (if code < 1000 then code * 100 else DEFAULT_ERROR_CODE)
    else
      code
  }

  /** The error constructor, with the default code 50000 and no details. */
  function NewObsidianError(message: string, errorCode: int := DEFAULT_ERROR_CODE, details: Value := Null): (e: ObsidianError)
    ensures e.name == "ObsidianError" && e.message == message && e.details == details
    ensures e.errorCode == NormalizeErrorCode(errorCode)
  {
    ObsidianError("ObsidianError", message, NormalizeErrorCode(errorCode), details)
  }

  /** `str(error)` is the message the error was raised with. */
  function ToApiError(e: ObsidianError): (a: ApiError)
    ensures a.errorCode == e.errorCode && a.message == e.message
  {
    ApiError(e.errorCode, e.message)
  }

  /** The JSON dictionary of an API error. */
  function ToDict(a: ApiError): (d: Value)
    ensures d.Dict? && Keys(d.entries) == ["errorCode", "message"]
    ensures Lookup(d.entries, "errorCode") == Some(Int(a.errorCode))
    ensures Lookup(d.entries, "message") == Some(Str(a.message))
  {
    Dict([("errorCode", Int(a.errorCode)), ("message", Str(a.message))])
  }

  /** An API error can be read back from its dictionary. */
  function FromDict(d: Value): Option<ApiError> {
    if d.Dict? then
      match (Lookup(d.entries, "errorCode"), Lookup(d.entries, "message"))
      case (Some(Int(c)), Some(Str(m))) => Some(ApiError(c, m))
      case _ => None
    else None
  }

  lemma ToDictRoundTrip(a: ApiError)
    ensures FromDict(ToDict(a)) == Some(a)
  {
  }

  /**
   * The API form of a newly raised error carries the normalised code and the
   * message unchanged.
   */
  lemma ApiErrorOfNewError(message: string, code: int)
    ensures ToDict(ToApiError(NewObsidianError(message, code))) ==
            Dict([("errorCode", Int(NormalizeErrorCode(code))), ("message", Str(message))])
    ensures 100 <= code ==> 10000 <= ToApiError(NewObsidianError(message, code)).errorCode <= 99999
  {
  }

  /** A code of 5 is stored as 500: the 5-digit promise needs `code >= 100`. */
  lemma SmallCodeIsNotFiveDigits()
    ensures NewObsidianError("m", 5).errorCode == 500
  {
  }

  /** The internal error code for an HTTP status. */
  function ErrorCodeFromStatus(status: int): (code: int)
    ensures 400 <= status < 600 ==> code == status * 100
    ensures !(400 <= status < 600) ==> code == 50000
    ensures code % 100 == 0 && 40000 <= code <= 59900
  {
    if status == 400 then 40000        // Bad request
    else if status == 401 then 40100   // Unauthorized
    else if status == 403 then 40300   // Forbidden
    else if status == 404 then 40400   // Not found
    else if status == 405 then 40500   // Method not allowed
    else if status == 409 then 40900   // Conflict
    else if status == 429 then 42900   // Too many requests
    else if status == 500 then 50000   // Internal server error
    else if status == 501 then 50100   // Not implemented
    else if status == 502 then 50200   // Bad gateway
    else if status == 503 then 50300   // Service unavailable
    else if status == 504 then 50400   // Gateway timeout
    else if 400 <= status < 500 then 40000 + (status - 400) * 100
    else if 500 <= status < 600 then 50000 + (status - 500) * 100
    else 50000
  }

  /** Error codes of HTTP statuses are already normalised. */
  lemma StatusCodesAreNormal(status: int)
    ensures NormalizeErrorCode(ErrorCodeFromStatus(status)) == ErrorCodeFromStatus(status)
  {
  }

  /** Two distinct error statuses never share a code. */
  lemma ErrorCodeFromStatusInjective(s: int, t: int)
    requires 400 <= s < 600 && 400 <= t < 600 && s != t
    ensures ErrorCodeFromStatus(s) != ErrorCodeFromStatus(t)
  {
  }
}
