/** The status classification Vapor's `HTTPStatus` is extended with: an explicit list of
    the client-error and server-error statuses Vapor names, as `isClientError` and
    `isServerError` list them, not a numeric range. A status is represented by its code. */
module HttpStatus {

  /** `isClientError()`: one equality test per named 4xx status. */
  predicate IsClientError(code: int) {
    code == 400 || code == 401 || code == 402 || code == 403 || code == 404 ||
    code == 405 || code == 406 || code == 407 || code == 408 || code == 409 ||
    code == 410 || code == 411 || code == 412 || code == 413 || code == 414 ||
    code == 415 || code == 416 || code == 417 || code == 418 || code == 421 ||
    code == 422 || code == 423 || code == 424 || code == 426 || code == 428 ||
    code == 429 || code == 431 || code == 451
  }

  /** `isServerError()`: one equality test per named 5xx status. */
  predicate IsServerError(code: int) {
    code == 500 || code == 501 || code == 502 || code == 503 || code == 504 ||
    code == 505 || code == 506 || code == 507 || code == 508 || code == 510 ||
    code == 511
  }

  /** `isValid()`: neither a listed client error nor a listed server error. */
  predicate IsValid(code: int) {
    !IsClientError(code) && !IsServerError(code)
  }

  /** The 28 codes `isClientError` lists. */
  const ClientErrorCodes: set<int> := {
    400, 401, 402, 403, 404, 405, 406, 407, 408, 409, 410, 411, 412, 413, 414,
    415, 416, 417, 418, 421, 422, 423, 424, 426, 428, 429, 431, 451 }

  /** The 11 codes `isServerError` lists. */
  const ServerErrorCodes: set<int> := {500, 501, 502, 503, 504, 505, 506, 507, 508, 510, 511}

  lemma ClientErrorsAreListed(code: int)
    ensures IsClientError(code) <==> code in ClientErrorCodes
    ensures IsClientError(code) ==> 400 <= code <= 499
  {
  }

  lemma ServerErrorsAreListed(code: int)
    ensures IsServerError(code) <==> code in ServerErrorCodes
    ensures IsServerError(code) ==> 500 <= code <= 599
  {
  }

  /** Validity is exactly "not in either list"; no code is in both. */
  lemma ValidIsComplementOfLists(code: int)
    ensures IsValid(code) <==> code !in ClientErrorCodes + ServerErrorCodes
    ensures !(IsClientError(code) && IsServerError(code))
  {
    ClientErrorsAreListed(code);
    ServerErrorsAreListed(code);
  }

  /** Every informational, success and redirection status (and anything lower) is valid. */
  lemma BelowFourHundredIsValid(code: int)
    requires code < 400
    ensures IsValid(code)
  {
  }

  /** Codes in the error ranges that the lists leave out are classified valid. */
  lemma UnlistedErrorCodesAreValid()
    ensures IsValid(425) && IsValid(499) && IsValid(509) && IsValid(599)
    ensures !IsValid(404) && !IsValid(429) && !IsValid(500) && !IsValid(503)
  {
  }
}
