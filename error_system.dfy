/**
 * The error system of the backend: the shape of thrown values, the factory for
 * response errors, the SQLSTATE to HTTP status table, and the ordered classifier
 * that turns any thrown value into a response.
 */
module ErrorSystem {
  import opened Wrappers

  /**
   * A thrown JavaScript value, reduced to the properties the classifier inspects:
   * `code` (set on PostgREST errors), `status_code` (set on response errors),
   * whether an `errors` property exists (validation errors), and whether the
   * Supabase client recognises it as an authentication error.
   */
  datatype Thrown = Thrown(
    name: string,
    message: string,
    code: Option<string>,
    statusCode: Option<int>,
    hasErrors: bool,
    isAuthError: bool)

  /** The response the router sends for a thrown value; its `data` is always null. */
  datatype HandledError = HandledError(status: int, message: string, error: Thrown)

  /** `getNewResponseError(message, status_code)`. */
  function GetNewResponseError(message: string, statusCode: int): (e: Thrown)
    ensures IsResponseError(e) && !IsPostgrestError(e) && !IsValidationError(e)
    ensures e.message == message && e.statusCode == Some(statusCode)
  {
    Thrown("Response Error", message, None, Some(statusCode), false, false)
  }

  /** An error reported by the datastore, carrying a SQLSTATE code. */
  function PostgrestError(code: string, message: string): Thrown
  {
    Thrown("PostgrestError", message, Some(code), None, false, false)
  }

  /** A runtime TypeError raised by the JavaScript engine (no code, no status). */
  function JsTypeError(message: string): Thrown
  {
    Thrown("TypeError", message, None, None, false, false)
  }

  predicate IsPostgrestError(e: Thrown) { e.code.Some? }

  predicate IsResponseError(e: Thrown) { e.statusCode.Some? }

  predicate IsValidationError(e: Thrown) { e.hasErrors }

  /**
   * The SQLSTATE code table. Keys ending in `*` were written as class wildcards,
   * but they are ordinary keys of the object literal.
   */
  const PostgresErrorToHttpStatus: map<string, int> := map[
    "08*" := 503,
    "09*" := 500,
    "0L*" := 403,
    "0P*" := 403,
    "23503" := 409,
    "23505" := 409,
    "25006" := 405,
    "25*" := 500,
    "28*" := 403,
    "2D*" := 500,
    "38*" := 500,
    "39*" := 500,
    "3B*" := 500,
    "40*" := 500,
    "53*" := 503,
    "54*" := 413,
    "55*" := 500,
    "57*" := 500,
    "58*" := 500,
    "F0*" := 500,
    "HV*" := 500,
    "P0001" := 400,
    "P0*" := 500,
    "XX*" := 500,
    "42883" := 404,
    "42P01" := 404,
    "42703" := 404,
    "428C9" := 404
  ]

  /** The HTTP status codes the table can produce. */
  const MappedStatuses: set<int> := {400, 403, 404, 405, 409, 413, 500, 503}

  lemma TableStatusesAreMapped()
    ensures forall k | k in PostgresErrorToHttpStatus :: PostgresErrorToHttpStatus[k] in MappedStatuses
  {
  }

  /** `postgresErrorToHttpStatus[code] || 500`: an exact-key lookup with 500 for a miss. */
  function StatusForCode(code: string): (status: int)
    ensures status in MappedStatuses
    ensures code in PostgresErrorToHttpStatus ==> status == PostgresErrorToHttpStatus[code]
    ensures code !in PostgresErrorToHttpStatus ==> status == 500
  {
    TableStatusesAreMapped();
    if code in PostgresErrorToHttpStatus && PostgresErrorToHttpStatus[code] != 0
    then PostgresErrorToHttpStatus[code]
    else 500
  }

  /**
   * `routerErrorHandler`: the first matching guard wins, in the order
   * code, status_code, errors, authentication error, anything else.
   */
  function RouterErrorHandler(e: Thrown): (r: HandledError)
    ensures r.error == e
    ensures r.status in MappedStatuses + {401} || (!IsPostgrestError(e) && IsResponseError(e))
    ensures !IsPostgrestError(e) && IsResponseError(e) ==> r.status == e.statusCode.value
  {
    if IsPostgrestError(e) then
      HandledError(StatusForCode(e.code.value), e.message, e)
    else if IsResponseError(e) then
      HandledError(e.statusCode.value, e.message, e)
    else if IsValidationError(e) then
      HandledError(400, "Invalid Request", e)
    else if e.isAuthError then
      HandledError(401, "Unauthorized", e)
    else
      HandledError(500, "Server Error", e)
  }

  /** The documented mappings of individual SQLSTATE codes. */
  lemma KnownCodes()
    ensures StatusForCode("23503") == 409 && StatusForCode("23505") == 409
    ensures StatusForCode("42883") == 404 && StatusForCode("42P01") == 404
    ensures StatusForCode("42703") == 404 && StatusForCode("428C9") == 404
    ensures StatusForCode("P0001") == 400 && StatusForCode("25006") == 405
  {
  }

  /** An error carrying a `code` is classified by its code, whatever else it carries. */
  lemma CodeTakesPrecedence(e: Thrown)
    requires IsPostgrestError(e)
    ensures RouterErrorHandler(e) == HandledError(StatusForCode(e.code.value), e.message, e)
  {
  }

  /** A response error built by the factory reaches the client with its own status and message. */
  lemma ResponseErrorRoundTrip(message: string, statusCode: int)
    ensures RouterErrorHandler(GetNewResponseError(message, statusCode))
      == HandledError(statusCode, message, GetNewResponseError(message, statusCode))
  {
  }

  /** The three fixed classifications below `code` and `status_code`. */
  lemma FixedClassifications(e: Thrown)
    requires !IsPostgrestError(e) && !IsResponseError(e)
    ensures IsValidationError(e) ==> RouterErrorHandler(e).status == 400 && RouterErrorHandler(e).message == "Invalid Request"
    ensures !IsValidationError(e) && e.isAuthError ==> RouterErrorHandler(e).status == 401 && RouterErrorHandler(e).message == "Unauthorized"
    ensures !IsValidationError(e) && !e.isAuthError ==> RouterErrorHandler(e).status == 500 && RouterErrorHandler(e).message == "Server Error"
  {
  }

  // ----- Finding: wildcard keys are looked up by exact match -----

  /** The key a `*` entry uses for the class of a five-character SQLSTATE code. */
  function ClassKey(code: string): string
    requires |code| >= 2
  {
    code[..2] + "*"
  }

  /**
   * The evidently intended lookup: an exact key first, then the code's class
   * wildcard, then 500.
   */
  function StatusForCodeByClass(code: string): (status: int)
    ensures status in MappedStatuses
    ensures code in PostgresErrorToHttpStatus ==> status == PostgresErrorToHttpStatus[code]
    ensures code !in PostgresErrorToHttpStatus && |code| >= 2 && ClassKey(code) in PostgresErrorToHttpStatus
            ==> status == PostgresErrorToHttpStatus[ClassKey(code)]
  {
    TableStatusesAreMapped();
    if code in PostgresErrorToHttpStatus then PostgresErrorToHttpStatus[code]
    else if |code| >= 2 && ClassKey(code) in PostgresErrorToHttpStatus then PostgresErrorToHttpStatus[ClassKey(code)]
    else 500
  }

  /** A connection failure (SQLSTATE 08006) is reported as 500 instead of the class's 503. */
  lemma WildcardMissedByExactLookup()
    ensures StatusForCode("08006") == 500
    ensures StatusForCodeByClass("08006") == 503
  {
    assert "08006" !in PostgresErrorToHttpStatus;
    assert ClassKey("08006") == "08*";
  }

  /** No five-character SQLSTATE code is ever served by a wildcard entry as written. */
  lemma {:induction false} FiveCharCodesNeverHitWildcards(code: string)
    requires |code| == 5 && code in PostgresErrorToHttpStatus
    ensures code[|code| - 1] != '*'
  {
  }

  /** With the intended lookup, every connection-class code maps to 503. */
  lemma {:induction false} ConnectionClassIs503(code: string)
    requires |code| == 5 && code[0] == '0' && code[1] == '8'
    ensures StatusForCodeByClass(code) == 503
    ensures StatusForCode(code) == 500
  {
    assert code[..2] == "08";
    assert code !in PostgresErrorToHttpStatus;
    assert ClassKey(code) == "08*";
    assert PostgresErrorToHttpStatus["08*"] == 503;
  }
}
