/**
 * The response handler: each operation forwards to an envelope factory and stamps the
 * correlation id bound in the calling thread's MDC. The MDC is passed in as a value, so none
 * of these operations can change it; they only read it.
 */
module ResponseHandler {
  import opened Wrappers
  import opened JavaLang
  import opened ApplicationConstants
  import opened ResponseCodes
  import opened ApiResponses
  import APIResponseCode

  /** The calling thread's MDC: diagnostic key-value pairs. */
  type Context = map<string, string>

  /**
   * The current request id: the MDC's correlation-id binding, or the empty string when none is
   * bound, so that an envelope's request id is never null. The repository's `CommonUtils` defines
   * no `getCurrentRequestId`, though `ResponseHandler` calls it; this lookup is the model's
   * definition of that missing method.
   */
  function CurrentRequestId(ctx: Context): string {
    if CORRELATION_ID in ctx then ctx[CORRELATION_ID] else EMPTY_STRING
  }

  /** `ok(data)`: a success with that data and code 200. */
  function Ok<T>(data: Option<T>, ctx: Context): (r: ApiResponse<T>)
    ensures r.success && r.data == data && r.code == 200
    ensures r.errorMessage == None && r.requestId == CurrentRequestId(ctx)
  {
    Success(data, APIResponseCode.SUCCESS, CurrentRequestId(ctx))
  }

  /** `ok()`: a success without data and code 200. */
  function OkNoData<T>(ctx: Context): (r: ApiResponse<T>)
    ensures r.success && r.data == None && r.code == 200
    ensures r.errorMessage == None && r.requestId == CurrentRequestId(ctx)
  {
    SuccessNoData(APIResponseCode.SUCCESS, CurrentRequestId(ctx))
  }

  /** `ok(data, responseCode)`. */
  function OkWithCode<T>(data: Option<T>, responseCode: ResponseCode, ctx: Context): (r: ApiResponse<T>)
    ensures r.success && r.data == data && r.code == responseCode.code
    ensures r.errorMessage == None && r.requestId == CurrentRequestId(ctx)
  {
    Success(data, responseCode, CurrentRequestId(ctx))
  }

  /** `ok(responseCode)`: the data type is `Void`, so there is never any data. */
  function OkCode(responseCode: ResponseCode, ctx: Context): (r: ApiResponse<()>)
    ensures r.success && r.data == None && r.code == responseCode.code
    ensures r.errorMessage == None && r.requestId == CurrentRequestId(ctx)
  {
    SuccessNoData(responseCode, CurrentRequestId(ctx))
  }

  /** `failure(responseCode)`: the message is the empty string. */
  function FailureWith(responseCode: ResponseCode, ctx: Context): (r: ApiResponse<()>)
    ensures !r.success && r.data == None && r.code == responseCode.code
    ensures r.errorMessage == Some("") && r.requestId == CurrentRequestId(ctx)
  {
    FailureNoMessage(responseCode, CurrentRequestId(ctx))
  }

  /** `failure(code, message)`: code and message pass through unchanged. */
  function FailureCode(code: Int32, message: JavaString, ctx: Context): (r: ApiResponse<()>)
    ensures !r.success && r.data == None && r.code == code
    ensures r.errorMessage == message && r.requestId == CurrentRequestId(ctx)
  {
    FailureByCode(code, message, CurrentRequestId(ctx))
  }

  /** `failure(responseCode, message, requestId)`: the caller's id is used and the MDC is not read. */
  function FailureWithId(responseCode: ResponseCode, message: JavaString, requestId: string): (r: ApiResponse<()>)
    ensures !r.success && r.data == None && r.code == responseCode.code
    ensures r.errorMessage == message && r.requestId == requestId
  {
    Failure(responseCode, message, requestId)
  }

  /** `ok()` is `ok(null)`, and `ok(data)` is `ok(data, SUCCESS)`. */
  lemma OkOverloadsAgree<T>(data: Option<T>, ctx: Context)
    ensures OkNoData<T>(ctx) == Ok(None, ctx)
    ensures Ok(data, ctx) == OkWithCode(data, APIResponseCode.SUCCESS, ctx)
  {
  }

  /** Every envelope the handler builds is well formed. */
  lemma HandlerEnvelopesWellFormed<T>(data: Option<T>, rc: ResponseCode, code: Int32, message: JavaString,
                                      id: string, ctx: Context)
    ensures WellFormed(Ok(data, ctx)) && WellFormed(OkNoData<T>(ctx)) && WellFormed(OkWithCode(data, rc, ctx))
    ensures WellFormed(OkCode(rc, ctx)) && WellFormed(FailureWith(rc, ctx))
    ensures WellFormed(FailureCode(code, message, ctx)) && WellFormed(FailureWithId(rc, message, id))
  {
  }

  /**
   * The only part of the MDC the handler reads is the correlation-id binding: two contexts that
   * agree on it give the same envelopes.
   */
  lemma OnlyCorrelationIdIsRead<T>(data: Option<T>, rc: ResponseCode, code: Int32, message: JavaString,
                                   ctx1: Context, ctx2: Context)
    requires CORRELATION_ID in ctx1 <==> CORRELATION_ID in ctx2
    requires CORRELATION_ID in ctx1 ==> ctx1[CORRELATION_ID] == ctx2[CORRELATION_ID]
    ensures Ok(data, ctx1) == Ok(data, ctx2) && OkNoData<T>(ctx1) == OkNoData<T>(ctx2)
    ensures OkWithCode(data, rc, ctx1) == OkWithCode(data, rc, ctx2) && OkCode(rc, ctx1) == OkCode(rc, ctx2)
    ensures FailureWith(rc, ctx1) == FailureWith(rc, ctx2)
    ensures FailureCode(code, message, ctx1) == FailureCode(code, message, ctx2)
  {
  }
}
