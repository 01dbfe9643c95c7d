/**
 * The response envelope. In `ApiResponse` the constructor is private and every field
 * has a getter and no setter, so an envelope is a value fixed when a factory builds it; here it
 * is a datatype, and the factories are the functions below.
 */
module ApiResponses {
  import opened Wrappers
  import opened JavaLang
  import opened ApplicationConstants
  import opened ResponseCodes

  /** `data` and `errorMessage` are `None` where the Java field holds `null`. */
  datatype ApiResponse<R> = ApiResponse(
    success: bool,
    data: Option<R>,
    code: Int32,
    errorMessage: JavaString,
    requestId: string)

  /** A success envelope carries no error message and a failure envelope carries no data. */
  predicate WellFormed<R>(r: ApiResponse<R>) {
    (r.success ==> r.errorMessage.None?) && (!r.success ==> r.data.None?)
  }

  /** `success(data, responseCode, requestId)`. */
  function Success<R>(data: Option<R>, responseCode: ResponseCode, requestId: string): (r: ApiResponse<R>)
    ensures r.success && r.data == data && r.code == responseCode.code
    ensures r.errorMessage == None && r.requestId == requestId
    ensures WellFormed(r)
  {
    ApiResponse(true, data, responseCode.code, None, requestId)
  }

  /** `success(responseCode, requestId)`: a success without data. */
  function SuccessNoData<R>(responseCode: ResponseCode, requestId: string): (r: ApiResponse<R>)
    ensures r.success && r.data == None && r.code == responseCode.code
    ensures r.errorMessage == None && r.requestId == requestId
    ensures WellFormed(r)
  {
    Success(None, responseCode, requestId)
  }

  /** `failure(responseCode, message, requestId)`. */
  function Failure<R>(responseCode: ResponseCode, message: JavaString, requestId: string): (r: ApiResponse<R>)
    ensures !r.success && r.data == None && r.code == responseCode.code
    ensures r.errorMessage == message && r.requestId == requestId
    ensures WellFormed(r)
  {
    ApiResponse(false, None, responseCode.code, message, requestId)
  }

  /** `failure(responseCode, requestId)`: the message is the empty string, which is not `null`. */
  function FailureNoMessage<R>(responseCode: ResponseCode, requestId: string): (r: ApiResponse<R>)
    ensures !r.success && r.data == None && r.code == responseCode.code
    ensures r.errorMessage == Some("") && r.requestId == requestId
    ensures WellFormed(r)
  {
    Failure(responseCode, Some(EMPTY_STRING), requestId)
  }

  /** `failure(code, message, requestId)`: a failure with a raw numeric code. */
  function FailureByCode<R>(code: Int32, message: JavaString, requestId: string): (r: ApiResponse<R>)
    ensures !r.success && r.data == None && r.code == code
    ensures r.errorMessage == message && r.requestId == requestId
    ensures WellFormed(r)
  {
    ApiResponse(false, None, code, message, requestId)
  }

  /** `success(rc, id)` is `success(null, rc, id)`. */
  lemma SuccessNoDataIsSuccessOfNull<R>(responseCode: ResponseCode, requestId: string)
    ensures SuccessNoData<R>(responseCode, requestId) == Success(None, responseCode, requestId)
  {
  }

  /** `failure(rc, id)` differs from `failure(rc, null, id)`: its message is present and empty. */
  lemma FailureNoMessageIsNotNull<R>(responseCode: ResponseCode, requestId: string)
    ensures FailureNoMessage<R>(responseCode, requestId) == Failure(responseCode, Some(EMPTY_STRING), requestId)
    ensures FailureNoMessage<R>(responseCode, requestId) != Failure(responseCode, None, requestId)
  {
  }

  /**
   * The raw-code failure and the response-code failure build the same envelope exactly when
   * the raw code is the response code's number; the response code's message is never used.
   */
  lemma FailureByCodeAgrees<R>(code: Int32, responseCode: ResponseCode, message: JavaString, requestId: string)
    ensures FailureByCode<R>(code, message, requestId) == Failure(responseCode, message, requestId)
            <==> code == responseCode.code
  {
  }

  /**
   * The factories build exactly the well-formed envelopes: every well-formed envelope is the
   * result of `success(data, rc, id)` or of `failure(code, message, id)`, for the fields it holds.
   */
  lemma WellFormedIsFactoryMade<R>(r: ApiResponse<R>)
    requires WellFormed(r)
    ensures r.success ==> r == Success(r.data, ResponseCode(r.code, ""), r.requestId)
    ensures !r.success ==> r == FailureByCode(r.code, r.errorMessage, r.requestId)
  {
  }

  /** Reading a success envelope back gives the factory's arguments. */
  lemma SuccessFieldsDetermineArguments<R>(d1: Option<R>, d2: Option<R>, rc1: ResponseCode, rc2: ResponseCode,
                                           id1: string, id2: string)
    ensures Success(d1, rc1, id1) == Success(d2, rc2, id2) <==> d1 == d2 && rc1.code == rc2.code && id1 == id2
  {
  }

  /** Reading a failure envelope back gives the factory's code, message and id. */
  lemma FailureFieldsDetermineArguments<R>(c1: Int32, c2: Int32, m1: JavaString, m2: JavaString,
                                           id1: string, id2: string)
    ensures FailureByCode<R>(c1, m1, id1) == FailureByCode<R>(c2, m2, id2) <==> c1 == c2 && m1 == m2 && id1 == id2
  {
  }
}
