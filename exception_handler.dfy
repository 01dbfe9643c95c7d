/**
 * The global exception handler: fourteen rules, each turning one kind of failure into an HTTP
 * status and a failure envelope built through the response handler, so that the envelope
 * carries the correlation id of the request being handled.
 */
module ExceptionHandler {
  import opened Wrappers
  import opened JavaLang
  import opened ApiResponses
  import opened Joining
  import RH = ResponseHandler
  import APIResponseCode

  /** A rejected field of a request body: its name and its (possibly null) default message. */
  datatype FieldError = FieldError(field: string, defaultMessage: JavaString)

  /**
   * A failure, classified by the handler that receives it. `message` is the exception's
   * `getMessage()`, which may be null; a `BaseException` carries its own status code.
   */
  datatype FailureKind =
    | Base(statusCode: Int32, message: JavaString)
    | Validation(fieldErrors: seq<FieldError>)
    | MissingParam(message: JavaString)
    | MissingPathVar(message: JavaString)
    | MissingHeader(message: JavaString)
    | TypeMismatch(message: JavaString)
    | Unreadable(message: JavaString)
    | ConversionFailed(message: JavaString)
    | MethodNotAllowed(message: JavaString)
    | UnsupportedMedia(message: JavaString)
    | IllegalArgument(message: JavaString)
    | IllegalState(message: JavaString)
    | NullPointer(message: JavaString)
    | Other(message: JavaString)

  /** The statuses named by the handlers' `@ResponseStatus` annotations. */
  datatype HttpStatus = BAD_REQUEST | METHOD_NOT_ALLOWED | UNSUPPORTED_MEDIA_TYPE | INTERNAL_SERVER_ERROR {
    function Value(): int {
      match this
      case BAD_REQUEST => 400
      case METHOD_NOT_ALLOWED => 405
      case UNSUPPORTED_MEDIA_TYPE => 415
      case INTERNAL_SERVER_ERROR => 500
    }
  }

  /** What a handler produces: the response status and the envelope written as the body. */
  datatype Handled = Handled(status: HttpStatus, body: ApiResponse<()>)

  const UNREADABLE_MESSAGE: string := "Invalid request payload or format"
  const NULL_POINTER_MESSAGE: string := "Unexpected null value encountered"
  const GENERIC_MESSAGE: string := "Sorry something went wrong on server side, please try again after sometime."

  /** One field error as `field + ": " + defaultMessage`, where Java prints a null message as `null`. */
  function Render(e: FieldError): string {
    e.field + ": " + StringValueOf(e.defaultMessage)
  }

  /** The field errors, each rendered, in the same order. */
  function RenderAll(errors: seq<FieldError>): seq<string> {
    seq(|errors|, i requires 0 <= i < |errors| => Render(errors[i]))
  }

  /** The validation message: the rendered field errors, in order, joined by `", "`. */
  function ValidationMessage(errors: seq<FieldError>): string {
    Join(RenderAll(errors), ", ")
  }

  /**
   * The fourteen `handle*` methods, each selected by its failure kind. Every failure is answered,
   * and always with a well-formed failure envelope: not a success, no data, the kind's code, and
   * the correlation id bound in the MDC.
   */
  function Handle(f: FailureKind, ctx: RH.Context): (h: Handled)
    ensures !h.body.success && h.body.data == None && WellFormed(h.body)
    ensures h.body.code == CodeOf(f)
    ensures h.body.requestId == RH.CurrentRequestId(ctx)
  {
    match f
    case Base(statusCode, message) =>
      Handled(BAD_REQUEST, RH.FailureCode(statusCode, message, ctx))
    case Validation(errors) =>
      Handled(BAD_REQUEST, RH.FailureCode(APIResponseCode.VALIDATION_ERROR.code, Some(ValidationMessage(errors)), ctx))
    case MissingParam(message) =>
      Handled(BAD_REQUEST, RH.FailureCode(APIResponseCode.MISSING_REQUEST_PARAM.code, message, ctx))
    case MissingPathVar(message) =>
      Handled(BAD_REQUEST, RH.FailureCode(APIResponseCode.MISSING_PATH_VARIABLE.code, message, ctx))
    case MissingHeader(message) =>
      Handled(BAD_REQUEST, RH.FailureCode(APIResponseCode.MISSING_REQUEST_HEADER.code, message, ctx))
    case TypeMismatch(message) =>
      Handled(BAD_REQUEST, RH.FailureCode(APIResponseCode.ARGUMENT_TYPE_MISMATCH.code, message, ctx))
    case Unreadable(_) =>
      Handled(BAD_REQUEST, RH.FailureCode(APIResponseCode.HTTP_MESSAGE_NOT_READABLE.code, Some(UNREADABLE_MESSAGE), ctx))
    case ConversionFailed(message) =>
      Handled(BAD_REQUEST, RH.FailureCode(APIResponseCode.CONVERSION_FAILED.code, message, ctx))
    case MethodNotAllowed(_) =>
      Handled(METHOD_NOT_ALLOWED, RH.FailureWith(APIResponseCode.METHOD_NOT_ALLOWED, ctx))
    case UnsupportedMedia(_) =>
      Handled(UNSUPPORTED_MEDIA_TYPE, RH.FailureWith(APIResponseCode.UNSUPPORTED_MEDIA_TYPE, ctx))
    case IllegalArgument(message) =>
      Handled(INTERNAL_SERVER_ERROR, RH.FailureCode(APIResponseCode.ILLEGAL_ARGUMENT.code, message, ctx))
    case IllegalState(message) =>
      Handled(INTERNAL_SERVER_ERROR, RH.FailureCode(APIResponseCode.ILLEGAL_STATE.code, message, ctx))
    case NullPointer(_) =>
      Handled(INTERNAL_SERVER_ERROR, RH.FailureCode(APIResponseCode.NULL_POINTER.code, Some(NULL_POINTER_MESSAGE), ctx))
    case Other(_) =>
      Handled(INTERNAL_SERVER_ERROR, RH.FailureCode(APIResponseCode.INTERNAL_ERROR.code, Some(GENERIC_MESSAGE), ctx))
  }

  /** The failures caused by the client's input, as opposed to faults on the server side. */
  predicate IsClientInputError(f: FailureKind) {
    f.Base? || f.Validation? || f.MissingParam? || f.MissingPathVar? || f.MissingHeader?
    || f.TypeMismatch? || f.Unreadable? || f.ConversionFailed?
    || f.MethodNotAllowed? || f.UnsupportedMedia?
  }

  /** The failures whose exception message reaches the client unchanged. */
  predicate EchoesMessage(f: FailureKind) {
    f.Base? || f.MissingParam? || f.MissingPathVar? || f.MissingHeader? || f.TypeMismatch?
    || f.ConversionFailed? || f.IllegalArgument? || f.IllegalState?
  }

  /** The code each kind is answered with (for a `BaseException`, its own status code). */
  function CodeOf(f: FailureKind): Int32 {
    match f
    case Base(statusCode, _) => statusCode
    case Validation(_) => APIResponseCode.VALIDATION_ERROR.code
    case MissingParam(_) => APIResponseCode.MISSING_REQUEST_PARAM.code
    case MissingPathVar(_) => APIResponseCode.MISSING_PATH_VARIABLE.code
    case MissingHeader(_) => APIResponseCode.MISSING_REQUEST_HEADER.code
    case TypeMismatch(_) => APIResponseCode.ARGUMENT_TYPE_MISMATCH.code
    case Unreadable(_) => APIResponseCode.HTTP_MESSAGE_NOT_READABLE.code
    case ConversionFailed(_) => APIResponseCode.CONVERSION_FAILED.code
    case MethodNotAllowed(_) => APIResponseCode.METHOD_NOT_ALLOWED.code
    case UnsupportedMedia(_) => APIResponseCode.UNSUPPORTED_MEDIA_TYPE.code
    case IllegalArgument(_) => APIResponseCode.ILLEGAL_ARGUMENT.code
    case IllegalState(_) => APIResponseCode.ILLEGAL_STATE.code
    case NullPointer(_) => APIResponseCode.NULL_POINTER.code
    case Other(_) => APIResponseCode.INTERNAL_ERROR.code
  }

  /**
   * The status mapping: 400 for the malformed-request kinds, 405 and 415 for an unsupported
   * method or media type, and 500 for the rest; so the status is below 500 exactly for the
   * client's errors.
   */
  lemma StatusMapping(f: FailureKind, ctx: RH.Context)
    ensures Handle(f, ctx).status.Value() == 405 <==> f.MethodNotAllowed?
    ensures Handle(f, ctx).status.Value() == 415 <==> f.UnsupportedMedia?
    ensures Handle(f, ctx).status.Value() == 400 <==> IsClientInputError(f) && !f.MethodNotAllowed? && !f.UnsupportedMedia?
    ensures Handle(f, ctx).status.Value() == 500 <==> !IsClientInputError(f)
  {
  }

  /** A `BaseException` is answered with its own code and message and status 400. */
  lemma BaseExceptionAnswer(statusCode: Int32, message: JavaString, ctx: RH.Context)
    ensures Handle(Base(statusCode, message), ctx) ==
            Handled(BAD_REQUEST, FailureByCode(statusCode, message, RH.CurrentRequestId(ctx)))
  {
  }

  /** The kinds that echo their message pass `getMessage()` through unchanged, null included. */
  lemma MessagePassedThrough(f: FailureKind, ctx: RH.Context)
    requires EchoesMessage(f)
    ensures Handle(f, ctx).body.errorMessage == f.message
  {
  }

  /**
   * A malformed body, a null dereference and an unclassified failure get fixed texts: what the
   * exception says never reaches the client.
   */
  lemma FixedMessages(m1: JavaString, m2: JavaString, ctx: RH.Context)
    ensures Handle(Unreadable(m1), ctx).body.errorMessage == Some("Invalid request payload or format")
    ensures Handle(NullPointer(m1), ctx).body.errorMessage == Some("Unexpected null value encountered")
    ensures Handle(Other(m1), ctx).body.errorMessage ==
            Some("Sorry something went wrong on server side, please try again after sometime.")
    ensures Handle(Unreadable(m1), ctx) == Handle(Unreadable(m2), ctx)
    ensures Handle(NullPointer(m1), ctx) == Handle(NullPointer(m2), ctx)
    ensures Handle(Other(m1), ctx) == Handle(Other(m2), ctx)
  {
  }

  /** An unsupported method or media type is answered through `failure(ResponseCode)`: an empty message. */
  lemma EmptyMessageKinds(m: JavaString, ctx: RH.Context)
    ensures Handle(MethodNotAllowed(m), ctx).body ==
            FailureNoMessage(APIResponseCode.METHOD_NOT_ALLOWED, RH.CurrentRequestId(ctx))
    ensures Handle(UnsupportedMedia(m), ctx).body ==
            FailureNoMessage(APIResponseCode.UNSUPPORTED_MEDIA_TYPE, RH.CurrentRequestId(ctx))
    ensures Handle(MethodNotAllowed(m), ctx).body.errorMessage == Some("")
  {
  }

  /**
   * A validation failure is answered with VALIDATION_ERROR and a message that lists each field
   * error, rendered `field: message`, in order, separated by `", "`.
   */
  lemma {:induction false} ValidationAnswer(errors: seq<FieldError>, i: nat, ctx: RH.Context)
    requires i < |errors|
    ensures var h := Handle(Validation(errors), ctx);
      && h.body.code == APIResponseCode.VALIDATION_ERROR.code
      && h.body.errorMessage.Some?
      && var msg := h.body.errorMessage.value;
         var at := Offset(RenderAll(errors), ", ", i);
         && at + |Render(errors[i])| <= |msg|
         && msg[at..at + |Render(errors[i])|] == Render(errors[i])
         && (i + 1 < |errors| ==>
               at + |Render(errors[i])| + 2 <= |msg| &&
               msg[at + |Render(errors[i])|..at + |Render(errors[i])| + 2] == ", ")
         // and nothing follows the last field error
         && |msg| == Offset(RenderAll(errors), ", ", |errors| - 1) + |Render(errors[|errors| - 1])|
  {
    var parts := RenderAll(errors);
    assert |parts| == |errors| && parts[i] == Render(errors[i]);
    assert parts[|errors| - 1] == Render(errors[|errors| - 1]);
    assert Handle(Validation(errors), ctx).body.errorMessage == Some(Join(parts, ", "));
    PartAt(parts, ", ", i);
    JoinLength(parts, ", ");
    if i + 1 < |errors| {
      SeparatorAfter(parts, ", ", i);
    }
  }

  /** Adding one more field error appends `", "` and its rendering to the message. */
  lemma {:induction false} ValidationMessageSnoc(errors: seq<FieldError>, e: FieldError)
    requires |errors| > 0
    ensures ValidationMessage(errors + [e]) == ValidationMessage(errors) + ", " + Render(e)
  {
    assert RenderAll(errors + [e]) == RenderAll(errors) + [Render(e)];
    JoinSnoc(RenderAll(errors), Render(e), ", ");
  }

  /** The examples: no field errors give an empty message; one gives its rendering alone. */
  lemma ValidationExamples(ctx: RH.Context)
    ensures Handle(Validation([]), ctx).body.errorMessage == Some("")
    ensures Handle(Validation([FieldError("email", Some("required"))]), ctx).body.errorMessage
            == Some("email: required")
    ensures Handle(Validation([FieldError("email", None)]), ctx).body.errorMessage == Some("email: null")
  {
    assert Render(FieldError("email", Some("required"))) == "email: required";
    assert Render(FieldError("email", None)) == "email: null";
    assert RenderAll([FieldError("email", Some("required"))]) == ["email: required"];
    assert RenderAll([FieldError("email", None)]) == ["email: null"];
  }
}
