/**
 * How a thrown exception reaches one of the handlers. Spring compares the exception's class
 * with the types the `@ExceptionHandler` annotations name and takes the nearest one among the
 * class and its ancestors; the handler for `Exception` matches every exception, so some
 * handler is always found.
 */
module HandlerResolution {
  import opened JavaLang
  import opened ExceptionHandler
  import RH = ResponseHandler

  /** The exception types that have a handler, and any other class (`Unhandled`). */
  datatype ExceptionType =
    | BaseException
    | MethodArgumentNotValidException
    | MissingServletRequestParameterException
    | MissingPathVariableException
    | MissingRequestHeaderException
    | MethodArgumentTypeMismatchException
    | HttpMessageNotReadableException
    | ConversionFailedException
    | HttpRequestMethodNotSupportedException
    | HttpMediaTypeNotSupportedException
    | IllegalArgumentException
    | IllegalStateException
    | NullPointerException
    | Exception
    | Unhandled(name: string)

  predicate HasHandler(t: ExceptionType) {
    !t.Unhandled?
  }

  /**
   * A thrown exception: its class followed by the class's ancestors, nearest first, and what the
   * handlers read from it (the status code only on a `BaseException`, the field errors only on a
   * `MethodArgumentNotValidException`).
   */
  datatype Thrown = Thrown(
    ancestry: seq<ExceptionType>,
    message: JavaString,
    statusCode: Int32,
    fieldErrors: seq<FieldError>)

  /** Every exception is an `Exception`. */
  predicate IsException(x: Thrown) {
    Exception in x.ancestry
  }

  /** The position, in the ancestry, of the nearest type that has a handler. */
  function Nearest(ancestry: seq<ExceptionType>): (i: nat)
    requires exists k :: 0 <= k < |ancestry| && HasHandler(ancestry[k])
    ensures i < |ancestry| && HasHandler(ancestry[i])
    ensures forall j :: 0 <= j < i ==> !HasHandler(ancestry[j])
  {
    if HasHandler(ancestry[0]) then 0
    else
      assert forall k :: 1 <= k < |ancestry| ==> ancestry[k] == ancestry[1..][k - 1];
      1 + Nearest(ancestry[1..])
  }

  /** The failure kind of the handler declared for type `t`. */
  function KindFor(t: ExceptionType, x: Thrown): FailureKind
    requires HasHandler(t)
  {
    match t
    case BaseException => Base(x.statusCode, x.message)
    case MethodArgumentNotValidException => Validation(x.fieldErrors)
    case MissingServletRequestParameterException => MissingParam(x.message)
    case MissingPathVariableException => MissingPathVar(x.message)
    case MissingRequestHeaderException => MissingHeader(x.message)
    case MethodArgumentTypeMismatchException => TypeMismatch(x.message)
    case HttpMessageNotReadableException => Unreadable(x.message)
    case ConversionFailedException => ConversionFailed(x.message)
    case HttpRequestMethodNotSupportedException => MethodNotAllowed(x.message)
    case HttpMediaTypeNotSupportedException => UnsupportedMedia(x.message)
    case IllegalArgumentException => IllegalArgument(x.message)
    case IllegalStateException => IllegalState(x.message)
    case NullPointerException => NullPointer(x.message)
    case Exception => Other(x.message)
  }

  /** The failure kind of the handler Spring selects: the one for the nearest handled ancestor. */
  function Classify(x: Thrown): (f: FailureKind)
    requires IsException(x)
    ensures exists i :: 0 <= i < |x.ancestry| && HasHandler(x.ancestry[i]) && f == KindFor(x.ancestry[i], x)
                        && forall j :: 0 <= j < i ==> !HasHandler(x.ancestry[j])
  {
    assert exists k :: 0 <= k < |x.ancestry| && x.ancestry[k] == Exception;
    KindFor(x.ancestry[Nearest(x.ancestry)], x)
  }

  /** An exception whose own class has a handler goes to that handler, whatever its ancestors have. */
  lemma OwnHandlerWins(x: Thrown)
    requires IsException(x) && HasHandler(x.ancestry[0])
    ensures Classify(x) == KindFor(x.ancestry[0], x)
  {
  }

  /**
   * The nearest handled ancestor decides: when the types before position `i` have no handler and
   * the type at `i` has one, that type's handler is selected.
   */
  lemma NearestHandledAncestorWins(x: Thrown, i: nat)
    requires IsException(x) && i < |x.ancestry| && HasHandler(x.ancestry[i])
    requires forall j :: 0 <= j < i ==> !HasHandler(x.ancestry[j])
    ensures Classify(x) == KindFor(x.ancestry[i], x)
  {
    assert exists k :: 0 <= k < |x.ancestry| && x.ancestry[k] == Exception;
    assert Nearest(x.ancestry) == i;
  }

  /**
   * A `BaseException` is a `RuntimeException`, but it is answered by its own handler, with its
   * code and status 400, and not by the catch-all.
   */
  lemma BaseExceptionIsNotGeneric(message: JavaString, statusCode: Int32, ctx: RH.Context)
    ensures var x := Thrown([BaseException, Unhandled("RuntimeException"), Exception], message, statusCode, []);
      && IsException(x)
      && Classify(x) == Base(statusCode, message)
      && Handle(Classify(x), ctx).status == BAD_REQUEST
      && Handle(Classify(x), ctx).body.code == statusCode
  {
  }

  /** An exception with no handled type before `Exception` is answered by the catch-all. */
  lemma UnclassifiedGoesToCatchAll(x: Thrown, ctx: RH.Context)
    requires IsException(x)
    requires forall j :: 0 <= j < |x.ancestry| && x.ancestry[j] != Exception ==> !HasHandler(x.ancestry[j])
    ensures Classify(x) == Other(x.message)
    ensures Handle(Classify(x), ctx).status == INTERNAL_SERVER_ERROR
    ensures Handle(Classify(x), ctx).body.code == APIResponseCode.INTERNAL_ERROR.code
  {
    assert exists k :: 0 <= k < |x.ancestry| && x.ancestry[k] == Exception;
  }
}
