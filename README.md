# Correlation propagation and failure translation, modelled in Dafny

This project models the request-handling layer of `common_sdk`, a library shared by backend
services. The layer has two jobs. It gives every request a correlation id: the
`CorrelationFilter` takes it from the `x-correlation-id` request header, or makes a new one. The
filter binds the id in the thread's MDC (the logging context), sets it on the response and
unbinds it when the request is done. It also turns every failure raised while handling a request
into one failure envelope (`ApiResponse`): `BaseGlobalExceptionHandler` picks one of fourteen
handlers, which builds the envelope through `ResponseHandler`; that way the envelope carries the
current correlation id.

Modules, one per Java type or concern:

- `Wrappers`: `Option`; `None` stands for a Java `null`.
- `JavaLang`: Java's `int` range (`Int32`), nullable strings, and how `+` prints `null`.
- `ApplicationConstants`: `CORRELATION_ID = "x-correlation-id"` and `EMPTY_STRING = ""`.
- `ResponseCodes`, `APIResponseCode`, `NotificationResponseCode`: the code registry.
- `ApiResponses`: the envelope datatype and its five static factories.
- `ResponseHandler`: the four `ok` and three `failure` overloads. The MDC is an explicit
  `Context` parameter, so these functions only read it and cannot change it.
- `Joining`: `Collectors.joining`. The validation message is built with it.
- `ExceptionHandler`: the failure kinds, and the fourteen handlers as one total function `Handle`.
- `HandlerResolution`: how Spring chooses the handler for a thrown exception. It takes the nearest
  class among the exception's class and its ancestors that has a handler.
- `CorrelationFilter`: the MDC and the response as classes with map fields, and
  `doFilterInternal` as a method over them.

Decisions worth knowing:

- `APIResponseCode` in the repository defines only `SUCCESS(200)` and `INTERNAL_SERVER_ERROR(500)`.
  The handler uses thirteen more codes (`VALIDATION_ERROR`, `MISSING_REQUEST_PARAM`, ...,
  `INTERNAL_ERROR`). They are declared without a value, so every property proved here holds
  whatever numbers they get.
- `ResponseHandler` calls `CommonUtils.getCurrentRequestId()`, but the repository's `CommonUtils`
  (`src/main/java/com/common/sdk/common_sdk/utils/CommonUtils.java`) does not define it: it has
  only `generateCorrelationId()`. `ResponseHandler.CurrentRequestId` is the model's definition of
  the missing method. It gives the MDC's `x-correlation-id` binding, or `""` when none is bound,
  so an envelope's request id is never null.
- A header made only of blanks is kept: `ObjectUtils.isEmpty` tests only for null or length zero
  and does not trim (`CorrelationFilter.BlankHeaderKept`).
- The rest of the filter chain is a function value. It receives the MDC and the response headers
  as the filter leaves them, and returns an outcome (`Normal` or `Raised(failure)`) together with
  the MDC and headers it leaves behind. The UUID generator is a parameter `uuid`. The only thing
  assumed about it is that it is not empty.
- Java `null`s of `String` messages and of `data` are `None`. So `failure(rc)`, whose message is
  `""`, differs from a failure with a null message.

## Model

| member | source | states |
|---|---|---|
| `ApiResponses.Success` | src/main/java/com/common/sdk/common_sdk/models/dto/ApiResponse.java:34-41 | success is true, data is the given data, code is the response code's number, no error message, the given request id; the envelope is well formed |
| `ApiResponses.SuccessNoData` | src/main/java/com/common/sdk/common_sdk/models/dto/ApiResponse.java:49-51 | a success with no data, the code's number, no error message and the given id |
| `ApiResponses.Failure` | src/main/java/com/common/sdk/common_sdk/models/dto/ApiResponse.java:60-67 | success is false, no data, code is the response code's number, the message exactly as given (null included), the given id |
| `ApiResponses.FailureNoMessage` | src/main/java/com/common/sdk/common_sdk/models/dto/ApiResponse.java:75-77 | a failure whose message is present and empty, not absent |
| `ApiResponses.FailureByCode` | src/main/java/com/common/sdk/common_sdk/models/dto/ApiResponse.java:86-93 | a failure with the raw code and the message passed through |
| `ApiResponses.SuccessNoDataIsSuccessOfNull` | src/main/java/com/common/sdk/common_sdk/models/dto/ApiResponse.java:49-51 | `success(rc, id)` equals `success(null, rc, id)` |
| `ApiResponses.FailureNoMessageIsNotNull` | src/main/java/com/common/sdk/common_sdk/models/dto/ApiResponse.java:75-77 | `failure(rc, id)` equals `failure(rc, "", id)` and differs from `failure(rc, null, id)` |
| `ApiResponses.FailureByCodeAgrees` | src/main/java/com/common/sdk/common_sdk/models/dto/ApiResponse.java:60-93 | `failure(c, msg, id)` and `failure(rc, msg, id)` are the same envelope if and only if `c == rc.code` |
| `ApiResponses.WellFormedIsFactoryMade` | src/main/java/com/common/sdk/common_sdk/models/dto/ApiResponse.java:15-93 | every envelope where success excludes an error message and failure excludes data is what a factory returns for its fields |
| `ApiResponses.SuccessFieldsDetermineArguments` | src/main/java/com/common/sdk/common_sdk/models/dto/ApiResponse.java:34-41 | two success envelopes are equal exactly when data, code number and id are |
| `ApiResponses.FailureFieldsDetermineArguments` | src/main/java/com/common/sdk/common_sdk/models/dto/ApiResponse.java:86-93 | two failure envelopes built from a raw code are equal exactly when code, message and id are |
| `JavaLang.StringValueOf` | src/main/java/com/common/sdk/common_sdk/exception/BaseGlobalExceptionHandler.java:63 | defines how `+` prints a possibly-null string; that null prints as `null` is stated by `ExceptionHandler.ValidationExamples` |
| `ResponseHandler.CurrentRequestId` | src/main/java/com/common/sdk/common_sdk/services/ResponseHandler.java:26 | defines the current id as the MDC's correlation-id binding, or `""`; `ResponseHandler.OnlyCorrelationIdIsRead`, `CorrelationFilter.TranslationSeesBoundId` and `CorrelationFilter.DoFilterInternal` state what it gives inside and after the filter |
| `ResponseHandler.Ok` | src/main/java/com/common/sdk/common_sdk/services/ResponseHandler.java:25-27 | a success with the data, code 200, no error message and the current id |
| `ResponseHandler.OkNoData` | src/main/java/com/common/sdk/common_sdk/services/ResponseHandler.java:33-35 | a success with no data, code 200 and the current id |
| `ResponseHandler.OkWithCode` | src/main/java/com/common/sdk/common_sdk/services/ResponseHandler.java:43-45 | a success with the data, the given code's number and the current id |
| `ResponseHandler.OkCode` | src/main/java/com/common/sdk/common_sdk/services/ResponseHandler.java:52-54 | a success with no data, the given code's number and the current id |
| `ResponseHandler.FailureWith` | src/main/java/com/common/sdk/common_sdk/services/ResponseHandler.java:61-63 | a failure with the code's number, message `""` and the current id |
| `ResponseHandler.FailureCode` | src/main/java/com/common/sdk/common_sdk/services/ResponseHandler.java:71-73 | a failure with code and message passed through and the current id |
| `ResponseHandler.FailureWithId` | src/main/java/com/common/sdk/common_sdk/services/ResponseHandler.java:82-84 | a failure with the supplied id; the MDC is not an input |
| `ResponseHandler.OkOverloadsAgree` | src/main/java/com/common/sdk/common_sdk/services/ResponseHandler.java:25-35 | `ok()` is `ok(null)`, and `ok(data)` is `ok(data, SUCCESS)` |
| `ResponseHandler.HandlerEnvelopesWellFormed` | src/main/java/com/common/sdk/common_sdk/services/ResponseHandler.java:25-84 | no success the handler builds has an error message, and no failure has data |
| `ResponseHandler.OnlyCorrelationIdIsRead` | src/main/java/com/common/sdk/common_sdk/services/ResponseHandler.java:25-73 | two MDCs that agree on the correlation-id binding give the same envelopes |
| `Joining.Join` | src/main/java/com/common/sdk/common_sdk/exception/BaseGlobalExceptionHandler.java:64 | defines `Collectors.joining(sep)`; `Joining.JoinIsJoinerValue`, `Joining.PartAt`, `Joining.SeparatorAfter` and `Joining.JoinLength` state its properties |
| `Joining.JoinSnoc` | src/main/java/com/common/sdk/common_sdk/exception/BaseGlobalExceptionHandler.java:62-64 | joining one more part appends the separator and the part |
| `Joining.JoinIsJoinerValue` | src/main/java/com/common/sdk/common_sdk/exception/BaseGlobalExceptionHandler.java:62-64 | joining from the front equals the joiner's left-to-right appends |
| `Joining.OffsetOfTail` | src/main/java/com/common/sdk/common_sdk/exception/BaseGlobalExceptionHandler.java:62-64 | a part's position is the first part and one separator further than its position among the tail |
| `Joining.SliceOfConcat` | src/main/java/com/common/sdk/common_sdk/exception/BaseGlobalExceptionHandler.java:62-64 | a slice of a concatenation's right operand, read from the concatenation |
| `Joining.TailSlice` | src/main/java/com/common/sdk/common_sdk/exception/BaseGlobalExceptionHandler.java:62-64 | the joined string read past the first part and separator is the tail's joined string |
| `Joining.PartAt` | src/main/java/com/common/sdk/common_sdk/exception/BaseGlobalExceptionHandler.java:62-64 | every part appears in the joined string at its offset, in order |
| `Joining.SeparatorAfter` | src/main/java/com/common/sdk/common_sdk/exception/BaseGlobalExceptionHandler.java:62-64 | exactly the separator stands between a part and the next one |
| `Joining.JoinLength` | src/main/java/com/common/sdk/common_sdk/exception/BaseGlobalExceptionHandler.java:62-64 | the joined length is all parts plus one separator between neighbours |
| `ExceptionHandler.Render` | src/main/java/com/common/sdk/common_sdk/exception/BaseGlobalExceptionHandler.java:63 | defines one field error's rendering `field + ": " + defaultMessage`; `ExceptionHandler.ValidationExamples` shows it on a present and a null message |
| `ExceptionHandler.RenderAll` | src/main/java/com/common/sdk/common_sdk/exception/BaseGlobalExceptionHandler.java:62-63 | defines the stream's `map` step, the renderings in order; `ExceptionHandler.ValidationAnswer` states where each one lands in the message |
| `ExceptionHandler.ValidationMessage` | src/main/java/com/common/sdk/common_sdk/exception/BaseGlobalExceptionHandler.java:62-64 | defines the validation message as the renderings joined by `", "`; `ExceptionHandler.ValidationAnswer` and `ExceptionHandler.ValidationMessageSnoc` state its contents |
| `ExceptionHandler.CodeOf` | src/main/java/com/common/sdk/common_sdk/exception/BaseGlobalExceptionHandler.java:50-228 | defines the code each kind is answered with; `ExceptionHandler.Handle`'s contract ties every answer to it |
| `ExceptionHandler.Handle` | src/main/java/com/common/sdk/common_sdk/exception/BaseGlobalExceptionHandler.java:45-230 | every failure kind is answered (the catch-all makes it total) with a well-formed failure envelope: not a success, no data, the kind's code, the MDC's correlation id |
| `ExceptionHandler.StatusMapping` | src/main/java/com/common/sdk/common_sdk/exception/BaseGlobalExceptionHandler.java:45-225 | 405 exactly for method not allowed, 415 exactly for unsupported media, 400 exactly for the other client-input kinds, 500 exactly for illegal argument, illegal state, null pointer and the rest |
| `ExceptionHandler.BaseExceptionAnswer` | src/main/java/com/common/sdk/common_sdk/exception/BaseGlobalExceptionHandler.java:45-51 | a `BaseException` is answered with status 400 and its own code and message |
| `ExceptionHandler.MessagePassedThrough` | src/main/java/com/common/sdk/common_sdk/exception/BaseGlobalExceptionHandler.java:75-201 | missing param, path variable and header, type mismatch, conversion, illegal argument and illegal state pass `getMessage()` through unchanged, null included |
| `ExceptionHandler.FixedMessages` | src/main/java/com/common/sdk/common_sdk/exception/BaseGlobalExceptionHandler.java:128-230 | unreadable body, null pointer and unclassified failures get their fixed texts, and the answer does not depend on the exception's message |
| `ExceptionHandler.EmptyMessageKinds` | src/main/java/com/common/sdk/common_sdk/exception/BaseGlobalExceptionHandler.java:156-175 | method not allowed and unsupported media answer `failure(ResponseCode)`: their own code and an empty message |
| `ExceptionHandler.ValidationAnswer` | src/main/java/com/common/sdk/common_sdk/exception/BaseGlobalExceptionHandler.java:59-67 | code VALIDATION_ERROR, and the message holds each field error rendered `field: message` at its place, in order, with `", "` between neighbours and nothing after the last one |
| `ExceptionHandler.ValidationMessageSnoc` | src/main/java/com/common/sdk/common_sdk/exception/BaseGlobalExceptionHandler.java:62-64 | one more field error appends `", "` and its rendering to the message |
| `ExceptionHandler.ValidationExamples` | src/main/java/com/common/sdk/common_sdk/exception/BaseGlobalExceptionHandler.java:59-67 | no field errors give `""`, `("email", "required")` gives `"email: required"`, a null message prints as `null` |
| `HandlerResolution.Nearest` | src/main/java/com/common/sdk/common_sdk/exception/BaseGlobalExceptionHandler.java:45-230 | the position of an ancestor that has a handler, with no handled ancestor before it |
| `HandlerResolution.KindFor` | src/main/java/com/common/sdk/common_sdk/exception/BaseGlobalExceptionHandler.java:46-224 | defines which handler each `@ExceptionHandler` type is declared for; `HandlerResolution.Classify` and `HandlerResolution.NearestHandledAncestorWins` state the choice among them |
| `HandlerResolution.Classify` | src/main/java/com/common/sdk/common_sdk/exception/BaseGlobalExceptionHandler.java:45-230 | the selected handler is the one for a handled ancestor that no nearer handled ancestor precedes |
| `HandlerResolution.OwnHandlerWins` | src/main/java/com/common/sdk/common_sdk/exception/BaseGlobalExceptionHandler.java:45-215 | an exception whose own class has a handler is answered by that handler |
| `HandlerResolution.NearestHandledAncestorWins` | src/main/java/com/common/sdk/common_sdk/exception/BaseGlobalExceptionHandler.java:45-230 | any handled ancestor with no handled type before it decides the handler |
| `HandlerResolution.BaseExceptionIsNotGeneric` | src/main/java/com/common/sdk/common_sdk/exception/BaseException.java:12-25 | a `BaseException`, although a `RuntimeException`, gets its own handler: status 400 and its own code |
| `HandlerResolution.UnclassifiedGoesToCatchAll` | src/main/java/com/common/sdk/common_sdk/exception/BaseGlobalExceptionHandler.java:224-230 | an exception with no handled type except `Exception` gets the catch-all: status 500 and INTERNAL_ERROR |
| `CorrelationFilter.Mdc.Put` | src/main/java/com/common/sdk/common_sdk/filter/CorrelationFilter.java:46 | the key is bound to the value and all other bindings stay |
| `CorrelationFilter.Mdc.Remove` | src/main/java/com/common/sdk/common_sdk/filter/CorrelationFilter.java:51 | the key is unbound and all other bindings stay; a no-op for an unbound key |
| `CorrelationFilter.HttpResponse.SetHeader` | src/main/java/com/common/sdk/common_sdk/filter/CorrelationFilter.java:47 | the header gets the value, replacing any earlier one |
| `CorrelationFilter.HttpRequest.GetHeader` | src/main/java/com/common/sdk/common_sdk/filter/CorrelationFilter.java:41 | defines `getHeader`, absent for a header the request does not carry; `CorrelationFilter.DoFilterInternal` states how its result is used |
| `CorrelationFilter.IsEmpty` | src/main/java/com/common/sdk/common_sdk/filter/CorrelationFilter.java:42 | defines `ObjectUtils.isEmpty` on a string: null or length zero, untrimmed; `CorrelationFilter.BlankHeaderKept` and `CorrelationFilter.ChooseId` state its effect |
| `CorrelationFilter.ChooseId` | src/main/java/com/common/sdk/common_sdk/filter/CorrelationFilter.java:41-44 | a present, non-empty header is used as it is; an absent or empty one is replaced by the generated id; the result is never empty |
| `CorrelationFilter.BlankHeaderKept` | src/main/java/com/common/sdk/common_sdk/filter/CorrelationFilter.java:42 | a header `" "` is not empty and is kept |
| `CorrelationFilter.DoFilterInternal` | src/main/java/com/common/sdk/common_sdk/filter/CorrelationFilter.java:39-53 | the chain runs with the chosen id bound in the MDC (the returned ghost `observed`, whose current id is the chosen one) and set on the response; its outcome, normal or raised, is returned unchanged; afterwards the id is unbound (removed, an earlier binding is not restored) and nothing else of the MDC is changed by the filter |
| `CorrelationFilter.TranslationSeesBoundId` | src/main/java/com/common/sdk/common_sdk/filter/CorrelationFilter.java:46-49 | a failure translated while the id is bound carries that id |
| `CorrelationFilter.SequentialRequests` | src/main/java/com/common/sdk/common_sdk/filter/CorrelationFilter.java:46-52 | on one thread, for two requests each with its own chain: the second chain sees exactly what the first chain left in the MDC, less the first correlation-id binding, plus its own id, so its correlation-id binding is never the first id, while a key the first chain bound, even to the first id, stays visible; the MDC ends as the second chain leaves it, less the correlation id, so keys a chain binds itself stay bound; when neither chain touches the MDC, the second chain sees the MDC as before both requests plus its id, and the MDC ends as before, without any earlier correlation-id binding |

## Left out

- Logging: the `log.warn` and `log.error` calls, and the stack traces printed with them, do not change any envelope.
- Spring's annotation mechanics (`@ControllerAdvice`, `@ExceptionHandler`, `@ResponseStatus`, `@Order`): only the mappings they declare are modelled. The same goes for `OncePerRequestFilter`'s once-per-request guarantee and Lombok's generated code.
- Spring also searches an exception's cause chain. Because the handler for `Exception` always matches the exception itself, that search never changes the handler selected, so it is not modelled. `Error`s are not `Exception`s and are not modelled.
- UUID generation is a random, foreign source. It is the `uuid` parameter, assumed non-empty. Whether generated ids are unique cannot be stated here.
- The MDC is thread-local, and requests run concurrently. The model has one thread's MDC.
- Servlet I/O: only reading one request header and setting one response header are modelled. Header names are matched exactly; the servlet's case-insensitive lookup and multi-valued headers are not modelled. JSON serialisation of the envelope is not modelled either.
- The private constructor: the Java constructor is private. A Dafny datatype constructor cannot be hidden without export sets, which this model does not use. Instead `ApiResponses.WellFormedIsFactoryMade` shows that the factories produce exactly the well-formed envelopes.
- `ApiResponses.Success`: a null `requestId` argument is not represented (the model's id is a plain string), and a null `ResponseCode`, for which `responseCode.getCode()` at ApiResponse.java:38 throws a `NullPointerException`, is not modelled either.
- `ApiResponses.SuccessNoData`: a null `requestId` or a null `ResponseCode` (the same `NullPointerException`, reached through `success(null, rc, id)`) is not modelled.
- `ApiResponses.Failure`: a null `requestId` is not represented, and the `NullPointerException` that `responseCode.getCode()` at ApiResponse.java:63 throws for a null `ResponseCode` is not modelled.
- `ApiResponses.FailureNoMessage`: a null `requestId` or a null `ResponseCode` (the same `NullPointerException`, reached through `failure(rc, "", id)`) is not modelled.
- `ApiResponses.FailureByCode`: a null `requestId` is not represented.
- `ResponseHandler.OkWithCode`: `ok(data, null)` throws a `NullPointerException` in the factory; a null `ResponseCode` is not modelled.
- `ResponseHandler.OkCode`: `ok((ResponseCode) null)` throws the same `NullPointerException`; not modelled.
- `ResponseHandler.FailureWith`: `failure((ResponseCode) null)` throws the same `NullPointerException`; not modelled.
- `ResponseHandler.FailureWithId`: a null caller-supplied request id is not represented, and `failure(null, message, id)` throws the same `NullPointerException`, which is not modelled. The ids that the other `ResponseHandler` overloads take from the MDC are never null.
- `GenericApiResponse<R>`'s generic typing: a `Void` body is `ApiResponse<()>`, whose data is always absent.
