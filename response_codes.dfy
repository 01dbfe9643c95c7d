/** A response code: a stable number and a human-readable message. */
module ResponseCodes {
  import opened JavaLang

  datatype ResponseCode = ResponseCode(code: Int32, message: string)
}

/**
 * The general-purpose codes. Only SUCCESS and INTERNAL_SERVER_ERROR are given values in the
 * repository; the exception handler refers to thirteen more that the repository does not
 * define, so they are declared here without a value: nothing in the model depends on
 * what their numbers are.
 */
module APIResponseCode {
  import opened ResponseCodes

  const SUCCESS: ResponseCode := ResponseCode(200, "Success")
  const INTERNAL_SERVER_ERROR: ResponseCode := ResponseCode(500, "Internal Server Error")

  const VALIDATION_ERROR: ResponseCode
  const MISSING_REQUEST_PARAM: ResponseCode
  const MISSING_PATH_VARIABLE: ResponseCode
  const MISSING_REQUEST_HEADER: ResponseCode
  const ARGUMENT_TYPE_MISMATCH: ResponseCode
  const HTTP_MESSAGE_NOT_READABLE: ResponseCode
  const CONVERSION_FAILED: ResponseCode
  const METHOD_NOT_ALLOWED: ResponseCode
  const UNSUPPORTED_MEDIA_TYPE: ResponseCode
  const ILLEGAL_ARGUMENT: ResponseCode
  const ILLEGAL_STATE: ResponseCode
  const NULL_POINTER: ResponseCode
  const INTERNAL_ERROR: ResponseCode
}

/** The codes of the notification service, an example of a service-specific registry. */
module NotificationResponseCode {
  import opened ResponseCodes

  const SUCCESS: ResponseCode := ResponseCode(200, "Notification sent successfully")
  const INTERNAL_SERVER_ERROR: ResponseCode := ResponseCode(500, "Internal Server Error")
  const TEMPLATE_NOT_FOUND: ResponseCode := ResponseCode(1001, "Notification Template not found")
}
