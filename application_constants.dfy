/** The constants shared by the filter and the envelope. */
module ApplicationConstants {

  /** Name of the request and response header, and of the MDC key, that carry the correlation id. */
  const CORRELATION_ID: string := "x-correlation-id"

  const EMPTY_STRING: string := ""
}
