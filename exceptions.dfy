/**
 * The exceptions that the access layer raises, catches or lets through.
 * Only their kind and the data the code attaches to them are modelled.
 */
module Exceptions {
  import opened Wrappers

  datatype Exception =
      /** Thrown by HttpClient.GetAsync (and by the token source) for a transport failure. */
    | HttpRequestException(message: string)
      /** Thrown by HttpClient.GetAsync when the request times out or is cancelled. */
    | TaskCanceledException(message: string)
      /** Any failure while reading a response body. */
    | IOException(message: string)
      /** Thrown by JsonDocument.Parse for a body that is not JSON. */
    | JsonException
      /** Thrown by JsonElement.GetProperty for a missing property. */
    | KeyNotFoundException(key: string)
      /** Thrown by a JsonElement accessor applied to an element of the wrong kind. */
    | InvalidOperationException
      /** Thrown by Guid.Parse, GetInt32 and GetDecimal for text or numbers they cannot represent. */
    | FormatException
      /** Thrown by Guid.Parse(null). */
    | ArgumentNullException
      /** The access layer's own exception: a message and the exception it wraps, if any. */
    | DataverseApiException(message: string, inner: Option<Exception>)
}
