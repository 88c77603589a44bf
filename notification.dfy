/**
 * The types of the notification package and of the application configuration
 * that this adapter reads. Only the fields the adapter touches are kept.
 */
module Notification {
  import opened GoStrings
  import opened UrlValues

  /** Delivery state of a sent message. */
  datatype State = Sending | Sent | Delivered | FailedTemp | FailedPerm

  /** What a sender reports after a successful send. */
  datatype SentMessage = SentMessage(externalID: Bytes, state: State, srcValue: Bytes)

  /** APIError and APIErrorResponse: the provider's JSON error body. */
  datatype APIError = APIError(code: Bytes, title: Bytes, detail: Bytes)
  datatype APIErrorResponse = APIErrorResponse(errors: seq<APIError>)

  /** Go error values met by the adapter. */
  datatype Error =
    | External(text: Bytes)                // produced by code outside the model (HTTP client, JSON, SDK, Dest.Value)
    | Text(text: Bytes)                    // errors.New, or fmt.Errorf without %w
    | Wrapped(context: Bytes, cause: Error) // fmt.Errorf("<context>: %w", cause)
    | Api(response: APIErrorResponse)      // *APIErrorResponse returned by DecodeError

  /** What `Dest.Value()` returns: an error, a string, or a value of another
      dynamic type (named as `%T` prints it). */
  datatype DestValue = ValueError(err: Error) | StringValue(s: Bytes) | OtherValue(typeName: Bytes)

  /** The kinds of message a sender is handed. `Other` stands for every message
      type this adapter does not support. */
  datatype Message =
    | Test(dest: DestValue)
    | Alert(dest: DestValue, alertID: int, summary: Bytes)
    | Verification(dest: DestValue, code: Bytes)
    | Other(typeName: Bytes)

  /** config.Config as seen by this adapter: the Telnyx section and the voice
      callback URL (`CallbackURL("/api/v2/telnyx/voice")`). */
  datatype AppConfig = AppConfig(
    apiKey: Bytes,
    fromNumber: Bytes,
    connectionID: Bytes,
    voiceName: Bytes,
    voiceLanguage: Bytes,
    voiceCallback: URL)
}
