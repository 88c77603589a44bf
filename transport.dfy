/**
 * The provider's API as the adapter reaches it: `postJSON` (client.go) and
 * `MakeCall` (voice.go). Every call is one request; the object records the
 * requests in the order they were made. What the provider answers is not up to
 * the adapter: the answer to the n-th request is given by `exchanges(n)` for
 * JSON posts and by `calls(n)` for call initiations.
 */
module Transport {
  import opened Wrappers
  import opened GoStrings
  import opened UrlValues
  import opened Notification
  import opened Status
  import opened ApiErrors
  import opened Endpoint

  /** SendSMSInput: the JSON body of a message send. */
  datatype SendSMSInput = SendSMSInput(to: Bytes, from: Bytes, text: Bytes)

  datatype Request =
    /** POST <url> with headers `Authorization: <authorization>`, JSON content, sent through `client`. */
    | PostJSON(url: Bytes, client: HttpClient, authorization: Bytes, input: SendSMSInput)
    /** TeXML call initiation under a connection id, the provider to fetch `callback` by POST. */
    | InitiateCall(connectionID: Bytes, apiKey: Bytes, to: Bytes, from: Bytes, callback: URL)

  /** How the HTTP exchange of a postJSON went: the transport failed, or a
      response came back whose body is read by encoding/json as an error body
      or as a message body. */
  datatype HttpExchange =
    | NetworkError(text: Bytes)
    | HttpResponse(status: int,
                   errorBody: Result<APIErrorResponse, Bytes>,
                   messageBody: Result<MessageResponse, Bytes>)

  /** The request postJSON makes for a message send. */
  function MessageRequest(cfg: Config, app: AppConfig, input: SendSMSInput): Request {
    PostJSON(Url(cfg, Str("messages")), Client(cfg), Str("Bearer ") + app.apiKey, input)
  }

  /** postJSON's reading of the exchange: a status of 400 or more is a provider
      error decoded from the body; otherwise the body is the message resource. */
  function PostResult(x: HttpExchange): (r: Result<MessageResponse, Error>)
    ensures x.NetworkError? ==> r == Failure(External(x.text))
    ensures x.HttpResponse? && x.status >= 400 ==> r == Failure(DecodeError(x.errorBody))
    ensures x.HttpResponse? && x.status < 400 ==>
      r == match x.messageBody
           case Success(m) => Success(m)
           case Failure(e) => Failure(External(e))
  {
    match x
    case NetworkError(e) => Failure(External(e))
    case HttpResponse(status, errorBody, messageBody) =>
      if status >= 400 then Failure(DecodeError(errorBody))
      else match messageBody
        case Success(m) => Success(m)
        case Failure(e) => Failure(External(e))
  }

  class Telnyx {
    var requests: seq<Request>
    const exchanges: nat -> HttpExchange
    const calls: nat -> Result<Bytes, Error>

    constructor (exchanges: nat -> HttpExchange, calls: nat -> Result<Bytes, Error>)
      ensures requests == [] && this.exchanges == exchanges && this.calls == calls
    {
      this.requests := [];
      this.exchanges := exchanges;
      this.calls := calls;
    }

    /** Config.postJSON for the messages endpoint: one request, then the reading of its answer. */
    method PostMessage(cfg: Config, app: AppConfig, input: SendSMSInput)
      returns (r: Result<MessageResponse, Error>)
      modifies this
      ensures requests == old(requests) + [MessageRequest(cfg, app, input)]
      ensures r == PostResult(exchanges(|old(requests)|))
    {
      r := PostResult(exchanges(|requests|));
      requests := requests + [MessageRequest(cfg, app, input)];
    }

    /** Voice.MakeCall: one call initiation; the call's id or the error. */
    method MakeCall(app: AppConfig, dest: Bytes, callback: URL) returns (r: Result<Bytes, Error>)
      modifies this
      ensures requests == old(requests) + [InitiateCall(app.connectionID, app.apiKey, dest, app.fromNumber, callback)]
      ensures r == calls(|old(requests)|)
    {
      r := calls(|requests|);
      requests := requests + [InitiateCall(app.connectionID, app.apiKey, dest, app.fromNumber, callback)];
    }
  }
}
