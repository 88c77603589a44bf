/** The low-level SMS sender (sms.go). */
module Sms {
  import opened Wrappers
  import opened GoStrings
  import opened Notification
  import opened Status
  import opened Endpoint
  import opened Transport

  /** SMS: the sender, wrapping the adapter's Config. */
  datatype SMS = SMS(config: Config)

  /** NewSMS never fails and keeps the Config it is given. */
  function NewSMS(cfg: Config): (r: Result<SMS, Error>)
    ensures r.Success? && r.value.config == cfg
  {
    Success(SMS(cfg))
  }

  /** The SentMessage built from the provider's message resource: its id, its
      mapped status and the sender number the provider echoes. */
  function ToSentMessage(resp: MessageResponse): (m: SentMessage)
    ensures m.externalID == resp.id
    ensures m.state == MapStatus(resp.status) && m.state != FailedTemp
    ensures m.srcValue == resp.from
  {
    SentMessage(resp.id, MapStatus(resp.status), resp.from)
  }

  /** A send error is passed on unchanged, with no SentMessage. */
  function SendResult(r: Result<MessageResponse, Error>): (s: Result<SentMessage, Error>)
    ensures r.Failure? ==> s == Failure(r.error)
    ensures r.Success? ==> s == Success(ToSentMessage(r.value))
  {
    match r
    case Success(resp) => Success(ToSentMessage(resp))
    case Failure(e) => Failure(e)
  }

  /** SMS.SendSMS: posts {to, configured from number, body verbatim} to the
      messages endpoint and maps the answer. */
  method SendSMS(s: SMS, app: AppConfig, net: Telnyx, to: Bytes, body: Bytes)
    returns (r: Result<SentMessage, Error>)
    modifies net
    ensures net.requests == old(net.requests) + [MessageRequest(s.config, app, SendSMSInput(to, app.fromNumber, body))]
    ensures r == SendResult(PostResult(net.exchanges(|old(net.requests)|)))
  {
    var resp := net.PostMessage(s.config, app, SendSMSInput(to, app.fromNumber, body));
    r := SendResult(resp);
  }
}
