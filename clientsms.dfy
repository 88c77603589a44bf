/** The alert SMS: its text, its 160-byte limit, and its send (clientsms.go). */
module ClientSms {
  import opened Wrappers
  import opened GoStrings
  import opened StrConv
  import opened Notification
  import opened Endpoint
  import opened Transport
  import opened Sms

  const MaxSMSLength: nat := 160
  const KeptLength: nat := 157
  const Ellipsis: Bytes := Str("...")

  /** `fmt.Sprintf("Alert #%d: %s", a.AlertID, a.Summary)` */
  function FullAlertText(alertID: int, summary: Bytes): (t: Bytes)
    ensures |t| == |Str("Alert #")| + |Itoa(alertID)| + |Str(": ")| + |summary|
    ensures HasPrefix(t, Str("Alert #"))
    ensures t[|Str("Alert #")|..|Str("Alert #")| + |Itoa(alertID)|] == Itoa(alertID)
    ensures t[|Str("Alert #")| + |Itoa(alertID)|..|Str("Alert #")| + |Itoa(alertID)| + |Str(": ")|] == Str(": ")
    ensures HasSuffix(t, summary)
  {
    ConcatParts(Str("Alert #"), Itoa(alertID), Str(": ") + summary);
    assert Str("Alert #") + Itoa(alertID) + (Str(": ") + summary) == Str("Alert #") + Itoa(alertID) + Str(": ") + summary;
    Str("Alert #") + Itoa(alertID) + Str(": ") + summary
  }

  /** The byte-length limit: a text over 160 bytes keeps its first 157 bytes
      and gets "..." appended. */
  function Truncate(msg: Bytes): (t: Bytes)
    ensures |t| <= MaxSMSLength
    ensures |msg| <= MaxSMSLength ==> t == msg
    ensures |msg| > MaxSMSLength ==> |t| == MaxSMSLength && t[..KeptLength] == msg[..KeptLength] && t[KeptLength..] == Ellipsis
  {
    if |msg| > MaxSMSLength then msg[..KeptLength] + Ellipsis else msg
  }

  /** The text actually sent for an alert: never over 160 bytes, and it always
      starts with the alert marker. */
  function AlertSMSText(alertID: int, summary: Bytes): (t: Bytes)
    ensures |t| <= MaxSMSLength
    ensures HasPrefix(t, Str("Alert #"))
    ensures |FullAlertText(alertID, summary)| <= MaxSMSLength ==> t == FullAlertText(alertID, summary)
    ensures |FullAlertText(alertID, summary)| > MaxSMSLength ==>
      t == FullAlertText(alertID, summary)[..KeptLength] + Ellipsis
  {
    var full := FullAlertText(alertID, summary);
    assert full[..7] == Str("Alert #");
    Truncate(full)
  }

  /** The destination as SendSMSAlert reads it: a lookup error is wrapped, a
      non-string value is rejected with its type. */
  function AlertDest(d: DestValue): (r: Result<Bytes, Error>)
    ensures d.StringValue? <==> r.Success?
    ensures d.StringValue? ==> r.value == d.s
    ensures d.ValueError? ==> r == Failure(Wrapped(Str("telnyx: failed to get destination value"), d.err))
    ensures d.OtherValue? ==> r == Failure(Text(Str("telnyx: destination value is not a string: ") + d.typeName))
  {
    match d
    case ValueError(e) => Failure(Wrapped(Str("telnyx: failed to get destination value"), e))
    case StringValue(s) => Success(s)
    case OtherValue(t) => Failure(Text(Str("telnyx: destination value is not a string: ") + t))
  }

  /** Config.SendSMSAlert: nothing is sent when the destination cannot be read;
      otherwise one message with the (possibly truncated) alert text goes to the
      destination from the configured number, and the answer is mapped. */
  method SendSMSAlert(cfg: Config, app: AppConfig, net: Telnyx, a: Message)
    returns (r: Result<SentMessage, Error>)
    requires a.Alert?
    modifies net
    ensures AlertDest(a.dest).Failure? ==>
      net.requests == old(net.requests) && r == Failure(AlertDest(a.dest).error)
    ensures AlertDest(a.dest).Success? ==>
      && net.requests == old(net.requests) +
           [MessageRequest(cfg, app, SendSMSInput(AlertDest(a.dest).value, app.fromNumber, AlertSMSText(a.alertID, a.summary)))]
      && r == SendResult(PostResult(net.exchanges(|old(net.requests)|)))
  {
    var dest := AlertDest(a.dest);
    if dest.Failure? {
      return Failure(dest.error);
    }
    var msg := FullAlertText(a.alertID, a.summary);
    if |msg| > MaxSMSLength {
      msg := msg[..KeptLength] + Ellipsis;
    }
    var input := SendSMSInput(dest.value, app.fromNumber, msg);
    var resp := net.PostMessage(cfg, app, input);
    r := SendResult(resp);
  }
}
