/**
 * The SMS destination provider (nfydesksms.go): one message per notification,
 * its body chosen by the kind of message. Alerts go through SendSMSAlert;
 * tests and verifications through SendSMS.
 */
module SmsDest {
  import opened Wrappers
  import opened GoStrings
  import opened Notification
  import opened Transport
  import opened Destination
  import opened Sms
  import opened ClientSms

  const TestBody: Bytes := Str("GoAlert Test Message")
  const VerificationPrefix: Bytes := Str("Your GoAlert verification code is: ")

  /** How `%d` renders the verification code; left to the caller of the model. */
  type CodeFormatter = Bytes -> Bytes

  /** The message a notification leads to: destination and text. */
  datatype Outgoing = Outgoing(to: Bytes, text: Bytes)

  /** What Send sends for a message, or the error it returns before sending. */
  function OutgoingFor(msg: Message, formatCode: CodeFormatter): (r: Result<Outgoing, Error>)
    ensures msg.Other? ==> r == Failure(Text(Str("telnyx: unsupported message type ") + msg.typeName))
    ensures msg.Test? ==> r == match ExtractDest(msg.dest)
                               case Failure(e) => Failure(e)
                               case Success(d) => Success(Outgoing(d, TestBody))
    ensures msg.Alert? ==> r == match AlertDest(msg.dest)
                                case Failure(e) => Failure(e)
                                case Success(d) => Success(Outgoing(d, AlertSMSText(msg.alertID, msg.summary)))
    ensures msg.Verification? ==> r == match ExtractDest(msg.dest)
                                       case Failure(e) => Failure(e)
                                       case Success(d) => Success(Outgoing(d, VerificationPrefix + formatCode(msg.code)))
    ensures msg.Verification? && r.Success? ==> HasPrefix(r.value.text, VerificationPrefix)
    ensures !msg.Other? ==> (r.Success? <==> msg.dest.StringValue?)
    ensures r.Success? ==> r.value.to == msg.dest.s
  {
    match msg
    case Other(t) => Failure(Text(Str("telnyx: unsupported message type ") + t))
    case Test(dest) =>
      (match ExtractDest(dest)
       case Failure(e) => Failure(e)
       case Success(d) => Success(Outgoing(d, TestBody)))
    case Alert(dest, id, summary) =>
      (match AlertDest(dest)
       case Failure(e) => Failure(e)
       case Success(d) => Success(Outgoing(d, AlertSMSText(id, summary))))
    case Verification(dest, code) =>
      (match ExtractDest(dest)
       case Failure(e) => Failure(e)
       case Success(d) => Success(Outgoing(d, VerificationPrefix + formatCode(code))))
  }

  /** SMS.Send: nothing is sent for an unsupported kind or an unreadable
      destination; otherwise exactly one message goes out and its answer is mapped. */
  method Send(s: SMS, app: AppConfig, net: Telnyx, msg: Message, formatCode: CodeFormatter)
    returns (r: Result<SentMessage, Error>)
    modifies net
    ensures OutgoingFor(msg, formatCode).Failure? ==>
      net.requests == old(net.requests) && r == Failure(OutgoingFor(msg, formatCode).error)
    ensures OutgoingFor(msg, formatCode).Success? ==>
      var out := OutgoingFor(msg, formatCode).value;
      && net.requests == old(net.requests) + [MessageRequest(s.config, app, SendSMSInput(out.to, app.fromNumber, out.text))]
      && r == SendResult(PostResult(net.exchanges(|old(net.requests)|)))
  {
    match msg {
      case Test(dest) =>
        var d := ExtractDest(dest);
        if d.Failure? {
          return Failure(d.error);
        }
        r := SendSMS(s, app, net, d.value, TestBody);
      case Alert(_, _, _) =>
        r := SendSMSAlert(s.config, app, net, msg);
      case Verification(dest, code) =>
        var d := ExtractDest(dest);
        if d.Failure? {
          return Failure(d.error);
        }
        var body := VerificationPrefix + formatCode(code);
        r := SendSMS(s, app, net, d.value, body);
      case Other(t) =>
        r := Failure(Text(Str("telnyx: unsupported message type ") + t));
    }
  }

  /** No SMS this provider sends for an alert is longer than 160 bytes. */
  lemma AlertSMSWithinLimit(msg: Message, formatCode: CodeFormatter)
    requires msg.Alert? && msg.dest.StringValue?
    ensures |OutgoingFor(msg, formatCode).value.text| <= MaxSMSLength
  {
  }
}
