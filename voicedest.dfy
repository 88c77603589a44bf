/**
 * The voice destination provider (nfydestvoice.go). Sending places one call
 * whose callback URL carries the message's context in its query; the webhook
 * reads that context back from the same URL, so no state is kept in between.
 */
module VoiceDest {
  import opened Wrappers
  import opened GoStrings
  import opened StrConv
  import opened UrlValues
  import opened Notification
  import opened Transport
  import opened Destination
  import Webhook

  /** addParams: each given key is set on the URL's query, replacing any value
      it had; every other key keeps its value. */
  method AddParams(base: URL, params: map<Bytes, Bytes>) returns (u: URL)
    ensures u.location == base.location
    ensures u.query.Keys == base.query.Keys + params.Keys
    ensures forall k :: k in params ==> u.query[k] == params[k]
    ensures forall k :: k in base.query && k !in params ==> u.query[k] == base.query[k]
  {
    var q := base.query;
    var remaining := params.Keys;
    while remaining != {}
      invariant remaining <= params.Keys
      invariant q.Keys == base.query.Keys + (params.Keys - remaining)
      invariant forall k :: k in params && k !in remaining ==> q[k] == params[k]
      invariant forall k :: k in base.query && k !in params ==> q[k] == base.query[k]
      invariant forall k :: k in base.query && k in remaining ==> q[k] == base.query[k]
      decreases remaining
    {
      var k :| k in remaining;
      q := q[k := params[k]];
      remaining := remaining - {k};
    }
    u := URL(base.location, q);
  }

  /** The parameters each kind of message adds to the callback. */
  function CallbackParams(msg: Message): map<Bytes, Bytes>
    requires !msg.Other?
  {
    match msg
    case Test(_) => map[Str("type") := Str("test")]
    case Alert(_, id, _) => map[Str("type") := Str("alert"), Str("alertID") := Itoa(id)]
    case Verification(_, code) => map[Str("type") := Str("verify"), Str("code") := code]
  }

  /** The callback URL of a call: the base with the message's parameters set. */
  function Callback(base: URL, msg: Message): (u: URL)
    requires !msg.Other?
    ensures u.location == base.location
  {
    URL(base.location, base.query + CallbackParams(msg))
  }

  /** The call a message leads to (destination and callback), or the error
      returned before any call is made. */
  datatype Call = Call(dest: Bytes, callback: URL)

  function CallFor(base: URL, msg: Message): (r: Result<Call, Error>)
    ensures msg.Other? ==> r == Failure(Text(Str("telnyx: unsupported message type ") + msg.typeName))
    ensures !msg.Other? ==>
      r == match ExtractDest(msg.dest)
           case Failure(e) => Failure(e)
           case Success(d) => Success(Call(d, Callback(base, msg)))
  {
    if msg.Other? then Failure(Text(Str("telnyx: unsupported message type ") + msg.typeName))
    else match ExtractDest(msg.dest)
      case Failure(e) => Failure(e)
      case Success(d) => Success(Call(d, Callback(base, msg)))
  }

  /** What Send reports once the call was attempted: the call's id, still
      sending, from the destination; or MakeCall's error unchanged. */
  function CallResult(made: Result<Bytes, Error>, dest: Bytes): (r: Result<SentMessage, Error>)
    ensures made.Failure? ==> r == Failure(made.error)
    ensures made.Success? ==> r == Success(SentMessage(made.value, Sending, dest))
  {
    match made
    case Success(id) => Success(SentMessage(id, Sending, dest))
    case Failure(e) => Failure(e)
  }

  /** Voice.Send: an unsupported kind or an unreadable destination returns an
      error and places no call; otherwise exactly one call is placed to the
      destination with the kind's callback. */
  method Send(app: AppConfig, net: Telnyx, msg: Message) returns (r: Result<SentMessage, Error>)
    modifies net
    ensures CallFor(app.voiceCallback, msg).Failure? ==>
      net.requests == old(net.requests) && r == Failure(CallFor(app.voiceCallback, msg).error)
    ensures CallFor(app.voiceCallback, msg).Success? ==>
      var c := CallFor(app.voiceCallback, msg).value;
      && net.requests == old(net.requests) + [InitiateCall(app.connectionID, app.apiKey, c.dest, app.fromNumber, c.callback)]
      && r == CallResult(net.calls(|old(net.requests)|), c.dest)
  {
    var callbackBase := app.voiceCallback;
    var params: map<Bytes, Bytes>;
    match msg {
      case Other(t) =>
        return Failure(Text(Str("telnyx: unsupported message type ") + t));
      case Test(_) =>
        params := map[Str("type") := Str("test")];
      case Alert(_, id, _) =>
        params := map[Str("type") := Str("alert"), Str("alertID") := Itoa(id)];
      case Verification(_, code) =>
        params := map[Str("type") := Str("verify"), Str("code") := code];
    }
    var dest := ExtractDest(msg.dest);
    if dest.Failure? {
      return Failure(dest.error);
    }
    var callback := AddParams(callbackBase, params);
    assert callback == Callback(callbackBase, msg);
    var made := net.MakeCall(app, dest.value, callback);
    r := CallResult(made, dest.value);
  }

  /** The callback of an alert call makes the webhook look up that same alert:
      the decimal id written by Itoa is read back exactly by Atoi. */
  lemma AlertCallbackRoundTrip(base: URL, dest: DestValue, id: int, summary: Bytes, findOne: Webhook.AlertLookup)
    requires IsInt64(id)
    ensures var q := Callback(base, Alert(dest, id, summary)).query;
      && Get(q, Webhook.TypeKey) == Webhook.AlertType
      && Webhook.RequestedAlertID(q) == id
      && Webhook.MessageText(q, findOne) ==
           match findOne(id)
           case Success(a) => Webhook.AlertText(a)
           case Failure(_) => Webhook.LookupFailedText
  {
    AtoiItoa(id);
  }

  /** The callback of a verification call makes the webhook speak that code, twice. */
  lemma VerificationCallbackRoundTrip(base: URL, dest: DestValue, code: Bytes, findOne: Webhook.AlertLookup)
    ensures Webhook.MessageText(Callback(base, Verification(dest, code)).query, findOne) == Webhook.VerifyText(code)
  {
    assert Str("code")[0] != Str("type")[0];
  }

  /** The callback of a test call makes the webhook speak the test sentence. */
  lemma TestCallbackRoundTrip(base: URL, dest: DestValue, findOne: Webhook.AlertLookup)
    ensures Webhook.MessageText(Callback(base, Test(dest)).query, findOne) == Webhook.TestText
  {
  }

  /** Every supported kind writes one of the three types the webhook switches
      on, so no call falls through to the generic sentence. */
  lemma CallbackTypeHandled(base: URL, msg: Message)
    requires !msg.Other?
    ensures Get(Callback(base, msg).query, Webhook.TypeKey) in {Webhook.AlertType, Webhook.VerifyType, Webhook.TestType}
  {
    if msg.Alert? {
      assert Str("alertID") != Str("type");
    } else if msg.Verification? {
      assert Str("code")[0] != Str("type")[0];
    }
  }

  /** Scenario: a call for alert 42, "Server Down", whose lookup succeeds,
      speaks "Alert 42: Server Down. <details>". */
  lemma AlertFortyTwoScenario(base: URL, dest: DestValue, details: Bytes, findOne: Webhook.AlertLookup)
    requires findOne(42) == Success(Webhook.Alert(42, Str("Server Down"), details))
    ensures HasPrefix(Webhook.MessageText(Callback(base, Alert(dest, 42, Str("Server Down"))).query, findOne),
                      Str("Alert 42: Server Down"))
  {
    AlertCallbackRoundTrip(base, dest, 42, Str("Server Down"), findOne);
    AlertFortyTwoText(details);
  }

  /** The spoken text of alert 42, "Server Down". */
  lemma AlertFortyTwoText(details: Bytes)
    ensures HasPrefix(Webhook.AlertText(Webhook.Alert(42, Str("Server Down"), details)), Str("Alert 42: Server Down"))
  {
    assert Itoa(42) == Str("42");
    var head := Str("Alert ") + Str("42") + Str(": ") + Str("Server Down");
    StrConcat("Alert ", "42");
    StrConcat("Alert 42", ": ");
    StrConcat("Alert 42: ", "Server Down");
    assert head == Str("Alert 42: Server Down");
    var t := Webhook.AlertText(Webhook.Alert(42, Str("Server Down"), details));
    assert t == head + (Str(". ") + details);
    assert t[..|head|] == head;
  }
}
