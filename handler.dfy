/**
 * The voice webhook (handler.go). The provider fetches the callback URL that
 * the outbound call carried; the handler reads `type`, `alertID` and `code`
 * from its query, looks the alert up when asked to, and answers with a
 * <Response> holding one <Say>. No state is kept between requests.
 */
module Webhook {
  import opened Wrappers
  import opened GoStrings
  import opened StrConv
  import opened UrlValues
  import opened Notification
  import opened TeXML

  const TypeKey: Bytes := Str("type")
  const AlertIDKey: Bytes := Str("alertID")
  const CodeKey: Bytes := Str("code")

  const AlertType: Bytes := Str("alert")
  const VerifyType: Bytes := Str("verify")
  const TestType: Bytes := Str("test")

  const LookupFailedText: Bytes := Str("Critical Alert from GoAlert. Please check your dashboard.")
  const TestText: Bytes :=
    Str("This is a test message from GoAlert. If you are hearing this, your voice configuration is correct.")
  const GenericText: Bytes := Str("GoAlert Notification System.")
  const VerifyPrefix: Bytes := Str("Your GoAlert verification code is: ")
  const VerifyRepeat: Bytes := Str(". Repeat: ")

  /** alert.Alert: the fields the spoken text uses. */
  datatype Alert = Alert(id: int, summary: Bytes, details: Bytes)

  /** alert.Store.FindOne: the stored alert with the given id, or a lookup error. */
  type AlertLookup = int -> Result<Alert, Error>

  /** The inbound request: its URL query, its form fields and its headers. */
  datatype Request = Request(query: Values, form: Values, header: Values)

  /** The XML answer: a <Response> root holding exactly one <Say>. */
  datatype Response = Response(say: SayVerb)

  /** `fmt.Sprintf("Alert %d: %s. %s", a.ID, a.Summary, a.Details)` */
  function AlertText(a: Alert): (t: Bytes)
    ensures |t| == |Str("Alert ")| + |Itoa(a.id)| + |Str(": ")| + |a.summary| + |Str(". ")| + |a.details|
    ensures var k := |Str("Alert ")| + |Itoa(a.id)| + |Str(": ")|;
      && HasPrefix(t, Str("Alert "))
      && t[|Str("Alert ")|..|Str("Alert ")| + |Itoa(a.id)|] == Itoa(a.id)
      && t[|Str("Alert ")| + |Itoa(a.id)|..k] == Str(": ")
      && t[k..k + |a.summary|] == a.summary
      && t[k + |a.summary|..k + |a.summary| + |Str(". ")|] == Str(". ")
      && HasSuffix(t, a.details)
  {
    var head := Str("Alert ") + Itoa(a.id) + Str(": ");
    var t := head + a.summary + (Str(". ") + a.details);
    ConcatParts(Str("Alert "), Itoa(a.id), Str(": "));
    ConcatParts(head, a.summary, Str(". ") + a.details);
    ConcatParts(head + a.summary, Str(". "), a.details);
    assert t == head + a.summary + Str(". ") + a.details;
    assert t[..|head|] == head;
    t
  }

  /** `fmt.Sprintf("Your GoAlert verification code is: %s. Repeat: %s.", code, code)` */
  function VerifyText(code: Bytes): (t: Bytes)
    ensures HasPrefix(t, VerifyPrefix) && HasSuffix(t, code + Str("."))
    ensures |t| == |VerifyPrefix| + 2 * |code| + |VerifyRepeat| + 1
    ensures t[|VerifyPrefix| + |code|..|VerifyPrefix| + |code| + |VerifyRepeat|] == VerifyRepeat
  {
    VerifyPrefix + code + VerifyRepeat + code + Str(".")
  }

  /** The alert id the handler looks up: `Atoi` of the `alertID` parameter, parse error ignored. */
  function RequestedAlertID(q: Values): (id: int)
    ensures IsInt64(id)
    ensures AlertIDKey !in q ==> id == 0
  {
    Atoi(Get(q, AlertIDKey))
  }

  /** The switch on `type` that chooses what is spoken. */
  function MessageText(q: Values, findOne: AlertLookup): (text: Bytes)
    ensures |text| > 0
    ensures Get(q, TypeKey) == AlertType ==>
      text == match findOne(RequestedAlertID(q))
              case Success(a) => AlertText(a)
              case Failure(_) => LookupFailedText
    ensures Get(q, TypeKey) == VerifyType ==> text == VerifyText(Get(q, CodeKey))
    ensures Get(q, TypeKey) == TestType ==> text == TestText
    ensures Get(q, TypeKey) !in {AlertType, VerifyType, TestType} ==> text == GenericText
  {
    var msgType := Get(q, TypeKey);
    if msgType == AlertType then
      match findOne(RequestedAlertID(q))
      case Success(a) => AlertText(a)
      case Failure(_) => LookupFailedText
    else if msgType == VerifyType then
      VerifyText(Get(q, CodeKey))
    else if msgType == TestType then
      TestText
    else
      GenericText
  }

  /** Handler.ServeHTTP: one <Say> carrying the chosen text, with the voice and
      language defaults applied. */
  function ServeHTTP(r: Request, findOne: AlertLookup, cfg: AppConfig): (resp: Response)
    ensures resp.say == NewSayVerb(cfg, MessageText(r.query, findOne))
    ensures |resp.say.text| > 0 && |resp.say.voice| > 0 && |resp.say.language| > 0
  {
    Response(NewSayVerb(cfg, MessageText(r.query, findOne)))
  }

  /** Only the URL query matters: form fields (Digits, CallStatus, ...) and
      headers are never read, so a replayed or differently-posted request with
      the same query gets the same answer. */
  lemma ServeHTTPReadsOnlyQuery(r1: Request, r2: Request, findOne: AlertLookup, cfg: AppConfig)
    requires r1.query == r2.query
    ensures ServeHTTP(r1, findOne, cfg) == ServeHTTP(r2, findOne, cfg)
  {
  }

  /** A missing or non-numeric alert id is still looked up, as alert 0. */
  lemma MissingAlertIDLooksUpZero(q: Values, findOne: AlertLookup)
    requires Get(q, TypeKey) == AlertType
    requires forall i :: 0 <= i < |Get(q, AlertIDKey)| ==> !IsDigit(Get(q, AlertIDKey)[i])
    ensures MessageText(q, findOne) ==
      match findOne(0)
      case Success(a) => AlertText(a)
      case Failure(_) => LookupFailedText
  {
    AtoiNoDigits(Get(q, AlertIDKey));
  }

  /** An alert id with a non-digit early on ("12abc") is looked up as alert 0,
      not as the number its leading digits spell. */
  lemma MalformedAlertIDLooksUpZero(q: Values, findOne: AlertLookup, j: nat)
    requires Get(q, TypeKey) == AlertType
    requires var v := Get(q, AlertIDKey);
      && j < |v| && j <= 18 && !IsDigit(v[j])
      && (j == 0 ==> v[0] != '-' as int as byte && v[0] != '+' as int as byte)
    ensures MessageText(q, findOne) ==
      match findOne(0)
      case Success(a) => AlertText(a)
      case Failure(_) => LookupFailedText
  {
    AtoiEarlyNonDigit(Get(q, AlertIDKey), j);
  }

  /** An alert id whose digits overflow 64 bits before any trailing garbage
      ("99999999999999999999x") is looked up as the largest 64-bit id. */
  lemma OverflowingAlertIDLooksUpMax(q: Values, findOne: AlertLookup, digits: Bytes, rest: Bytes)
    requires Get(q, TypeKey) == AlertType
    requires Get(q, AlertIDKey) == digits + rest
    requires digits != [] && AllDigits(digits) && Accumulate(digits, 0) > MaxUint64
    ensures MessageText(q, findOne) ==
      match findOne(MaxInt64)
      case Success(a) => AlertText(a)
      case Failure(_) => LookupFailedText
  {
    AtoiOverflowBeforeNonDigit(digits, rest);
  }

  /** The verification code is spoken twice, verbatim. */
  lemma VerifyTextSpeaksCodeTwice(code: Bytes)
    ensures var t := VerifyText(code);
      var first := |VerifyPrefix|;
      var second := first + |code| + |VerifyRepeat|;
      second + |code| < |t| && t[first..first + |code|] == code && t[second..second + |code|] == code
  {
  }
}
