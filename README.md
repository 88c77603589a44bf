# Telnyx notification adapter — a Dafny model

This project models GoAlert's Telnyx adapter (`notification/telnyx/`). The adapter sends alert, test and
verification notifications as SMS and as voice calls. It maps the provider's message status to a
delivery state. It renders the provider's JSON error bodies as Go errors. It answers the voice webhook
that the provider calls during a call, and it can check a webhook's Ed25519 signature.

The model is written file by file:

| source file | module | form |
|---|---|---|
| message.go | `Status` | function |
| texml.go | `TeXML` | function |
| handler.go | `Webhook` | functions of (request, alert lookup, config) |
| signature.go | `Signature` | function with decoder and verifier as parameters |
| exception.go | `ApiErrors` | loop method `Error` against the function `ErrorText`, plus `DecodeError` |
| config.go | `Endpoint` | functions |
| client.go, voice.go (`postJSON`, `MakeCall` only) | `Transport` | class `Telnyx` that logs every request sent |
| sms.go | `Sms` | method `SendSMS` over `Telnyx` |
| clientsms.go | `ClientSms` | text functions and method `SendSMSAlert` |
| nfydestvoice.go | `VoiceDest` | loop method `AddParams`, method `Send`, round-trip lemmas |
| nfydesksms.go | `SmsDest` | method `Send` against the function `OutgoingFor` |
| nfydestvoice.go and nfydesksms.go (helpers written twice) | `Destination` | functions |

Supporting modules:
- `GoStrings` models Go strings as byte sequences (`Bytes`). It also has `strings.TrimPrefix`, `TrimSuffix` and `Join`.
- `StrConv` models `strconv.Itoa` and `strconv.Atoi` at 64 bits.
- `UrlValues` models a URL query as a map from key to value.
- `Notification` holds the types shared with the notification package and the application config.

Each network effect is a request appended to `Telnyx.requests`. The provider's answer to the n-th
request is `exchanges(n)` for a JSON post and `calls(n)` for a call initiation. This lets each send
method state exactly when nothing is sent.

## Model

| member | source | states |
|---|---|---|
| `Status.MapStatus` | notification/telnyx/message.go:15-28 | Total. "queued"/"sending" give Sending, "delivered" gives Delivered, "failed"/"undelivered" give FailedPerm, and all of these are if-and-only-if. Every other string, "sent" included, gives Sent. Never FailedTemp. |
| `Status.MapStatusRange` | notification/telnyx/message.go:15-28 | The result always lies in {Sending, Sent, Delivered, FailedPerm}. |
| `Status.MapStatusCaseSensitive` | notification/telnyx/message.go:25-26 | "Delivered", "FAILED" and "" all map to Sent: matching is exact. |
| `Status.MapStatusOnto` | notification/telnyx/message.go:16-24 | Each of the six named statuses gives its state, so all four states of the range are reached. |
| `TeXML.NewSayVerb` | notification/telnyx/texml.go:17-35 | Text is unchanged. A non-empty voice or language is kept. An empty one becomes "alice" or "en-US". Voice and language are never empty. |
| `TeXML.NewSayVerbIdempotent` | notification/telnyx/texml.go:19-34 | Configuring the voice and language a verb got yields the same verb. |
| `Webhook.RequestedAlertID` | notification/telnyx/handler.go:40-41 | The looked-up id is `Atoi(alertID)` with the error dropped. It is a 64-bit value, and 0 when the parameter is absent. |
| `Webhook.AlertText` | notification/telnyx/handler.go:52 | "Alert ", then the decimal text of the id, then ": ", then the summary, then ". ", and the text ends with the details. Each part sits at its offset, and the length is the sum of the parts. |
| `Webhook.VerifyText` | notification/telnyx/handler.go:58 | Starts with "Your GoAlert verification code is: ", has ". Repeat: " right after the first code, and ends with the code and ".". Its length counts the code twice. |
| `Webhook.MessageText` | notification/telnyx/handler.go:37-65 | Never empty. For `type=alert`: "Alert <id>: <summary>. <details>", or the fixed fallback sentence when the lookup fails. For `type=verify`: the code from the query, spoken twice. For `type=test`: the test sentence. Anything else: "GoAlert Notification System." |
| `Webhook.ServeHTTP` | notification/telnyx/handler.go:26-81 | The response is one `<Say>` carrying the chosen text, with the voice and language defaults applied. Text, voice and language are all non-empty. |
| `Webhook.ServeHTTPReadsOnlyQuery` | notification/telnyx/handler.go:31-74 | Two requests with the same query get the same response. Form fields (Digits, CallStatus) and headers are never read. |
| `Webhook.MissingAlertIDLooksUpZero` | notification/telnyx/handler.go:40-48 | A missing or digit-free `alertID` is still looked up, as alert 0. |
| `Webhook.MalformedAlertIDLooksUpZero` | notification/telnyx/handler.go:40-48 | An `alertID` such as "12abc", with a non-digit in its first 19 bytes other than a leading sign, is looked up as alert 0, not 12. |
| `Webhook.OverflowingAlertIDLooksUpMax` | notification/telnyx/handler.go:40-48 | An `alertID` whose digits pass 64 bits before any trailing garbage ("99999999999999999999x") is looked up as the largest 64-bit id, not 0. |
| `Webhook.VerifyTextSpeaksCodeTwice` | notification/telnyx/handler.go:55-58 | The code appears verbatim at two known offsets of the verification sentence. |
| `Signature.ErrorText` | notification/telnyx/signature.go:15-37 | The text of each of the four failures starts with "telnyx: ". |
| `Signature.ErrorTextInjective` | notification/telnyx/signature.go:16-36 | Different failures have different texts, so a caller can tell which check failed. |
| `Signature.SignedPayload` | notification/telnyx/signature.go:32 | The payload is the timestamp followed by the body. Its length is the sum of both, and the timestamp is a prefix. |
| `Signature.ValidateSignature` | notification/telnyx/signature.go:11-40 | Returns nil exactly when both headers are present, both base64 decodes succeed and Ed25519 verifies the payload. Otherwise it returns the first failing check, in order: missing headers, then public key, then signature encoding, then validation failed. |
| `Signature.MissingHeadersDecodeNothing` | notification/telnyx/signature.go:12-17 | With a header missing, the result is MissingHeaders whatever the decoder and verifier do. |
| `Signature.PublicKeyCheckedFirst` | notification/telnyx/signature.go:19-29 | When both the key and the signature fail to decode, the key error is reported. |
| `ApiErrors.Entries` | notification/telnyx/exception.go:22-24 | One rendered "code: detail" per error, in list order. |
| `ApiErrors.Error` | notification/telnyx/exception.go:20-26 | The loop that collects the entries yields `ErrorText`: "telnyx: " followed by the entries joined with ", ". |
| `ApiErrors.ErrorTextEntry` | notification/telnyx/exception.go:22-25 | Each entry, its code included, appears verbatim at its offset. Consecutive entries are one separator apart, so order is preserved. |
| `ApiErrors.ErrorTextPrefix` | notification/telnyx/exception.go:25 | The message starts with "telnyx: ". With no entries it is exactly "telnyx: ". |
| `ApiErrors.ErrorTextIgnoresTitles` | notification/telnyx/exception.go:23 | Responses that differ only in titles give the same message. |
| `ApiErrors.SingleErrorText` | notification/telnyx/exception.go:20-26 | One error renders as "telnyx: <code>: <detail>", so a failed send's message contains its code. |
| `ApiErrors.DecodeError` | notification/telnyx/exception.go:28-34 | Always an error: the parsed response, or "telnyx: unknown error (parse fail): " followed by the JSON error. |
| `Endpoint.Base` | notification/telnyx/config.go:20-23 | An empty BaseURL means "https://api.telnyx.com/v2". |
| `Endpoint.Url` | notification/telnyx/config.go:19-25 | The base URL is always kept whole, and exactly one "/" joins it to the path. A trailing "/" on the base is reused, and one leading "/" of the path is dropped. The result ends with the path and its own leading "/", or with "/" and the path. |
| `Endpoint.UrlSlashOptional` | notification/telnyx/config.go:24 | Base "x/" with path "/p" gives the same URL as "x" with "p", namely "x/p". |
| `Endpoint.UrlTrimsOnlyOneSlash` | notification/telnyx/config.go:24 | At most one slash is trimmed on each side: "x//" with "//p" gives "x///p". |
| `Endpoint.DefaultMessagesUrl` | notification/telnyx/config.go:19-25 | With the default base, `url("messages")` is "https://api.telnyx.com/v2/messages". |
| `Endpoint.Client` | notification/telnyx/config.go:27-32 | The configured client when set, otherwise `http.DefaultClient`. |
| `Transport.PostResult` | notification/telnyx/client.go:32-45 | A transport error is passed on. A status of 400 or more yields `DecodeError` of the body. Otherwise the decoded message, or the decode error. |
| `Transport.Telnyx.PostMessage` | notification/telnyx/client.go:12-46 | Exactly one request, to `url(endpoint)` through `httpClient()` with a bearer token. The result is the reading of that request's answer. |
| `Transport.Telnyx.MakeCall` | notification/telnyx/voice.go:24-59 | Exactly one call initiation, with connection id, destination, from number and callback. The result is the call id or the error. |
| `Sms.NewSMS` | notification/telnyx/sms.go:24-26 | Never fails. Wraps the given Config unchanged. |
| `Sms.ToSentMessage` | notification/telnyx/sms.go:44-48 | ExternalID is the provider id. State is `mapStatus` of the provider status, never FailedTemp. SrcValue is the number the provider echoes. |
| `Sms.SendResult` | notification/telnyx/sms.go:39-48 | A send error is returned unchanged, with no SentMessage. |
| `Sms.SendSMS` | notification/telnyx/sms.go:29-49 | One post to "messages" with To = to, From = configured number and Text = body verbatim (no truncation). The answer is mapped. |
| `ClientSms.FullAlertText` | notification/telnyx/clientsms.go:27 | "Alert #", then the decimal text of the id, then ": ", and the text ends with the summary. Its length is the sum of the parts. |
| `ClientSms.Truncate` | notification/telnyx/clientsms.go:29-32 | Never over 160 bytes. Up to 160 bytes it is unchanged. Over 160 it is exactly 160 bytes: the first 157 bytes, then "...". |
| `ClientSms.AlertSMSText` | notification/telnyx/clientsms.go:27-32 | The text "Alert #<id>: <summary>" after truncation. It always starts with "Alert #" and is at most 160 bytes. |
| `ClientSms.AlertDest` | notification/telnyx/clientsms.go:17-24 | A Value() error is wrapped with "failed to get destination value". A non-string value is rejected. A string is the destination. |
| `ClientSms.SendSMSAlert` | notification/telnyx/clientsms.go:12-52 | With an unreadable destination nothing is sent. Otherwise one message goes to the destination from the configured number, carrying the truncated alert text. The answer is mapped. |
| `Destination.ExtractDest` | notification/telnyx/nfydestvoice.go:103-112 | A Value() error is returned unchanged. A non-string value gives "invalid destination type". A string is the destination. The same helper is `getDest` at nfydesksms.go:87-96. |
| `Destination.ValidateField` | notification/telnyx/nfydestvoice.go:51-65 | Any field other than "phone_number" gives "unknown field ID". The phone number's parse error is wrapped, and an invalid number is rejected. The same switch is at nfydesksms.go:50-64. |
| `Destination.Status` | notification/telnyx/nfydesksms.go:121-123 | Always (nil, nil). The voice provider's Status is the same. |
| `VoiceDest.AddParams` | notification/telnyx/nfydestvoice.go:93-101 | The loop sets every given key, replacing an existing value. Every other key keeps its value. The location is unchanged. |
| `VoiceDest.CallFor` | notification/telnyx/nfydestvoice.go:114-165 | An unsupported kind is an error. An unreadable destination is an error. Otherwise the call goes to the destination, with the base callback plus type=test, type=alert with alertID=Itoa(id), or type=verify with the code. |
| `VoiceDest.CallResult` | notification/telnyx/nfydestvoice.go:123-127 | A MakeCall error is passed on. Otherwise ExternalID is the call id, State is Sending and SrcValue is the destination. |
| `VoiceDest.Send` | notification/telnyx/nfydestvoice.go:86-166 | When `CallFor` fails, no call is placed and its error is returned. Otherwise exactly one call is placed with that callback, and its result is mapped. |
| `VoiceDest.AlertCallbackRoundTrip` | notification/telnyx/nfydestvoice.go:134-138 | The webhook reads an alert call's callback as `type=alert` and recovers the same alert id, because `Atoi(Itoa(id)) == id`. It then speaks that alert, or the fallback sentence. |
| `VoiceDest.VerificationCallbackRoundTrip` | notification/telnyx/nfydestvoice.go:151-156 | The webhook speaks exactly the code the verification call carried, twice. |
| `VoiceDest.TestCallbackRoundTrip` | notification/telnyx/nfydestvoice.go:120-121 | The webhook speaks the test sentence for a test call. |
| `VoiceDest.CallbackTypeHandled` | notification/telnyx/nfydestvoice.go:121-154 | The type written is always one of "alert", "verify" and "test", the three the webhook switches on. |
| `VoiceDest.AlertFortyTwoScenario` | notification/telnyx/handler.go:49-53 | A call for alert 42, "Server Down", speaks a text starting with "Alert 42: Server Down". |
| `StrConv.Itoa` | notification/telnyx/nfydestvoice.go:137 | Decimal digits with no leading zero ("0" for zero), preceded by "-" exactly when the number is negative. |
| `StrConv.Atoi` | notification/telnyx/handler.go:41 | Always a 64-bit value. A non-zero result needs a non-empty input, and it is negative exactly when the input starts with "-". |
| `StrConv.AtoiItoa` | notification/telnyx/handler.go:41 | Every 64-bit integer is read back exactly from its decimal text. |
| `StrConv.AtoiNoDigits` | notification/telnyx/handler.go:40-41 | A value without digits, including an absent one, parses as 0. |
| `StrConv.AtoiDecimal` | notification/telnyx/handler.go:41 | A digit string preceded by "-", "+" or no sign is read as its signed value, clamped to the 64-bit range. |
| `StrConv.AtoiEarlyNonDigit` | notification/telnyx/handler.go:41 | A non-digit in the first 19 bytes, other than a leading sign, makes the result 0. |
| `StrConv.AtoiOverflowBeforeNonDigit` | notification/telnyx/handler.go:41 | Once the leading digits exceed 64 bits, the result is the largest 64-bit value, whatever bytes follow. Overflow is reported before a later syntax error. |
| `GoStrings.JoinAt` | notification/telnyx/exception.go:25 | `strings.Join` keeps every part, verbatim and in order, one separator apart. |
| `SmsDest.OutgoingFor` | notification/telnyx/nfydesksms.go:98-118 | Test sends "GoAlert Test Message". Alert sends the alert SMS text. Verification sends "Your GoAlert verification code is: " followed by the rendered code. For Test and Verification an unreadable destination returns `getDest`'s error unchanged. For Alert it returns `SendSMSAlert`'s wrapped error. An unsupported kind is an error. The destination must be a string, and the message goes to it. |
| `SmsDest.Send` | notification/telnyx/nfydesksms.go:85-119 | When `OutgoingFor` fails, nothing is sent and its error is returned. Otherwise exactly one message is sent and its answer is mapped. Alerts take `SendSMSAlert`'s path. |
| `SmsDest.AlertSMSWithinLimit` | notification/telnyx/nfydesksms.go:106-107 | No alert SMS this provider sends exceeds 160 bytes. |

## Left out

- Go strings are modelled as byte sequences. The model makes no claim about UTF-8: cutting at byte 157 may split a character, exactly as the source does.
- Base64 decoding (section 4 of RFC 4648) and Ed25519 verification (section 5.1.7 of RFC 8032) are parameters and not interpreted. So the model cannot state that tampering with one byte makes verification fail. Go's `ed25519.Verify` panics when the decoded key is not 32 bytes long. The verifier parameter is total, so that panic is not modelled.
- `Handler.ServeHTTP` (handler.go:26-81) never calls `ValidateSignature`, so webhook requests are answered without a signature check. The model keeps the two apart.
- The adapter has no DTMF menu and no inbound-SMS keyword handling (STOP, START, close, acknowledge). The webhook reads only `type`, `alertID` and `code` from the query.
- Only `SendSMSAlert` truncates to 160 bytes (clientsms.go:30-32). `SendSMS` sends test and verification bodies verbatim (sms.go:32-36). No limit is stated for those.
- XML encoding and the HTTP 500 path when encoding fails are not modelled. The response is the `Response`/`SayVerb` value.
- The console log on a failed alert lookup is not modelled, and neither is context cancellation.
- URL handling (`url.Parse`, `Query().Encode()`, the provider echoing the URL, `r.URL.Query()`) is abstracted to one map from key to value. This assumes the provider gives back the query unchanged. A key with several values in the base callback is not represented. When `url.Parse` fails on the base callback, `addParams` gets a nil `*url.URL` and `u.Query()` panics (nfydestvoice.go:94-95). The model assumes the configured callback URL parses, so this panic is not modelled.
- `postJSON` keeps only these parts: the URL, the client, the Authorization header, the status-400 branch and the body decoding. JSON encoding of the payload, request construction errors, the Content-Type and Accept headers and closing the body are not modelled. The provider's answers are the oracles `exchanges` and `calls`.
- `MakeCall`'s Telnyx SDK call and its re-parse of the raw JSON to get `sid` are one oracle result.
- SmsDest.OutgoingFor: the rendering of the verification code in the SMS (`%d` on `m.Code`) is the parameter `formatCode`. The voice path uses the code as a string, so the two files disagree about the code's type.
- `Dest.Value()` is a foreign call. Its result is the `DestValue` given with the message.
- `ID`, `TypeInfo` and `DisplayInfo` (the constant type names, UI metadata and phone-number formatting) are not modelled. `phonenumbers.Parse` and `IsValidNumber` are the parameter `checkPhone` of `ValidateField`.
- `FetchCarrier` (carrier.go), `NewVoice`, `NewHandler` and the types in call.go are not modelled: they hold no logic of their own.
- The notification package is not part of this model. Its delivery states are taken as Sending, Sent, Delivered, FailedTemp and FailedPerm.
