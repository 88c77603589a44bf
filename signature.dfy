/**
 * Webhook signature check (signature.go): both headers must be present, the
 * configured public key and the header signature are base64-decoded, and the
 * Ed25519 signature must cover the timestamp bytes followed by the raw body.
 * Base64 decoding (section 4 of RFC 4648) and Ed25519 verification (section
 * 5.1.7 of RFC 8032) are parameters: the model does not interpret them.
 */
module Signature {
  import opened Wrappers
  import opened GoStrings
  import opened UrlValues

  const SignatureHeader: Bytes := Str("X-Telnyx-Signature-Ed25519")
  const TimestampHeader: Bytes := Str("X-Telnyx-Timestamp")

  /** base64.StdEncoding.DecodeString: the decoded bytes, or None on a decode error. */
  type Base64Decoder = Bytes -> Option<Bytes>

  /** ed25519.Verify(publicKey, message, signature) */
  type Ed25519Verifier = (Bytes, Bytes, Bytes) -> bool

  const ErrorPrefix: Bytes := Str("telnyx: ")

  datatype SignatureError = MissingHeaders | InvalidPublicKey | InvalidSignatureEncoding | ValidationFailed

  /** The text of each error the check returns. */
  function ErrorText(e: SignatureError): (t: Bytes)
    ensures HasPrefix(t, ErrorPrefix)
  {
    ErrorPrefix + match e
      case MissingHeaders => Str("missing signature headers")
      case InvalidPublicKey => Str("invalid public key configuration")
      case InvalidSignatureEncoding => Str("invalid signature encoding")
      case ValidationFailed => Str("signature validation failed")
  }

  /** The four failures are told apart by their texts. */
  lemma ErrorTextInjective(e1: SignatureError, e2: SignatureError)
    requires e1 != e2
    ensures ErrorText(e1) != ErrorText(e2)
  {
    assert |ErrorText(e1)| != |ErrorText(e2)|;
  }

  /** The signed message: the timestamp, then the body, in a new buffer. */
  function SignedPayload(timestamp: Bytes, body: Bytes): (p: Bytes)
    ensures |p| == |timestamp| + |body|
    ensures HasPrefix(p, timestamp) && p[|timestamp|..] == body
  {
    timestamp + body
  }

  /** ValidateSignature: None when the request is authentic (Go's nil error),
      otherwise the first failing check. `header` maps canonical header names to
      their first value, as http.Header.Get reads it. */
  function ValidateSignature(header: Values, body: Bytes, publicKey: Bytes,
                             decode: Base64Decoder, verify: Ed25519Verifier): (r: Option<SignatureError>)
    ensures r == None <==>
      && Get(header, SignatureHeader) != [] && Get(header, TimestampHeader) != []
      && decode(publicKey).Some? && decode(Get(header, SignatureHeader)).Some?
      && verify(decode(publicKey).value, SignedPayload(Get(header, TimestampHeader), body),
                decode(Get(header, SignatureHeader)).value)
    ensures Get(header, SignatureHeader) == [] || Get(header, TimestampHeader) == [] ==>
      r == Some(MissingHeaders)
    ensures Get(header, SignatureHeader) != [] && Get(header, TimestampHeader) != [] ==>
      && (decode(publicKey).None? ==> r == Some(InvalidPublicKey))
      && (decode(publicKey).Some? && decode(Get(header, SignatureHeader)).None? ==>
            r == Some(InvalidSignatureEncoding))
    ensures (&& Get(header, SignatureHeader) != [] && Get(header, TimestampHeader) != []
             && decode(publicKey).Some? && decode(Get(header, SignatureHeader)).Some?
             && !verify(decode(publicKey).value, SignedPayload(Get(header, TimestampHeader), body),
                        decode(Get(header, SignatureHeader)).value)) ==>
      r == Some(ValidationFailed)
  {
    var sigHeader := Get(header, SignatureHeader);
    var timestamp := Get(header, TimestampHeader);
    if sigHeader == [] || timestamp == [] then Some(MissingHeaders)
    else match decode(publicKey)
      case None => Some(InvalidPublicKey)
      case Some(pubKey) =>
        match decode(sigHeader)
        case None => Some(InvalidSignatureEncoding)
        case Some(sig) =>
          if !verify(pubKey, SignedPayload(timestamp, body), sig) then Some(ValidationFailed) else None
  }

  /** With a header missing nothing is decoded or verified: the outcome is the
      same whatever the decoder and the verifier are. */
  lemma MissingHeadersDecodeNothing(header: Values, body: Bytes, publicKey: Bytes,
                                    d1: Base64Decoder, v1: Ed25519Verifier,
                                    d2: Base64Decoder, v2: Ed25519Verifier)
    requires Get(header, SignatureHeader) == [] || Get(header, TimestampHeader) == []
    ensures ValidateSignature(header, body, publicKey, d1, v1) ==
            ValidateSignature(header, body, publicKey, d2, v2) == Some(MissingHeaders)
  {
  }

  /** The public key is decoded before the signature: a bad key is reported
      whatever the signature header holds. */
  lemma PublicKeyCheckedFirst(header: Values, body: Bytes, publicKey: Bytes,
                              decode: Base64Decoder, verify: Ed25519Verifier)
    requires Get(header, SignatureHeader) != [] && Get(header, TimestampHeader) != []
    requires decode(publicKey).None?
    requires decode(Get(header, SignatureHeader)).None?
    ensures ValidateSignature(header, body, publicKey, decode, verify) == Some(InvalidPublicKey)
  {
  }
}
