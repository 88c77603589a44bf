/**
 * Helpers written out twice in the source, once in each destination provider
 * (nfydestvoice.go and nfydesksms.go): reading the destination number, the
 * field validation switch, and the status query.
 */
module Destination {
  import opened Wrappers
  import opened GoStrings
  import opened Notification

  const FieldPhoneNumber: Bytes := Str("phone_number")

  /** extractDest / getDest: the destination string; a lookup error is passed
      on unchanged and a non-string value is rejected with its type. */
  function ExtractDest(d: DestValue): (r: Result<Bytes, Error>)
    ensures d.StringValue? <==> r.Success?
    ensures d.StringValue? ==> r.value == d.s
    ensures d.ValueError? ==> r == Failure(d.err)
    ensures d.OtherValue? ==> r == Failure(Text(Str("telnyx: invalid destination type ") + d.typeName))
  {
    match d
    case ValueError(e) => Failure(e)
    case StringValue(s) => Success(s)
    case OtherValue(t) => Failure(Text(Str("telnyx: invalid destination type ") + t))
  }

  /** What phonenumbers.Parse and IsValidNumber make of a value. */
  datatype PhoneCheck = ParseFailed(err: Error) | Parsed(valid: bool)

  /** validation.WrapError and validation.NewGenericError. */
  datatype FieldError = WrappedError(err: Error) | GenericError(text: Bytes)

  /** ValidateField: only the phone-number field is known; None means valid. */
  function ValidateField(fieldID: Bytes, value: Bytes, checkPhone: Bytes -> PhoneCheck): (r: Option<FieldError>)
    ensures fieldID != FieldPhoneNumber ==> r == Some(GenericError(Str("unknown field ID")))
    ensures fieldID == FieldPhoneNumber ==>
      r == match checkPhone(value)
           case ParseFailed(e) => Some(WrappedError(e))
           case Parsed(valid) => if valid then None else Some(GenericError(Str("invalid phone number")))
  {
    if fieldID == FieldPhoneNumber then
      match checkPhone(value)
      case ParseFailed(e) => Some(WrappedError(e))
      case Parsed(valid) => if valid then None else Some(GenericError(Str("invalid phone number")))
    else Some(GenericError(Str("unknown field ID")))
  }

  /** notification.Status, which neither provider ever produces. */
  datatype DeliveryStatus = DeliveryStatus(state: State, details: Bytes)

  /** Status: always (nil, nil), whatever the ids. */
  function Status(id: Bytes, providerID: Bytes): (r: (Option<DeliveryStatus>, Option<Error>))
    ensures r.0 == None && r.1 == None
  {
    (None, None)
  }
}
