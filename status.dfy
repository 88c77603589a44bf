/** The provider's message resource and the mapping of its status to a delivery state (message.go). */
module Status {
  import opened GoStrings
  import opened Notification

  /** MessageResponse.Data: the fields the adapter reads. */
  datatype MessageResponse = MessageResponse(id: Bytes, from: Bytes, text: Bytes, status: Bytes)

  /** mapStatus: exact, case-sensitive matching of the provider status; any
      unrecognised status counts as sent. */
  function MapStatus(s: Bytes): (st: State)
    ensures st != FailedTemp
    ensures st == Sending <==> s == Str("queued") || s == Str("sending")
    ensures st == Delivered <==> s == Str("delivered")
    ensures st == FailedPerm <==> s == Str("failed") || s == Str("undelivered")
    ensures st == Sent <==> s !in KnownStatuses - {Str("sent")}
  {
    assert Str("queued")[0] != Str("failed")[0];
    if s == Str("queued") || s == Str("sending") then Sending
    else if s == Str("sent") then Sent
    else if s == Str("delivered") then Delivered
    else if s == Str("failed") || s == Str("undelivered") then FailedPerm
    else Sent
  }

  /** The statuses mapStatus names explicitly. */
  const KnownStatuses: set<Bytes> :=
    {Str("queued"), Str("sending"), Str("sent"), Str("delivered"), Str("failed"), Str("undelivered")}

  /** The states mapStatus can produce: never a temporary failure. */
  const Range: set<State> := {Sending, Sent, Delivered, FailedPerm}

  lemma MapStatusRange(s: Bytes)
    ensures MapStatus(s) in Range
  {
  }

  /** Matching is exact: a capitalised status is unknown and falls back to sent. */
  lemma MapStatusCaseSensitive()
    ensures MapStatus(Str("Delivered")) == Sent
    ensures MapStatus(Str("FAILED")) == Sent
    ensures MapStatus(Str("")) == Sent
  {
    assert Str("Delivered")[0] != Str("delivered")[0];
  }

  /** Each state of the range is reached, so the range is exactly four states. */
  lemma MapStatusOnto()
    ensures MapStatus(Str("queued")) == Sending && MapStatus(Str("sending")) == Sending
    ensures MapStatus(Str("sent")) == Sent
    ensures MapStatus(Str("delivered")) == Delivered
    ensures MapStatus(Str("failed")) == FailedPerm && MapStatus(Str("undelivered")) == FailedPerm
  {
  }
}
