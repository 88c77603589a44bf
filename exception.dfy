/** The provider's error body and its rendering as one Go error (exception.go). */
module ApiErrors {
  import opened Wrappers
  import opened GoStrings
  import opened Notification

  const ErrorPrefix: Bytes := Str("telnyx: ")
  const EntrySeparator: Bytes := Str(", ")
  const ParseFailPrefix: Bytes := Str("telnyx: unknown error (parse fail): ")

  /** `fmt.Sprintf("%s: %s", err.Code, err.Detail)`: the title is not used. */
  function Entry(e: APIError): Bytes {
    e.code + Str(": ") + e.detail
  }

  /** The rendered entries, in the order of the error list. */
  function Entries(errors: seq<APIError>): (r: seq<Bytes>)
    ensures |r| == |errors|
    ensures forall i :: 0 <= i < |errors| ==> r[i] == Entry(errors[i])
  {
    if errors == [] then [] else Entries(errors[..|errors| - 1]) + [Entry(errors[|errors| - 1])]
  }

  /** The message of an APIErrorResponse. */
  function ErrorText(resp: APIErrorResponse): Bytes {
    ErrorPrefix + Join(Entries(resp.errors), EntrySeparator)
  }

  /** APIErrorResponse.Error: collects the rendered entries one by one, then
      joins them after the "telnyx: " prefix. */
  method Error(resp: APIErrorResponse) returns (s: Bytes)
    ensures s == ErrorText(resp)
  {
    var msgs: seq<Bytes> := [];
    var i := 0;
    while i < |resp.errors|
      invariant 0 <= i <= |resp.errors|
      invariant msgs == Entries(resp.errors[..i])
    {
      assert resp.errors[..i + 1][..i] == resp.errors[..i];
      msgs := msgs + [Entry(resp.errors[i])];
      i := i + 1;
    }
    assert resp.errors[..i] == resp.errors;
    s := ErrorPrefix + Join(msgs, EntrySeparator);
  }

  /** Where entry `i` starts in the message. */
  function EntryOffset(resp: APIErrorResponse, i: nat): nat
    requires i < |resp.errors|
  {
    |ErrorPrefix| + JoinOffset(Entries(resp.errors), EntrySeparator, i)
  }

  /** Every entry appears as "code: detail" at its offset, and the entries
      follow each other in list order, one separator apart. */
  lemma ErrorTextEntry(resp: APIErrorResponse, i: nat)
    requires i < |resp.errors|
    ensures var s := ErrorText(resp);
      var k := EntryOffset(resp, i);
      var e := resp.errors[i];
      && k + |Entry(e)| <= |s|
      && s[k..k + |e.code|] == e.code
      && s[k..k + |Entry(e)|] == Entry(e)
    ensures i + 1 < |resp.errors| ==>
      EntryOffset(resp, i + 1) == EntryOffset(resp, i) + |Entry(resp.errors[i])| + |EntrySeparator|
  {
    var parts := Entries(resp.errors);
    JoinAt(parts, EntrySeparator, i);
    var e := resp.errors[i];
    assert parts[i] == Entry(e);
    PlacedAfterPrefix(ErrorPrefix, Join(parts, EntrySeparator), JoinOffset(parts, EntrySeparator, i), Entry(e), e.code);
  }

  /** A piece found at offset `j` of `joined` is found `|prefix|` further on
      in `prefix + joined`, and so is any prefix of the piece. */
  lemma PlacedAfterPrefix(prefix: Bytes, joined: Bytes, j: nat, piece: Bytes, head: Bytes)
    requires j + |piece| <= |joined|
    requires joined[j..j + |piece|] == piece
    requires |head| <= |piece| && piece[..|head|] == head
    ensures (prefix + joined)[|prefix| + j..|prefix| + j + |piece|] == piece
    ensures (prefix + joined)[|prefix| + j..|prefix| + j + |head|] == head
  {
    var s := prefix + joined;
    var k := |prefix| + j;
    assert forall t :: 0 <= t < |piece| ==> s[k + t] == joined[j + t] == piece[t];
    assert forall t :: 0 <= t < |head| ==> s[k + t] == piece[t] == head[t];
  }

  /** The message always starts with "telnyx: "; with no entries it is exactly that. */
  lemma ErrorTextPrefix(resp: APIErrorResponse)
    ensures HasPrefix(ErrorText(resp), ErrorPrefix)
    ensures resp.errors == [] ==> ErrorText(resp) == ErrorPrefix
  {
  }

  /** Titles never reach the message: responses that differ only in their
      titles render the same. */
  lemma {:induction false} ErrorTextIgnoresTitles(r1: APIErrorResponse, r2: APIErrorResponse)
    requires |r1.errors| == |r2.errors|
    requires forall i :: 0 <= i < |r1.errors| ==>
      r1.errors[i].code == r2.errors[i].code && r1.errors[i].detail == r2.errors[i].detail
    ensures ErrorText(r1) == ErrorText(r2)
  {
    var e1 := Entries(r1.errors);
    var e2 := Entries(r2.errors);
    assert forall i :: 0 <= i < |e1| ==> e1[i] == e2[i];
    assert e1 == e2;
  }

  /** A single provider error: its code shows in the message, which is then
      "telnyx: <code>: <detail>". */
  lemma SingleErrorText(e: APIError)
    ensures ErrorText(APIErrorResponse([e])) == ErrorPrefix + e.code + Str(": ") + e.detail
  {
  }

  /** DecodeError: never nil. The parsed response when the body parses,
      otherwise an "unknown error (parse fail)" carrying the JSON error text. */
  function DecodeError(parsed: Result<APIErrorResponse, Bytes>): (err: Error)
    ensures parsed.Success? ==> err == Api(parsed.value)
    ensures parsed.Failure? ==> err == Text(ParseFailPrefix + parsed.error)
  {
    match parsed
    case Success(resp) => Api(resp)
    case Failure(jsonErr) => Text(ParseFailPrefix + jsonErr)
  }
}
