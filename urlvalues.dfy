/**
 * The parts of net/url the adapter relies on. A query is a finite map from key
 * to value: `Set` replaces a key's value and `Get` yields "" for a missing key.
 * A URL is its location (scheme, host, path) and its query.
 */
module UrlValues {
  import opened GoStrings

  type Values = map<Bytes, Bytes>

  datatype URL = URL(location: Bytes, query: Values)

  /** url.Values.Get: the value stored under `key`, or "" when there is none. */
  function Get(q: Values, key: Bytes): (v: Bytes)
    ensures key !in q ==> v == []
    ensures key in q ==> v == q[key]
  {
    if key in q then q[key] else []
  }
}
