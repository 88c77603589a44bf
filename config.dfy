/** The adapter's HTTP settings and the joining of API paths onto the base URL (config.go). */
module Endpoint {
  import opened Wrappers
  import opened GoStrings

  const DefaultBaseURL: Bytes := Str("https://api.telnyx.com/v2")
  const Slash: Bytes := Str("/")

  /** An *http.Client; `DefaultClient` is http.DefaultClient. */
  datatype HttpClient = DefaultClient | CustomClient(name: Bytes)

  /** telnyx.Config: the API base URL ("" for the default) and an optional client. */
  datatype Config = Config(baseURL: Bytes, client: Option<HttpClient>)

  function Base(cfg: Config): (b: Bytes)
    ensures cfg.baseURL == [] ==> b == DefaultBaseURL
    ensures cfg.baseURL != [] ==> b == cfg.baseURL
  {
    if cfg.baseURL == [] then DefaultBaseURL else cfg.baseURL
  }

  /** Config.url: the base without one trailing "/", a "/", and the path without one leading "/". */
  function Url(cfg: Config, path: Bytes): (u: Bytes)
    ensures HasSuffix(Base(cfg), Slash) ==> u == Base(cfg) + TrimPrefix(path, Slash)
    ensures !HasSuffix(Base(cfg), Slash) ==> u == Base(cfg) + Slash + TrimPrefix(path, Slash)
    ensures HasPrefix(path, Slash) ==> HasSuffix(u, path)
    ensures !HasPrefix(path, Slash) ==> HasSuffix(u, Slash + path)
  {
    TrimSuffix(Base(cfg), Slash) + Slash + TrimPrefix(path, Slash)
  }

  /** Config.httpClient: the configured client, or http.DefaultClient when none is set. */
  function Client(cfg: Config): (c: HttpClient)
    ensures cfg.client.Some? ==> c == cfg.client.value
    ensures cfg.client.None? ==> c == DefaultClient
  {
    match cfg.client
    case Some(c) => c
    case None => DefaultClient
  }

  /** One optional slash on either side of the join makes no difference. */
  lemma UrlSlashOptional(base: Bytes, path: Bytes, client: Option<HttpClient>)
    requires base != [] && !HasSuffix(base, Slash) && !HasPrefix(path, Slash)
    ensures Url(Config(base + Slash, client), Slash + path) == Url(Config(base, client), path)
    ensures Url(Config(base, client), path) == base + Slash + path
  {
    assert HasSuffix(base + Slash, Slash);
    assert (base + Slash)[..|base|] == base;
    assert HasPrefix(Slash + path, Slash);
    assert (Slash + path)[1..] == path;
  }

  /** Only one slash is trimmed on each side: a doubled slash leaves one behind. */
  lemma UrlTrimsOnlyOneSlash(base: Bytes, path: Bytes, client: Option<HttpClient>)
    requires base != [] && !HasPrefix(path, Slash)
    ensures Url(Config(base + Slash + Slash, client), Slash + Slash + path) ==
      base + Slash + Slash + Slash + path
  {
    var b := base + Slash + Slash;
    assert |Slash| == 1;
    assert b[|b| - 1..] == Slash;
    assert b[..|b| - 1] == base + Slash;
    var p := Slash + Slash + path;
    assert p[..1] == Slash;
    assert p[1..] == Slash + path;
  }

  /** With no base configured, the messages endpoint is the public v2 API. */
  lemma DefaultMessagesUrl(client: Option<HttpClient>)
    ensures Url(Config([], client), Str("messages")) == Str("https://api.telnyx.com/v2/messages")
  {
    var b := DefaultBaseURL;
    assert !HasSuffix(b, Slash) by { assert b[|b| - 1] != Slash[0]; }
    assert !HasPrefix(Str("messages"), Slash) by { assert Str("messages")[0] != Slash[0]; }
    StrConcat("https://api.telnyx.com/v2", "/");
    StrConcat("https://api.telnyx.com/v2/", "messages");
  }
}
