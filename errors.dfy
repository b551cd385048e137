/** The two-level error taxonomy of lib/src/errors.rs and its Display texts. */
module Errors {
  import opened Common
  import opened Foreign
  import opened Strings

  /** Transport failures. */
  datatype NetworkError =
    | ProxyError(address: string)
    | ConnectionTimeout(host: string)
    | Unknown(message: string)

  /** Scraping, parsing and orchestration failures; `Network` wraps a transport failure. */
  datatype EngineErrorType =
    | ParseFailed
    | Ratelimited
    | NoResults
    | ExecFailed
    | Unknown(message: string)
    | Network(cause: NetworkError)

  /** An engine's name paired with exactly one failure. */
  datatype EngineError = EngineError(engine: string, source: EngineErrorType)

  /** What the core reads of a `reqwest::Error`. */
  datatype TransportError = TransportError(isTimeout: bool, url: Option<Url>, text: string)

  /**
   * `From<reqwest::Error> for NetworkError`. A timeout names the host of the
   * request URL; the code unwraps both the URL and its host, so a timeout
   * without them is not something the callers may hand over.
   */
  function FromTransport(e: TransportError): (r: NetworkError)
    requires e.isTimeout ==> e.url.Some? && e.url.value.host.Some?
    ensures r.ConnectionTimeout? <==> e.isTimeout
    ensures r.ConnectionTimeout? ==> r.host == e.url.value.host.value
    ensures !e.isTimeout ==> r == NetworkError.Unknown(e.text)
    ensures !r.ProxyError?
  {
    if e.isTimeout then ConnectionTimeout(e.url.value.host.value) else NetworkError.Unknown(e.text)
  }

  /** `From<NetworkError> for EngineErrorType` (the `#[from]` on `Network`). */
  function FromNetwork(e: NetworkError): (r: EngineErrorType)
    ensures r.Network? && r.cause == e
  {
    Network(e)
  }

  const ProxyPrefix: string := "Could not connect to proxy: "
  const TimeoutPrefix: string := "Request to "
  const TimeoutSuffix: string := " has timed out."
  const UnknownPrefix: string := "Unknown error occured: "

  /** Display of `NetworkError`. */
  function NetworkErrorMessage(e: NetworkError): string {
    match e
    case ProxyError(a) => ProxyPrefix + a
    case ConnectionTimeout(h) => TimeoutPrefix + h + TimeoutSuffix
    case Unknown(m) => UnknownPrefix + m
  }

  /** Display of `EngineErrorType`. */
  function EngineErrorTypeMessage(e: EngineErrorType): string {
    match e
    case ParseFailed => "Failed to parse"
    case Ratelimited => "Ratelimited by upstream engine"
    case NoResults => "No results returned for query"
    case ExecFailed => "Failed to spawn search task"
    case Unknown(m) => UnknownPrefix + m
    case Network(_) => "Network error occured"
  }

  /**
   * Display of `EngineError`. The format string writes `engine` between
   * backticks but does not interpolate it, so the text is the same for every
   * engine.
   */
  function EngineErrorMessage(e: EngineError): string {
    "`engine` failed to fetch results"
  }

  lemma EngineErrorMessageIgnoresFields(a: EngineError, b: EngineError)
    ensures EngineErrorMessage(a) == EngineErrorMessage(b)
  {
  }

  /** Different network errors never display the same text. */
  lemma NetworkMessagesDistinct(a: NetworkError, b: NetworkError)
    requires NetworkErrorMessage(a) == NetworkErrorMessage(b)
    ensures a == b
  {
    var m := NetworkErrorMessage(a);
    assert m == NetworkErrorMessage(b);
    assert m[0] == NetworkErrorMessage(b)[0];
    match a
    case ProxyError(x) =>
      assert m[0] == 'C';
      assert b.ProxyError?;
      assert x == m[|ProxyPrefix|..] == b.address;
    case ConnectionTimeout(x) =>
      assert m[0] == 'R';
      assert b.ConnectionTimeout?;
      assert |x| == |m| - |TimeoutPrefix| - |TimeoutSuffix| == |b.host|;
      assert x == m[|TimeoutPrefix|..|TimeoutPrefix| + |x|] == b.host;
    case Unknown(x) =>
      assert m[0] == 'U';
      assert b.Unknown?;
      assert x == m[|UnknownPrefix|..] == b.message;
  }

  /** A timeout's text names the host between the fixed prefix and suffix. */
  lemma TimeoutMessageNamesHost(h: string)
    ensures StartsWith(NetworkErrorMessage(ConnectionTimeout(h)), TimeoutPrefix)
    ensures NetworkErrorMessage(ConnectionTimeout(h))[|TimeoutPrefix|..|TimeoutPrefix| + |h|] == h
    ensures NetworkErrorMessage(ConnectionTimeout(h))[|TimeoutPrefix| + |h|..] == TimeoutSuffix
  {
    var m := NetworkErrorMessage(ConnectionTimeout(h));
    assert m[..|TimeoutPrefix|] == TimeoutPrefix;
  }
}
