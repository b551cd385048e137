/** The query and result data model of lib/src/lib.rs. */
module Results {
  import opened Common
  import opened Foreign
  import opened Errors

  datatype SafeSearchLevel =
    | Off     // no filtering
    | Medium  // the engines are asked to filter
    | High    // Medium plus internal allow and block lists

  /** Time relevancy of a query. */
  datatype Relevancy = AnyTime | PastDay | PastWeek | PastMonth | PastYear

  /** Document type to search for; only `Text` is implemented by the engines. */
  datatype QueryType = Text | Image | File

  datatype Query = Query(
    text: string,
    qtype: QueryType,
    page: Option<u16>,
    /** When absent, the handler's default level is used. */
    safeSearchLevel: Option<SafeSearchLevel>,
    relevancy: Option<Relevancy>)

  /** A search result; `sources` lists the engines that suggested it. */
  datatype SearchResult = SearchResult(
    url: Url,
    title: string,
    description: string,
    score: real,
    sources: seq<string>)

  /**
   * `SearchResult::new`: parses the URL (a failure is `ParseFailed`), copies
   * title and description verbatim, starts at score 0 and records exactly
   * one source.
   */
  function NewSearchResult(
    parseUrl: string -> Result<Url, string>,
    url: string, title: string, description: string, source: string
  ): (r: Result<SearchResult, EngineErrorType>)
    ensures r.Err? <==> parseUrl(url).Err?
    ensures r.Err? ==> r.error == ParseFailed
    ensures r.Ok? ==> r.value.url == parseUrl(url).value
    ensures r.Ok? ==> r.value.title == title && r.value.description == description
    ensures r.Ok? ==> r.value.score == 0.0 && r.value.sources == [source]
  {
    match parseUrl(url)
    case Err(_) => Err(ParseFailed)
    case Ok(u) => Ok(SearchResult(u, title, description, 0.0, [source]))
  }

  /** Only results whose URL has a host can be compared: `eq` unwraps both hosts. */
  predicate HasHost(r: SearchResult) {
    r.url.host.Some?
  }

  /**
   * `PartialEq for SearchResult`: the same host, path and query. The scheme,
   * title, description, score and sources are not compared.
   */
  predicate SameResult(a: SearchResult, b: SearchResult)
    requires HasHost(a) && HasHost(b)
  {
    a.url.host.value == b.url.host.value && a.url.path == b.url.path && a.url.query == b.url.query
  }

  /** Results that differ in the URL's scheme only are equal. */
  lemma SameResultIgnoresScheme(a: SearchResult, scheme: string)
    requires HasHost(a)
    ensures SameResult(a, a.(url := a.url.(scheme := scheme)))
    ensures SameResult(a.(url := a.url.(scheme := scheme)), a)
  {
  }

  /** On results with a host, `SameResult` is an equivalence relation. */
  lemma SameResultIsEquivalence(a: SearchResult, b: SearchResult, c: SearchResult)
    requires HasHost(a) && HasHost(b) && HasHost(c)
    ensures SameResult(a, a)
    ensures SameResult(a, b) ==> SameResult(b, a)
    ensures SameResult(a, b) && SameResult(b, c) ==> SameResult(a, c)
  {
  }

  /**
   * Two URLs that are the same result but differ in scheme are different
   * `Url` values, so a table keyed by `Url` holds them apart.
   */
  lemma SchemeVariantsAreDistinctUrls(a: SearchResult, b: SearchResult)
    requires HasHost(a) && HasHost(b) && SameResult(a, b) && a.url.scheme != b.url.scheme
    ensures a.url != b.url
  {
  }
}
