/**
 * The older data model and handler of backend/src/lib.rs. Its result type
 * has the same fields as the library's and its `PartialEq` is the same
 * comparison (`Results.SameResult`); what differs is `SearchResult::new`,
 * which propagates the URL parser's own error instead of mapping it to
 * `ParseFailed`.
 */
module Backend {
  import opened Common
  import opened Foreign
  import opened Errors
  import opened Results
  import opened Aggregation

  /**
   * The backend's `SearchResult::new`: the `?` on `Url::parse` hands the
   * parser's error on unchanged; a parsed URL gives a result with score 0,
   * the title and description verbatim and the one source.
   */
  function NewResult(parseUrl: string -> Result<Url, string>,
                     url: string, title: string, description: string, source: string)
    : (r: Result<SearchResult, string>)
    ensures r.Err? <==> parseUrl(url).Err?
    ensures r.Err? ==> r.error == parseUrl(url).error
    ensures r.Ok? ==> r.value.url == parseUrl(url).value
    ensures r.Ok? ==> r.value.title == title && r.value.description == description
    ensures r.Ok? ==> r.value.score == 0.0 && r.value.sources == [source]
  {
    match parseUrl(url)
    case Err(e) => Err(e)
    case Ok(u) => Ok(SearchResult(u, title, description, 0.0, [source]))
  }

  /**
   * The two versions of `SearchResult::new` build the same result from the
   * same arguments and fail on the same inputs; only the error differs.
   */
  lemma NewResultMatchesLibrary(parseUrl: string -> Result<Url, string>,
                                url: string, title: string, description: string, source: string)
    ensures NewResult(parseUrl, url, title, description, source).Ok? <==>
            NewSearchResult(parseUrl, url, title, description, source).Ok?
    ensures NewResult(parseUrl, url, title, description, source).Ok? ==>
            NewResult(parseUrl, url, title, description, source).value ==
            NewSearchResult(parseUrl, url, title, description, source).value
    ensures NewResult(parseUrl, url, title, description, source).Err? ==>
            NewSearchResult(parseUrl, url, title, description, source) == Err(ParseFailed)
  {
  }

  /**
   * The backend handler. Its engine handler (backend/src/handler.rs) is not
   * part of this model: what it gathers is the input `raw` and `errors`.
   */
  datatype Handler = Handler(aggregator: Aggregator) {

    /**
     * `Handler::search`: the gathered lists go through the aggregator and
     * the errors are returned as gathered.
     */
    method Search(raw: seq<seq<SearchResult>>, errors: seq<EngineError>)
      returns (results: seq<SearchResult>, engineErrors: seq<EngineError>)
      requires SourcesNonEmpty(raw)
      ensures engineErrors == errors
      ensures multiset(results) == multiset(Merge(aggregator.Scored(raw)))
      ensures SortedByScore(results) && DistinctUrls(results)
      ensures Urls(results) == InputUrls(raw)
      ensures SumScores(results) == SumScores(aggregator.Scored(raw))
    {
      results := aggregator.Process(raw);
      engineErrors := errors;
    }
  }
}
