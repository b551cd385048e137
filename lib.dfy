/**
 * The library's entry point of lib/src/lib.rs: a handler owning the
 * aggregator, the engine handler and the default safe-search level, whose
 * `search` gathers every engine's results and aggregates them.
 */
module Lib {
  import opened Common
  import opened Errors
  import opened Foreign
  import opened Results
  import opened EngineBase
  import opened Engines
  import opened Aggregation
  import opened EngineHandling

  /** What a search returns: the aggregated results and the engines' errors. */
  datatype QueryResult = QueryResult(results: seq<SearchResult>, errors: seq<EngineError>)

  datatype Handler = Handler(aggregator: Aggregator, engineHandler: EngineHandler, safeSearchLevel: SafeSearchLevel) {

    /**
     * The `get_or_insert` on the query's level: a level the query names is
     * kept, an absent one becomes the handler's default; nothing else of
     * the query changes.
     */
    function EffectiveQuery(q: Query): (r: Query)
      ensures r.safeSearchLevel.Some?
      ensures q.safeSearchLevel.Some? ==> r.safeSearchLevel == q.safeSearchLevel
      ensures q.safeSearchLevel.None? ==> r.safeSearchLevel == Some(safeSearchLevel)
      ensures r.text == q.text && r.qtype == q.qtype && r.page == q.page && r.relevancy == q.relevancy
    {
      if q.safeSearchLevel.Some? then q else q.(safeSearchLevel := Some(safeSearchLevel))
    }

    /**
     * The engine handler's answer for a query: every registered engine run
     * on the query's text and page (page 1 when it names none), joined in
     * `order`.
     */
    function Gathered(libs: Libs, fetches: seq<Fetch>, order: seq<nat>, q: Query): (g: (seq<seq<SearchResult>>, seq<EngineError>))
      requires |fetches| == |engineHandler.engines| && PageInRangeForAll(UnwrapOr(q.page, 1))
      requires IsCompletionOrder(order, |engineHandler.engines|)
      ensures SourcesNonEmpty(g.0)
    {
      var page := UnwrapOr(q.page, 1);
      var g := Partition(InOrder(engineHandler.engines, Outcomes(engineHandler.engines, libs, fetches, page, q.text), order));
      GatheredSourcesNonEmpty(engineHandler.engines, libs, fetches, page, q.text, order, g.0);
      g
    }

    /**
     * `Handler::search`: default the safe-search level, gather the engines'
     * result lists and errors, and aggregate the lists. The errors are
     * passed through as the engine handler reports them; the results are the
     * merged, scored and sorted lists, every input URL once.
     */
    method Search(libs: Libs, fetches: seq<Fetch>, order: seq<nat>, query: Query) returns (qr: QueryResult)
      requires |fetches| == |engineHandler.engines| && PageInRangeForAll(UnwrapOr(query.page, 1))
      requires IsCompletionOrder(order, |engineHandler.engines|)
      ensures var g := Gathered(libs, fetches, order, query);
              && qr.errors == g.1
              && multiset(qr.results) == multiset(Merge(aggregator.Scored(g.0)))
              && SortedByScore(qr.results)
              && DistinctUrls(qr.results)
              && Urls(qr.results) == InputUrls(g.0)
              && SumScores(qr.results) == SumScores(aggregator.Scored(g.0))
              && (qr.results == [] <==> forall i :: 0 <= i < |g.0| ==> g.0[i] == [])
    {
      var q := EffectiveQuery(query);
      var rawResults, errors := EngineHandling.Search(engineHandler, libs, fetches, order,
                                                      q.text, UnwrapOr(q.page, 1), q.relevancy, q.safeSearchLevel);
      ghost var g := Gathered(libs, fetches, order, query);
      assert (rawResults, errors) == g;
      var results := aggregator.Process(rawResults);
      qr := QueryResult(results, errors);
    }
  }

  /** Filling in the default level twice is filling it in once, and a query that names a level is left alone. */
  lemma EffectiveQueryIdempotent(h: Handler, q: Query)
    ensures h.EffectiveQuery(h.EffectiveQuery(q)) == h.EffectiveQuery(q)
    ensures q.safeSearchLevel.Some? ==> h.EffectiveQuery(q) == q
  {
  }

  /** Every gathered result was returned fresh by some engine, so it names one source. */
  lemma GatheredSourcesNonEmpty(engines: seq<Engine>, libs: Libs, fetches: seq<Fetch>, page: u16, query: string,
                                order: seq<nat>, raw: seq<seq<SearchResult>>)
    requires |fetches| == |engines| && PageInRangeForAll(page) && IsCompletionOrder(order, |engines|)
    requires raw == Partition(InOrder(engines, Outcomes(engines, libs, fetches, page, query), order)).0
    ensures SourcesNonEmpty(raw)
  {
    forall i, j | 0 <= i < |raw| && 0 <= j < |raw[i]| ensures raw[i][j].sources != [] {
      SearchResultsFromEngines(engines, libs, fetches, page, query, order, raw[i]);
      var e :| 0 <= e < |engines| && engines[e].PageInRange(page)
                && engines[e].Expected(libs, fetches[e], page, query) == Completed(Ok(raw[i]));
      ExpectedResultsFresh(engines[e], libs, fetches[e], page, query);
      assert raw[i][j] in raw[i];
    }
  }

  /**
   * A search reports one entry per engine, a list or an error, exactly when
   * no engine's task panicked.
   */
  lemma SearchReportsEveryEngine(h: Handler, libs: Libs, fetches: seq<Fetch>, order: seq<nat>, q: Query)
    requires |fetches| == |h.engineHandler.engines| && PageInRangeForAll(UnwrapOr(q.page, 1))
    requires IsCompletionOrder(order, |h.engineHandler.engines|)
    ensures var g := h.Gathered(libs, fetches, order, q);
            var outs := Outcomes(h.engineHandler.engines, libs, fetches, UnwrapOr(q.page, 1), q.text);
            && |g.0| + |g.1| <= |h.engineHandler.engines|
            && (|g.0| + |g.1| == |h.engineHandler.engines| <==> forall i :: 0 <= i < |outs| ==> !outs[i].Panicked?)
  {
    SearchCounts(h.engineHandler.engines, Outcomes(h.engineHandler.engines, libs, fetches, UnwrapOr(q.page, 1), q.text), order);
  }
}
