/**
 * The engine registry of lib/src/engines/mod.rs: the implemented engines,
 * their names, `Engine::search` (dispatch on the query type) and
 * `get_engines`.
 */
module Engines {
  import opened Common
  import opened Foreign
  import opened Results
  import opened EngineBase
  import BingEngine
  import DuckDuckGoEngine

  datatype Engine = Bing | DuckDuckGo {

    /** `get_name`. */
    function Name(): (n: string)
      ensures n == (if Bing? then BingEngine.Name else DuckDuckGoEngine.Name)
    {
      if Bing? then BingEngine.Name else DuckDuckGoEngine.Name
    }

    /** The pages for which the engine's page arithmetic stays within `u16`. */
    predicate PageInRange(page: u16) {
      if Bing? then BingEngine.PageInRange(page) else DuckDuckGoEngine.PageInRange(page)
    }

    /** What `search_text` returns. */
    function Expected(libs: Libs, fetch: Fetch, page: u16, query: string): Outcome
      requires PageInRange(page)
    {
      if Bing? then BingEngine.Expected(libs, fetch, page, query)
      else DuckDuckGoEngine.Expected(libs, fetch, page, query)
    }

    /** `search_text`, dispatched to the engine's own implementation. */
    method SearchText(libs: Libs, fetch: Fetch, page: u16, query: string,
                      relevancy: Option<Relevancy>, safeLevel: Option<SafeSearchLevel>)
      returns (o: Outcome)
      requires PageInRange(page)
      ensures o == Expected(libs, fetch, page, query)
    {
      if Bing? {
        o := BingEngine.SearchText(libs, fetch, page, query, relevancy, safeLevel);
      } else {
        o := DuckDuckGoEngine.SearchText(libs, fetch, page, query, relevancy, safeLevel);
      }
    }

    /**
     * `Engine::search`: a text query runs `search_text` on its page, page 1
     * when it names none; the other query types are `unimplemented!()` and
     * panic.
     */
    method Search(libs: Libs, fetch: Fetch, query: Query) returns (o: Outcome)
      requires PageInRange(UnwrapOr(query.page, 1))
      ensures query.qtype != Text ==> o == Panicked
      ensures query.qtype == Text ==> o == Expected(libs, fetch, UnwrapOr(query.page, 1), query.text)
    {
      match query.qtype
      case Text =>
        o := SearchText(libs, fetch, UnwrapOr(query.page, 1), query.text, query.relevancy, query.safeSearchLevel);
      case _ =>
        o := Panicked;
    }
  }

  /** No engine panics on a text search, and every result it returns is fresh: score 0, the engine its one source. */
  lemma ExpectedResultsFresh(e: Engine, libs: Libs, fetch: Fetch, page: u16, query: string)
    requires e.PageInRange(page)
    ensures var o := e.Expected(libs, fetch, page, query);
            o.Completed? && o.result.Ok? ==>
              forall r :: r in o.result.value ==> r.score == 0.0 && r.sources == [e.Name()]
  {
    if e.Bing? {
      BingEngine.ExpectedResultsFresh(libs, fetch, page, query);
    } else {
      DuckDuckGoEngine.ExpectedResultsFresh(libs, fetch, page, query);
    }
  }

  /** Page 1 is within range for every engine, so a query without a page can always be run. */
  lemma DefaultPageInRange(e: Engine)
    ensures e.PageInRange(1)
  {
  }

  /** A query without a page is run exactly as one asking for page 1. */
  lemma AbsentPageIsPageOne(e: Engine, libs: Libs, fetch: Fetch, query: Query)
    requires query.page.None? && query.qtype == Text
    ensures e.PageInRange(UnwrapOr(query.page, 1))
    ensures e.Expected(libs, fetch, UnwrapOr(query.page, 1), query.text) == e.Expected(libs, fetch, 1, query.text)
  {
  }

  /** The pages every engine can be asked for. */
  predicate PageInRangeForAll(page: u16) {
    Bing.PageInRange(page) && DuckDuckGo.PageInRange(page)
  }

  lemma PageInRangeForAllEngines(page: u16, e: Engine)
    requires PageInRangeForAll(page)
    ensures e.PageInRange(page)
  {
  }

  /** `get_engines`: every implemented engine, Bing first. */
  function GetEngines(): (es: seq<Engine>)
    ensures |es| == 2 && es[0].Name() == "Bing" && es[1].Name() == "DuckDuckGo"
    ensures Bing in es && DuckDuckGo in es
  {
    [Bing, DuckDuckGo]
  }

  /** No two engines share a name. */
  lemma NamesDistinct(a: Engine, b: Engine)
    requires a.Name() == b.Name()
    ensures a == b
  {
  }
}
