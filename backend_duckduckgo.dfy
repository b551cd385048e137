/**
 * The older DuckDuckGo adapter of backend/src/engines/duckduckgo.rs: the
 * `30 * p` offset rule, the no-results check conditioned on the sentinel's
 * class, and the per-block builder. The backend's `parse_generic_results`
 * and error conversions (backend/src/engines/mod.rs, backend/src/errors.rs)
 * are not part of this model, so a page ends with the builder's output for
 * each block.
 */
module BackendDuckDuckGo {
  import opened Common
  import opened Strings
  import opened Foreign
  import opened Errors
  import opened Results
  import Backend
  import DuckDuckGoEngine

  const Name: string := "DuckDuckGo"

  /** `page_idx * 30 + 1` is `u16` arithmetic; pages above 2184 overflow and are outside the model. */
  predicate PageInRange(page: u16) {
    page <= 2184
  }

  /** The result offset `s` of page `p >= 1`. */
  function Offset(page: u16): (s: nat)
    requires PageInRange(page)
    ensures s + 1 < 0x1_0000
    ensures s % 30 == 0 && s / 30 == page
  {
    page * 30
  }

  /**
   * The request URL: page 0 goes to `html.duckduckgo.com` with `s` and `dc`
   * present but empty, any other page to `duckduckgo.com` with `s` its
   * offset and `dc` one more, in the library's URL format.
   */
  function SearchUrl(page: u16, query: string): string
    requires PageInRange(page)
  {
    if page == 0 then
      DuckDuckGoEngine.FirstPageUrlPrefix + query + DuckDuckGoEngine.OffsetParam
      + DuckDuckGoEngine.NextParam + DuckDuckGoEngine.UrlSuffix
    else DuckDuckGoEngine.OffsetUrl(query, Offset(page))
  }

  /**
   * Page 0 sends the library's page-0 request; page `p >= 1` asks
   * `duckduckgo.com` with `s = 30 * p` (and so, by `OffsetUrlParts`,
   * `dc = 30 * p + 1`).
   */
  lemma SearchUrlShape(page: u16, query: string)
    requires PageInRange(page)
    ensures page == 0 ==> SearchUrl(page, query) == DuckDuckGoEngine.SearchUrl(0, query)
    ensures page >= 1 ==> SearchUrl(page, query) == DuckDuckGoEngine.OffsetUrl(query, 30 * page)
  {
  }

  /**
   * The older rule and the library's agree on page 0 and on no other page:
   * every page `p >= 1` they both allow gets a different offset.
   */
  lemma OffsetsDifferFromLibrary(page: u16, query: string)
    requires DuckDuckGoEngine.PageInRange(page)
    ensures page == 0 ==> SearchUrl(page, query) == DuckDuckGoEngine.SearchUrl(page, query)
    ensures page >= 1 ==> Offset(page) != DuckDuckGoEngine.Offset(page)
  {
  }

  /**
   * The no-results check: the first `.no-results` element counts only when
   * its `class` attribute contains `b_algo`; otherwise parsing goes on.
   */
  predicate SaysNoResults(page: DuckDuckGoPage) {
    page.noResults.Some?
    && Attr(page.noResults.value, "class").Some?
    && Contains(Attr(page.noResults.value, "class").value, "b_algo")
  }

  /**
   * The closure handed to `parse_generic_results`: a block missing its
   * title, URL or snippet gives nothing; a complete block gives the
   * backend's `SearchResult::new` on `https://` and the trimmed URL text,
   * with the trimmed title and snippet, parse failure included.
   */
  function Builder(libs: Libs, b: DuckDuckGoBlock): (r: Option<Result<SearchResult, string>>)
    ensures r.None? <==> b.title.None? || b.url.None? || b.snippet.None?
    ensures r.Some? ==> (r.value.Err? <==> libs.parseUrl("https://" + Trim(b.url.value.innerHtml)).Err?)
    ensures r.Some? && r.value.Ok? ==>
      && r.value.value.url == libs.parseUrl("https://" + Trim(b.url.value.innerHtml)).value
      && r.value.value.title == Trim(b.title.value.innerHtml)
      && r.value.value.description == Trim(b.snippet.value.innerHtml)
      && r.value.value.score == 0.0 && r.value.value.sources == [Name]
  {
    if b.title.Some? && b.url.Some? && b.snippet.Some? then
      Some(Backend.NewResult(libs.parseUrl, "https://" + Trim(b.url.value.innerHtml),
                             Trim(b.title.value.innerHtml), Trim(b.snippet.value.innerHtml), Name))
    else None
  }

  /** How a search ends in this model. */
  datatype Reply =
    | Unreachable(cause: NetworkError)                               // the `?` on `get_data`
    | NoResults                                                      // `Err(EngineError::NoResults)`
    | Blocks(outputs: seq<Option<Result<SearchResult, string>>>)     // the builder's output per block

  /** `search_text` up to `parse_generic_results`. */
  function SearchText(libs: Libs, fetch: Request -> Result<string, NetworkError>, page: u16, query: string): (r: Reply)
    requires PageInRange(page)
    ensures r.Blocks? ==> fetch(Request(SearchUrl(page, query), Headers)).Ok? && |r.outputs| == |libs.duckDuckGoDocument(fetch(Request(SearchUrl(page, query), Headers)).value).blocks|
  {
    match fetch(Request(SearchUrl(page, query), Headers))
    case Err(e) => Unreachable(e)
    case Ok(text) =>
      var doc := libs.duckDuckGoDocument(text);
      if SaysNoResults(doc) then Reply.NoResults
      else Blocks(seq(|doc.blocks|, i requires 0 <= i < |doc.blocks| => Builder(libs, doc.blocks[i])))
  }

  const Headers: map<string, string> := DuckDuckGoEngine.Headers

  /**
   * A fetched page ends with `NoResults` exactly when its sentinel carries
   * `b_algo`, whatever its blocks; a sentinel without it lets parsing go
   * on, and block `i`'s output is the builder's on block `i`.
   */
  lemma NoResultsOnlyWithClass(libs: Libs, fetch: Request -> Result<string, NetworkError>, page: u16, query: string)
    requires PageInRange(page) && fetch(Request(SearchUrl(page, query), Headers)).Ok?
    ensures var doc := libs.duckDuckGoDocument(fetch(Request(SearchUrl(page, query), Headers)).value);
            var r := SearchText(libs, fetch, page, query);
            && (r == Reply.NoResults <==> SaysNoResults(doc))
            && (!SaysNoResults(doc) ==> r.Blocks? && forall i :: 0 <= i < |doc.blocks| ==> r.outputs[i] == Builder(libs, doc.blocks[i]))
  {
  }

  /** Every result a complete block yields is fresh: score 0 and DuckDuckGo its one source. */
  lemma OutputsFresh(libs: Libs, fetch: Request -> Result<string, NetworkError>, page: u16, query: string, i: nat)
    requires PageInRange(page)
    requires SearchText(libs, fetch, page, query).Blocks? && i < |SearchText(libs, fetch, page, query).outputs|
    ensures var out := SearchText(libs, fetch, page, query).outputs[i];
            out.Some? && out.value.Ok? ==> out.value.value.score == 0.0 && out.value.value.sources == [Name]
  {
  }
}
