/**
 * The DuckDuckGo adapter of lib/src/engines/duckduckgo.rs: the request URL
 * with its result offset, the no-results short-circuit and the block
 * builder handed to `parse_generic_results`.
 */
module DuckDuckGoEngine {
  import opened Common
  import opened Strings
  import opened Foreign
  import opened Errors
  import opened Results
  import opened EngineBase

  const Name: string := "DuckDuckGo"

  // ---------------------------------------------------------------------------
  // The request
  // ---------------------------------------------------------------------------

  const FirstPageUrlPrefix: string := "https://html.duckduckgo.com/html/?q="
  const PageUrlPrefix: string := "https://duckduckgo.com/html/?q="
  const OffsetParam: string := "&s="
  const NextParam: string := "&dc="
  const UrlSuffix: string := "&v=1&o=json&api=/d.js"

  const Headers: map<string, string> := map[
    "REFERER" := "https://google.com/",
    "CONTENT_TYPE" := "application/x-www-form-urlencoded",
    "COOKIE" := "kl=wt-wt"]

  /** `(page_idx - 1) * 50 + 20` is `u16` arithmetic; pages above 1311 overflow and are outside the model. */
  predicate PageInRange(page: u16) {
    page <= 1311
  }

  /**
   * The result offset `s` asked for on page `p >= 1`: page 2 is a special
   * case mapped to 20; every other page to `(p - 1) * 50 + 20`.
   */
  function Offset(page: u16): (s: nat)
    requires 1 <= page && PageInRange(page)
    ensures s < 0x1_0000 - 1
    ensures s % 50 == 20
  {
    if page == 2 then 20 else (page - 1) * 50 + 20
  }

  /**
   * Pages 1 and 2 ask for the same offset, and page 3 for 120: the sequence
   * of offsets is 20, 20, 120, 170, ...
   */
  lemma OffsetsOfFirstPages()
    ensures Offset(1) == 20 && Offset(2) == 20 && Offset(3) == 120 && Offset(4) == 170
  {
  }

  /** From page 2 on, later pages ask for strictly larger offsets, 50 apart from page 3 on. */
  lemma OffsetIncreasing(p: u16, q: u16)
    requires 2 <= p < q && PageInRange(q)
    ensures Offset(p) < Offset(q)
    ensures p >= 3 ==> Offset(q) - Offset(p) == (q - p) * 50
  {
  }

  /** The URL of page `p >= 1`, from its offset `s`: `dc` is always `s + 1`. */
  function OffsetUrl(query: string, s: nat): (url: string) {
    PageUrlPrefix + query + OffsetParam + NatToString(s) + NextParam + NatToString(s + 1) + UrlSuffix
  }

  /**
   * The request URL. Page 0 goes to `html.duckduckgo.com` with empty `s` and
   * `dc`; any other page goes to `duckduckgo.com` at its offset.
   */
  function SearchUrl(page: u16, query: string): string
    requires PageInRange(page)
  {
    if page == 0 then FirstPageUrlPrefix + query + OffsetParam + NextParam + UrlSuffix
    else OffsetUrl(query, Offset(page))
  }

  /** The `s` and `dc` parameters of page `p >= 1` read back as the offset and the offset plus one. */
  lemma OffsetUrlParts(query: string, s: nat)
    ensures var url := OffsetUrl(query, s);
            var a := |PageUrlPrefix + query + OffsetParam|;
            var b := a + |NatToString(s)|;
            var c := b + |NextParam|;
            var d := c + |NatToString(s + 1)|;
            && d + |UrlSuffix| == |url|
            && url[..a] == PageUrlPrefix + query + OffsetParam
            && url[a..b] == NatToString(s) && DecimalValue(url[a..b]) == s
            && url[b..c] == NextParam
            && url[c..d] == NatToString(s + 1) && DecimalValue(url[c..d]) == s + 1
            && url[d..] == UrlSuffix
  {
    var url := OffsetUrl(query, s);
    var head := PageUrlPrefix + query + OffsetParam;
    assert url == head + NatToString(s) + NextParam + NatToString(s + 1) + UrlSuffix;
    DecimalRoundTrip(s);
    DecimalRoundTrip(s + 1);
  }

  /**
   * Page 0 asks `html.duckduckgo.com` with the `s` and `dc` parameters
   * present but empty; page `p >= 1` asks `duckduckgo.com` at the offset of
   * `p`, whose parts `OffsetUrlParts` reads back.
   */
  lemma SearchUrlShape(page: u16, query: string)
    requires PageInRange(page)
    ensures page == 0 ==> StartsWith(SearchUrl(page, query), FirstPageUrlPrefix + query + OffsetParam + NextParam)
    ensures page >= 1 ==> SearchUrl(page, query) == OffsetUrl(query, Offset(page))
                          && StartsWith(SearchUrl(page, query), PageUrlPrefix + query + OffsetParam)
  {
    var url := SearchUrl(page, query);
    if page == 0 {
      assert url[..|FirstPageUrlPrefix + query + OffsetParam + NextParam|] == FirstPageUrlPrefix + query + OffsetParam + NextParam;
    } else {
      assert url[..|PageUrlPrefix + query + OffsetParam|] == PageUrlPrefix + query + OffsetParam;
    }
  }

  /** The first two pages of a query send the same request (page 0 does not). */
  lemma PagesOneAndTwoCoincide(query: string)
    ensures SearchUrl(1, query) == SearchUrl(2, query)
    ensures SearchUrl(0, query) != SearchUrl(1, query)
  {
    var u0 := SearchUrl(0, query);
    var u1 := SearchUrl(1, query);
    assert u0[8] == 'h' && u1[8] == 'd';
  }

  /** The code's URL construction: the page index is overwritten by the offset before formatting. */
  method BuildUrl(page: u16, query: string) returns (url: string)
    requires PageInRange(page)
    ensures url == SearchUrl(page, query)
  {
    var pageIdx: nat := page;
    if pageIdx == 0 {
      url := FirstPageUrlPrefix + query + OffsetParam + NextParam + UrlSuffix;
    } else {
      if pageIdx == 2 {
        pageIdx := 20;
      } else {
        pageIdx := ((pageIdx - 1) * 50) + 20;
      }
      url := PageUrlPrefix + query + OffsetParam + NatToString(pageIdx) + NextParam + NatToString(pageIdx + 1) + UrlSuffix;
    }
  }

  // ---------------------------------------------------------------------------
  // The page
  // ---------------------------------------------------------------------------

  /**
   * The closure given to `parse_generic_results`: a block with a title, a
   * URL and a snippet gives a result whose URL is `https://` followed by the
   * trimmed URL text; a missing field, or a URL that does not parse, gives
   * nothing.
   */
  function Builder(libs: Libs, b: DuckDuckGoBlock): (r: Option<SearchResult>)
    ensures b.title.None? || b.url.None? || b.snippet.None? ==> r.None?
    ensures b.title.Some? && b.url.Some? && b.snippet.Some? ==>
              (r.Some? <==> libs.parseUrl("https://" + Trim(b.url.value.innerHtml)).Ok?)
    ensures r.Some? ==>
      && r.value.url == libs.parseUrl("https://" + Trim(b.url.value.innerHtml)).value
      && r.value.title == Trim(b.title.value.innerHtml)
      && r.value.description == Trim(b.snippet.value.innerHtml)
      && r.value.score == 0.0 && r.value.sources == [Name]
  {
    if b.title.Some? && b.url.Some? && b.snippet.Some? then
      match NewSearchResult(libs.parseUrl, "https://" + Trim(b.url.value.innerHtml),
                            Trim(b.title.value.innerHtml), Trim(b.snippet.value.innerHtml), Name)
      case Ok(r) => Some(r)
      case Err(_) => None
    else None
  }

  function BuilderOf(libs: Libs): DuckDuckGoBlock -> Option<SearchResult> {
    b => Builder(libs, b)
  }

  /**
   * The page: if the no-results sentinel is present the call fails with
   * `NoResults`, whatever blocks the page also holds; otherwise it succeeds
   * with the builder's results. A bad block is dropped, never an error.
   */
  function ScrapePage(libs: Libs, text: string): Outcome {
    var page := libs.duckDuckGoDocument(text);
    if page.noResults.Some? then Completed(Err(NoResults))
    else Completed(Ok(ParseGenericResults(page.blocks, BuilderOf(libs))))
  }

  /**
   * The sentinel decides alone: two pages that both carry it give
   * `NoResults` whatever their blocks; a page without it succeeds, and
   * each of its results comes from one of its blocks.
   */
  lemma SentinelDecides(libs: Libs, text1: string, text2: string)
    requires libs.duckDuckGoDocument(text1).noResults.Some?
    ensures ScrapePage(libs, text1) == Completed(Err(NoResults))
    ensures libs.duckDuckGoDocument(text2).noResults.Some? ==> ScrapePage(libs, text1) == ScrapePage(libs, text2)
    ensures libs.duckDuckGoDocument(text2).noResults.None? ==>
      && ScrapePage(libs, text2).Completed? && ScrapePage(libs, text2).result.Ok?
      && forall r :: r in ScrapePage(libs, text2).result.value ==>
           exists i :: 0 <= i < |libs.duckDuckGoDocument(text2).blocks| && Builder(libs, libs.duckDuckGoDocument(text2).blocks[i]) == Some(r)
  {
    if libs.duckDuckGoDocument(text2).noResults.None? {
      var blocks := libs.duckDuckGoDocument(text2).blocks;
      forall r | r in ScrapePage(libs, text2).result.value
        ensures exists i :: 0 <= i < |blocks| && Builder(libs, blocks[i]) == Some(r)
      {
        var i :| 0 <= i < |blocks| && BuilderOf(libs)(blocks[i]) == Some(r);
      }
    }
  }

  /** `search_text` end to end. */
  function Expected(libs: Libs, fetch: Fetch, page: u16, query: string): Outcome
    requires PageInRange(page)
  {
    match fetch(Request(SearchUrl(page, query), Headers))
    case Err(e) => FetchFailed(e)
    case Ok(text) => ScrapePage(libs, text)
  }

  /** The adapter never panics, and every result it returns has score 0 and DuckDuckGo as its one source. */
  lemma ExpectedResultsFresh(libs: Libs, fetch: Fetch, page: u16, query: string)
    requires PageInRange(page)
    ensures var o := Expected(libs, fetch, page, query);
            && o.Completed?
            && (o.result.Ok? ==> forall r :: r in o.result.value ==> r.score == 0.0 && r.sources == [Name])
  {
    var o := Expected(libs, fetch, page, query);
    if o.Completed? && o.result.Ok? {
      var text := fetch(Request(SearchUrl(page, query), Headers)).value;
      var blocks := libs.duckDuckGoDocument(text).blocks;
      forall r | r in o.result.value ensures r.score == 0.0 && r.sources == [Name] {
        var i :| 0 <= i < |blocks| && BuilderOf(libs)(blocks[i]) == Some(r);
      }
    }
  }

  /** `DuckDuckGo::search_text`. */
  method SearchText(libs: Libs, fetch: Fetch, page: u16, query: string,
                    relevancy: Option<Relevancy>, safeLevel: Option<SafeSearchLevel>)
    returns (o: Outcome)
    requires PageInRange(page)
    ensures o == Expected(libs, fetch, page, query)
  {
    var url := BuildUrl(page, query);
    var response := fetch(Request(url, Headers));
    if response.Err? {
      return FetchFailed(response.error);
    }
    o := ScrapePage(libs, response.value);
  }
}
