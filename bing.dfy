/**
 * The Bing adapter of lib/src/engines/bing.rs: the request URL, the
 * recovery of the target of Bing's click-tracking links, the no-results
 * check and the loop over result blocks.
 */
module BingEngine {
  import opened Common
  import opened Strings
  import opened Foreign
  import opened Errors
  import opened Results
  import opened EngineBase

  const Name: string := "Bing"

  // ---------------------------------------------------------------------------
  // The request
  // ---------------------------------------------------------------------------

  const SearchPrefix: string := "https://www.bing.com/search?q="
  const FirstParam: string := "&first="
  const CookieParams: string := "_EDGE_V=1;SRCHD=AF=NOFORM;_Rwho=u=d;bngps=s=0;_UR=QS=0&TQS=0;_UR=QS=0&TQS=0;"

  /** The headers sent with every request (the user agent is added by the network handler). */
  const Headers: map<string, string> := map[
    "REFERER" := "https://google.com/",
    "CONTENT_TYPE" := "application/x-www-form-urlencoded",
    "COOKIE" := CookieParams]

  /**
   * `10 * page_idx + 1` is computed in `u16` before the URL is chosen, so
   * pages above 6553 overflow; they are outside the model.
   */
  predicate PageInRange(page: u16) {
    page <= 6553
  }

  /**
   * The search URL: the query is interpolated as given (it is not
   * percent-encoded); page 0 asks for the first page, page `p >= 1` adds a
   * `first` parameter naming the result `10 p + 1` to start from.
   */
  function PageUrl(page: u16, query: string): (url: string)
    requires PageInRange(page)
    ensures StartsWith(url, SearchPrefix + query)
    ensures page == 0 <==> url == SearchPrefix + query
    ensures page > 0 ==> url[|SearchPrefix + query|..] == FirstParam + NatToString(10 * page + 1)
  {
    var contResult := 10 * page + 1;
    if page == 0 then SearchPrefix + query
    else
      var url := SearchPrefix + query + FirstParam + NatToString(contResult);
      assert url[..|SearchPrefix + query|] == SearchPrefix + query;
      url
  }

  /** The `first` parameter of page `p` reads back as `10 p + 1`. */
  lemma PageUrlFirstResult(page: u16, query: string)
    requires PageInRange(page) && page > 0
    ensures var digits := PageUrl(page, query)[|SearchPrefix + query| + |FirstParam|..];
            (forall i :: 0 <= i < |digits| ==> IsDigit(digits[i])) && DecimalValue(digits) == 10 * page + 1
  {
    var url := PageUrl(page, query);
    var tail := url[|SearchPrefix + query|..];
    assert tail == FirstParam + NatToString(10 * page + 1);
    assert url[|SearchPrefix + query| + |FirstParam|..] == tail[|FirstParam|..];
    assert tail[|FirstParam|..] == NatToString(10 * page + 1);
    DecimalRoundTrip(10 * page + 1);
  }

  /** Different pages of one query are different requests. */
  lemma PageUrlInjective(p: u16, q: u16, query: string)
    requires PageInRange(p) && PageInRange(q) && p != q
    ensures PageUrl(p, query) != PageUrl(q, query)
  {
    if p > 0 && q > 0 {
      // Both `first` parameters read back, as different numbers.
      PageUrlFirstResult(p, query);
      PageUrlFirstResult(q, query);
    }
  }

  // ---------------------------------------------------------------------------
  // `get_og_url`
  // ---------------------------------------------------------------------------

  const ClickPrefix: string := "https://www.bing.com/ck/a?"
  const PaddingMark: string := "a1"

  /** The value of the first query pair named `u`; `find_map` stops there. */
  function FirstU(pairs: seq<(string, string)>): (v: Option<string>)
    ensures v.None? <==> forall i :: 0 <= i < |pairs| ==> pairs[i].0 != "u"
    ensures v.Some? ==> exists i :: 0 <= i < |pairs| && pairs[i] == ("u", v.value)
                          && forall j :: 0 <= j < i ==> pairs[j].0 != "u"
  {
    if pairs == [] then None
    else if pairs[0].0 == "u" then Some(pairs[0].1)
    else
      var v := FirstU(pairs[1..]);
      assert forall i :: 1 <= i < |pairs| ==> pairs[i] == pairs[1..][i - 1];
      if v.Some? then
        var i :| 0 <= i < |pairs[1..]| && pairs[1..][i] == ("u", v.value)
                 && forall j :: 0 <= j < i ==> pairs[1..][j].0 != "u";
        assert pairs[i + 1] == ("u", v.value);
        v
      else v
  }

  /** The `u` value decoded: leading `a1`s stripped, then base64url, then UTF-8. */
  function DecodeU(libs: Libs, v: string): (r: Option<string>)
    ensures r.Some? <==> libs.base64UrlDecode(TrimStartMatches(v, PaddingMark)).Some?
                         && libs.utf8Decode(libs.base64UrlDecode(TrimStartMatches(v, PaddingMark)).value).Some?
  {
    match libs.base64UrlDecode(TrimStartMatches(v, PaddingMark))
    case None => None
    case Some(bytes) => libs.utf8Decode(bytes)
  }

  /**
   * `get_og_url`: the target of a click-tracking link is the decoded first
   * `u` parameter. An unparsable link, a link without `u`, or a `u` that does
   * not decode all give `ParseFailed`.
   */
  function OgUrl(libs: Libs, url: string): (r: Result<string, EngineErrorType>)
    ensures r.Err? ==> r.error == ParseFailed
    ensures r.Ok? <==> libs.parseUrl(url).Ok? && FirstU(libs.queryPairs(libs.parseUrl(url).value)).Some?
                       && DecodeU(libs, FirstU(libs.queryPairs(libs.parseUrl(url).value)).value).Some?
    ensures r.Ok? ==> r.value == DecodeU(libs, FirstU(libs.queryPairs(libs.parseUrl(url).value)).value).value
  {
    match libs.parseUrl(url)
    case Err(_) => Err(ParseFailed)
    case Ok(u) =>
      match FirstU(libs.queryPairs(u))
      case None => Err(ParseFailed)
      case Some(v) =>
        match DecodeU(libs, v)
        case None => Err(ParseFailed)
        case Some(s) => Ok(s)
  }

  /**
   * Only the first `u` pair counts: links whose pairs agree up to and
   * including it decode alike, whatever follows, even when the first `u`
   * fails to decode and a later one would not.
   */
  lemma OgUrlIgnoresLaterPairs(libs: Libs, url1: string, url2: string,
                               pre: seq<(string, string)>, v: string,
                               post1: seq<(string, string)>, post2: seq<(string, string)>)
    requires libs.parseUrl(url1).Ok? && libs.parseUrl(url2).Ok?
    requires libs.queryPairs(libs.parseUrl(url1).value) == pre + [("u", v)] + post1
    requires libs.queryPairs(libs.parseUrl(url2).value) == pre + [("u", v)] + post2
    requires forall i :: 0 <= i < |pre| ==> pre[i].0 != "u"
    ensures OgUrl(libs, url1) == OgUrl(libs, url2)
  {
    FirstUAfter(pre, v, post1);
    FirstUAfter(pre, v, post2);
  }

  lemma {:induction false} FirstUAfter(pre: seq<(string, string)>, v: string, post: seq<(string, string)>)
    requires forall i :: 0 <= i < |pre| ==> pre[i].0 != "u"
    ensures FirstU(pre + [("u", v)] + post) == Some(v)
    decreases |pre|
  {
    var s := pre + [("u", v)] + post;
    if pre != [] {
      assert s[1..] == pre[1..] + [("u", v)] + post;
      FirstUAfter(pre[1..], v, post);
    }
  }

  /** Any number of leading `a1` marks are ignored before decoding. */
  lemma DecodeUStripsMarks(libs: Libs, n: nat, rest: string)
    requires !StartsWith(rest, PaddingMark)
    ensures DecodeU(libs, Repeat(PaddingMark, n) + rest) == DecodeU(libs, rest)
  {
    TrimStartMatchesUnique(PaddingMark, n, rest);
    TrimStartMatchesUnique(PaddingMark, 0, rest);
    assert Repeat(PaddingMark, 0) + rest == rest;
  }

  // ---------------------------------------------------------------------------
  // The page
  // ---------------------------------------------------------------------------

  /**
   * The no-results check: the first `.b_results` element counts only when
   * its `class` attribute contains `b_algo`; a missing attribute does not.
   */
  predicate SaysNoResults(page: BingPage) {
    page.resultsList.Some?
    && Attr(page.resultsList.value, "class").Some?
    && Contains(Attr(page.resultsList.value, "class").value, "b_algo")
  }

  /** What one result block does to the loop. */
  datatype Step =
    | Skip                     // `continue`
    | Keep(r: SearchResult)    // `push`
    | Stop(o: Outcome)         // the `?` returns early, or the `unwrap` panics

  /** The description: the first of the two description selectors that matches. */
  function Description(b: BingBlock): (d: Option<Element>)
    ensures d.Some? <==> b.caption.Some? || b.lineclamp.Some?
    ensures b.caption.Some? ==> d == b.caption
    ensures b.caption.None? ==> d == b.lineclamp
  {
    if b.caption.Some? then b.caption else b.lineclamp
  }

  /** The link a kept block points to: a click-tracking link is decoded (the `unwrap` may panic). */
  function FinalUrl(libs: Libs, href: string): Result<string, EngineErrorType> {
    if StartsWith(href, ClickPrefix) then OgUrl(libs, href) else Ok(href)
  }

  /**
   * The body of the block loop. A block without a title, a link or a
   * description is skipped, and so is one whose link has no `href`. A
   * click-tracking link that does not decode panics; a final URL that does
   * not parse ends the whole call with `ParseFailed`. Otherwise the block
   * gives a result whose title has the `<strong>` tags removed and whose
   * description has the spans removed, both from the trimmed inner HTML.
   */
  function BlockStep(libs: Libs, b: BingBlock): (s: Step)
    ensures (b.title.None? || b.link.None? || Description(b).None?) ==> s.Skip?
    ensures b.title.Some? && b.link.Some? && Description(b).Some? ==>
      match Attr(b.link.value, "href")
      case None => s.Skip?
      case Some(href) =>
        match FinalUrl(libs, href)
        case Err(_) => s == Stop(Panicked)
        case Ok(u) =>
          && (libs.parseUrl(u).Err? <==> s == Stop(Completed(Err(ParseFailed))))
          && (libs.parseUrl(u).Ok? <==> s.Keep?)
          && (s.Keep? ==> s.r.url == libs.parseUrl(u).value)
    ensures s.Keep? ==>
      && s.r.title == StripStrong(Trim(b.title.value.innerHtml))
      && s.r.description == libs.stripSpans(Trim(Description(b).value.innerHtml))
      && s.r.score == 0.0 && s.r.sources == [Name]
  {
    if b.title.None? || b.link.None? || Description(b).None? then Skip
    else
      match Attr(b.link.value, "href")
      case None => Skip
      case Some(href) =>
        match FinalUrl(libs, href)
        case Err(_) => Stop(Panicked)
        case Ok(u) =>
          var title := StripStrong(Trim(b.title.value.innerHtml));
          var desc := libs.stripSpans(Trim(Description(b).value.innerHtml));
          match NewSearchResult(libs.parseUrl, u, title, desc, Name)
          case Err(e) => Stop(Completed(Err(e)))
          case Ok(r) => Keep(r)
  }

  /** The result a keeping block gives, for use as a `parse_generic_results`-style builder. */
  function Kept(libs: Libs): BingBlock -> Option<SearchResult> {
    b => match BlockStep(libs, b) case Keep(r) => Some(r) case _ => None
  }

  /** `acc` put in front of the outcome of the remaining blocks. */
  function Prepend(acc: seq<SearchResult>, o: Outcome): Outcome {
    match o
    case Completed(Ok(rs)) => Completed(Ok(acc + rs))
    case _ => o
  }

  /** The block loop, as a function of the blocks left to visit. */
  function Scrape(libs: Libs, blocks: seq<BingBlock>): Outcome
    decreases |blocks|
  {
    if blocks == [] then Completed(Ok([]))
    else match BlockStep(libs, blocks[0])
      case Skip => Scrape(libs, blocks[1..])
      case Stop(o) => o
      case Keep(r) => Prepend([r], Scrape(libs, blocks[1..]))
  }

  /** Whether some block ends the loop early. */
  predicate SomeStop(libs: Libs, blocks: seq<BingBlock>) {
    exists i :: 0 <= i < |blocks| && BlockStep(libs, blocks[i]).Stop?
  }

  /**
   * What the block loop returns when no block stops it: the results of the
   * keeping blocks in document order.
   */
  lemma {:induction false} ScrapeNoStop(libs: Libs, blocks: seq<BingBlock>)
    requires !SomeStop(libs, blocks)
    ensures Scrape(libs, blocks) == Completed(Ok(ParseGenericResults(blocks, Kept(libs))))
    decreases |blocks|
  {
    if blocks != [] {
      var t := blocks[1..];
      forall i | 0 <= i < |t| ensures !BlockStep(libs, t[i]).Stop? {
        assert t[i] == blocks[i + 1];
      }
      ScrapeNoStop(libs, t);
      assert !BlockStep(libs, blocks[0]).Stop?;
    }
  }

  /**
   * What the block loop returns when block `i` is the first to stop it: what
   * that block says, whatever the blocks after it hold.
   */
  lemma {:induction false} ScrapeFirstStop(libs: Libs, blocks: seq<BingBlock>, i: nat)
    requires i < |blocks| && BlockStep(libs, blocks[i]).Stop?
    requires forall j :: 0 <= j < i ==> !BlockStep(libs, blocks[j]).Stop?
    ensures Scrape(libs, blocks) == BlockStep(libs, blocks[i]).o
    decreases i
  {
    if i > 0 {
      var t := blocks[1..];
      assert t[i - 1] == blocks[i];
      forall j | 0 <= j < i - 1 ensures !BlockStep(libs, t[j]).Stop? {
        assert t[j] == blocks[j + 1];
      }
      ScrapeFirstStop(libs, t, i - 1);
      assert !BlockStep(libs, blocks[0]).Stop?;
    }
  }

  /** The loop at block `i`: that block's step, then the blocks after it. */
  lemma ScrapeAt(libs: Libs, blocks: seq<BingBlock>, i: nat)
    requires i < |blocks|
    ensures Scrape(libs, blocks[i..]) ==
      match BlockStep(libs, blocks[i])
      case Skip => Scrape(libs, blocks[i + 1..])
      case Stop(o) => o
      case Keep(r) => Prepend([r], Scrape(libs, blocks[i + 1..]))
  {
    assert blocks[i..][1..] == blocks[i + 1..];
  }

  lemma PrependAssoc(a: seq<SearchResult>, b: seq<SearchResult>, o: Outcome)
    ensures Prepend(a, Prepend(b, o)) == Prepend(a + b, o)
  {
    match o
    case Completed(Ok(rs)) => assert a + (b + rs) == (a + b) + rs;
    case _ =>
  }

  lemma PrependNothing(o: Outcome)
    ensures Prepend([], o) == o
  {
    match o
    case Completed(Ok(rs)) => assert [] + rs == rs;
    case _ =>
  }

  /** What `search_text` returns for the page behind `text`. */
  function ScrapePage(libs: Libs, text: string): Outcome {
    var page := libs.bingDocument(text);
    if SaysNoResults(page) then Completed(Err(NoResults)) else Scrape(libs, page.blocks)
  }

  /** The block loop never reports `NoResults`: a stopping block panics or fails to parse. */
  lemma {:induction false} ScrapeNeverNoResults(libs: Libs, blocks: seq<BingBlock>)
    ensures Scrape(libs, blocks) != Completed(Err(NoResults))
    decreases |blocks|
  {
    if blocks != [] {
      ScrapeNeverNoResults(libs, blocks[1..]);
      var s := BlockStep(libs, blocks[0]);
      if s.Stop? {
        assert s.o == Panicked || s.o == Completed(Err(ParseFailed));
      }
    }
  }

  /**
   * `NoResults` comes from the class check alone: the page reports it
   * exactly when its first `.b_results` element has a class containing
   * `b_algo`.
   */
  lemma NoResultsOnlyWithClass(libs: Libs, text: string)
    ensures ScrapePage(libs, text) == Completed(Err(NoResults)) <==> SaysNoResults(libs.bingDocument(text))
  {
    ScrapeNeverNoResults(libs, libs.bingDocument(text).blocks);
  }

  /** `search_text` end to end: request, response or transport failure, page. */
  function Expected(libs: Libs, fetch: Fetch, page: u16, query: string): Outcome
    requires PageInRange(page)
  {
    match fetch(Request(PageUrl(page, query), Headers))
    case Err(e) => FetchFailed(e)
    case Ok(text) => ScrapePage(libs, text)
  }

  /** Every result the engine returns is new: score 0 and Bing as its one source. */
  lemma {:induction false} ScrapeResultsFresh(libs: Libs, blocks: seq<BingBlock>)
    ensures var o := Scrape(libs, blocks);
            o.Completed? && o.result.Ok? ==>
              forall r :: r in o.result.value ==> r.score == 0.0 && r.sources == [Name]
    decreases |blocks|
  {
    if blocks != [] {
      var rest := Scrape(libs, blocks[1..]);
      ScrapeResultsFresh(libs, blocks[1..]);
      match BlockStep(libs, blocks[0])
      case Skip =>
        assert Scrape(libs, blocks) == rest;
      case Stop(o) =>
        assert Scrape(libs, blocks) == o;
      case Keep(r) =>
        assert Scrape(libs, blocks) == Prepend([r], rest);
        if rest.Completed? && rest.result.Ok? {
          assert Scrape(libs, blocks).result.value == [r] + rest.result.value;
        }
    }
  }

  lemma ExpectedResultsFresh(libs: Libs, fetch: Fetch, page: u16, query: string)
    requires PageInRange(page)
    ensures var o := Expected(libs, fetch, page, query);
            o.Completed? && o.result.Ok? ==>
              forall r :: r in o.result.value ==> r.score == 0.0 && r.sources == [Name]
  {
    match fetch(Request(PageUrl(page, query), Headers))
    case Err(e) =>
    case Ok(text) => ScrapeResultsFresh(libs, libs.bingDocument(text).blocks);
  }

  /**
   * `Bing::search_text`. The request goes out once; the response is parsed;
   * the no-results check comes first; then the blocks are visited in
   * document order, the results collected in `parsed`.
   */
  method SearchText(libs: Libs, fetch: Fetch, page: u16, query: string,
                    relevancy: Option<Relevancy>, safeLevel: Option<SafeSearchLevel>)
    returns (o: Outcome)
    requires PageInRange(page)
    ensures o == Expected(libs, fetch, page, query)
  {
    var url := PageUrl(page, query);
    var response := fetch(Request(url, Headers));
    if response.Err? {
      assert Expected(libs, fetch, page, query) == FetchFailed(response.error);
      return FetchFailed(response.error);
    }
    var doc := libs.bingDocument(response.value);
    assert Expected(libs, fetch, page, query) == ScrapePage(libs, response.value);
    if SaysNoResults(doc) {
      return Completed(Err(NoResults));
    }
    var blocks := doc.blocks;
    assert Expected(libs, fetch, page, query) == Scrape(libs, blocks);
    var parsed: seq<SearchResult> := [];
    var i := 0;
    PrependNothing(Scrape(libs, blocks));
    while i < |blocks|
      invariant 0 <= i <= |blocks|
      invariant Scrape(libs, blocks) == Prepend(parsed, Scrape(libs, blocks[i..]))
    {
      var b := blocks[i];
      ScrapeAt(libs, blocks, i);
      if b.title.None? || b.link.None? || Description(b).None? {
        i := i + 1;
        continue;
      }
      var href := Attr(b.link.value, "href");
      if href.None? {
        i := i + 1;
        continue;
      }
      var pUrl := href.value;
      if StartsWith(pUrl, ClickPrefix) {
        var og := OgUrl(libs, pUrl);
        if og.Err? {
          assert BlockStep(libs, b) == Stop(Panicked);
          assert Scrape(libs, blocks[i..]) == Panicked;
          return Panicked;
        }
        pUrl := og.value;
      }
      assert FinalUrl(libs, href.value) == Ok(pUrl);
      var r := NewSearchResult(libs.parseUrl, pUrl, StripStrong(Trim(b.title.value.innerHtml)),
                               libs.stripSpans(Trim(Description(b).value.innerHtml)), Name);
      if r.Err? {
        assert BlockStep(libs, b) == Stop(Completed(Err(r.error)));
        assert Scrape(libs, blocks[i..]) == Completed(Err(r.error));
        return Completed(Err(r.error));
      }
      assert BlockStep(libs, b) == Keep(r.value);
      PrependAssoc(parsed, [r.value], Scrape(libs, blocks[i + 1..]));
      parsed := parsed + [r.value];
      i := i + 1;
    }
    assert blocks[i..] == [];
    assert parsed + [] == parsed;
    o := Completed(Ok(parsed));
  }
}
