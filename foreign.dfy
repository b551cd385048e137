/**
 * The foreign libraries the core calls, reduced to the values it sees.
 * Parsing URLs (the `url` crate), decoding base64url and UTF-8, the span
 * regex, and HTML parsing with CSS selectors (`scraper`) are not modelled:
 * they are the fields of `Libs`, and every property of the model holds for
 * every choice of them.
 */
module Foreign {
  import opened Common

  /** The parts of a parsed `url::Url` that the core looks at. */
  datatype Url = Url(scheme: string, host: Option<string>, path: string, query: Option<string>)

  /** An HTML element as `scraper` exposes it: its attributes and its inner HTML. */
  datatype Element = Element(attrs: map<string, string>, innerHtml: string)

  /** `ElementRef::value().attr(name)`. */
  function Attr(e: Element, name: string): (r: Option<string>)
    ensures r.Some? <==> name in e.attrs
    ensures r.Some? ==> r.value == e.attrs[name]
  {
    if name in e.attrs then Some(e.attrs[name]) else None
  }

  /**
   * One `.b_algo` block of a Bing page, with the first match of each
   * sub-selector: `h2 a` (title), `.b_tpcn a.tilk` (link),
   * `.b_caption p` and `.b_lineclamp3 p` (the two description selectors).
   */
  datatype BingBlock = BingBlock(
    title: Option<Element>,
    link: Option<Element>,
    caption: Option<Element>,
    lineclamp: Option<Element>)

  /** A Bing page: the first `.b_results` element, if any, and the `.b_algo` blocks in document order. */
  datatype BingPage = BingPage(resultsList: Option<Element>, blocks: seq<BingBlock>)

  /**
   * One `.results>.result` block of a DuckDuckGo page, with the first match of
   * `.result__title>.result__a`, `.result__url` and `.result__snippet`.
   */
  datatype DuckDuckGoBlock = DuckDuckGoBlock(
    title: Option<Element>,
    url: Option<Element>,
    snippet: Option<Element>)

  /** A DuckDuckGo page: the first `.no-results` element, if any, and the result blocks in document order. */
  datatype DuckDuckGoPage = DuckDuckGoPage(noResults: Option<Element>, blocks: seq<DuckDuckGoBlock>)

  /** An HTTP GET the engines ask the network handler for. */
  datatype Request = Request(url: string, headers: map<string, string>)

  datatype Libs = Libs(
    /** `Url::parse`, with the parse error's text on failure. */
    parseUrl: string -> Result<Url, string>,
    /** `Url::query_pairs`, in the order they occur in the query string. */
    queryPairs: Url -> seq<(string, string)>,
    /** `base64_url::decode` (RFC 4648 section 5 alphabet). */
    base64UrlDecode: string -> Option<seq<byte>>,
    /** `String::from_utf8`. */
    utf8Decode: seq<byte> -> Option<string>,
    /** `RE_SPAN.replace_all(s, "")` for the regex `<span.*?>.*?(?:</span>&nbsp;·|</span>)`. */
    stripSpans: string -> string,
    /** `Html::parse_document` followed by Bing's selectors. */
    bingDocument: string -> BingPage,
    /** `Html::parse_document` followed by DuckDuckGo's selectors. */
    duckDuckGoDocument: string -> DuckDuckGoPage)
}
