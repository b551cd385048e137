# A verified model of the metasearch core

This project models the core of a small metasearch library. The library sends
one text query to several upstream search engines (Bing and DuckDuckGo),
scrapes each engine's result page into search results, and merges the
engines' lists into one ranked list. The model covers:

- the library crate `lib/`: the aggregator, the two engine adapters, engine
  dispatch, the engine handler, the top-level `Handler::search`, and the data
  and error types;
- the older `backend/` crate: its `SearchResult::new`, its `Handler::search`,
  and its DuckDuckGo adapter.

Modules follow the source files:

| module | file | models |
|---|---|---|
| `Common` | common.dfy | `Option`, `Result`, `u16`, `unwrap_or`, and small sequence facts |
| `Strings` | strings.dfy | `trim`, `trim_start_matches`, `eq_ignore_ascii_case`, `contains`, decimal `format!`, and the `<strong>` stripping regex |
| `Foreign` | foreign.dfy | URLs, HTML elements, scraped page views, and the foreign libraries as a `Libs` value |
| `Errors` | errors.dfy | lib/src/errors.rs |
| `Results` | results.dfy | `Query`, `SearchResult`, `SearchResult::new` and its `PartialEq` from lib/src/lib.rs |
| `EngineBase` | engine_base.dfy | how an engine call ends, the network call, `parse_generic_results` |
| `BingEngine` | bing.dfy | lib/src/engines/bing.rs |
| `DuckDuckGoEngine` | duckduckgo.dfy | lib/src/engines/duckduckgo.rs |
| `Engines` | engines.dfy | `Engine::search` and `get_engines` from lib/src/engines/mod.rs |
| `EngineHandling` | handler.dfy | lib/src/handler.rs |
| `Aggregation` | aggregator.dfy | lib/src/aggregator.rs |
| `Lib` | lib.dfy | `Handler::search` of lib/src/lib.rs |
| `Backend` | backend.dfy | backend/src/lib.rs |
| `BackendDuckDuckGo` | backend_duckduckgo.dfy | backend/src/engines/duckduckgo.rs |

The model keeps the source's form, part by part:

- Code that changes state step by step is written as methods with loops and
  invariants, each proved equal to a specification function:
  - `process` with its nested loops over a hash map;
  - the Bing block loop;
  - the engine registry loop of `EngineHandler::new`;
  - the spawn and join loops of `EngineHandler::search`;
  - DuckDuckGo's reassignment of `page_idx`.
- Pure code is written as functions and lemmas.

Foreign collaborators are fields of the `Libs` datatype, so every property
holds for every implementation of them. These are `Url::parse`,
`query_pairs`, base64url decoding, UTF-8 decoding, the `RE_SPAN` regex, and
the HTML selection of each engine. The network is a `Fetch` function from
request to response text or `NetworkError`. A panic (an `unwrap` that fails,
`unimplemented!()`) is the outcome `Panicked`.

The tasks of `EngineHandler::search` run concurrently. The model does this
as follows:

- Each task's result is a function of its engine and its own `Fetch`.
- The order in which the tasks finish is a parameter: a permutation of the
  task indices.
- All results are stated for every such order.

Where the code differs from what its comments, names or types suggest, the
model follows the code:

- The aggregator keys its table by the whole `Url`, scheme included. So
  `http` and `https` versions of one page are NOT merged, even though
  `PartialEq` on results ignores the scheme.
  `Aggregation.SchemeVariantsNotMerged` proves that both versions appear in
  the output.
- DuckDuckGo's comment says the offsets run "20, 70, 120". The code gives
  20, 20, 120: page 2 is special-cased to 20, and page 1 also gives
  `(1 - 1) * 50 + 20 = 20`. `DuckDuckGoEngine.OffsetsOfFirstPages` and
  `DuckDuckGoEngine.PagesOneAndTwoCoincide` state this.
- lib/src/engines/bing.rs:128 deletes `<strong>` and `</strong>` from the
  title. `Strings.StripStrong` scans left to right and deletes
  non-overlapping occurrences, as `replace_all` does.

Where the source does not type-check, the model chooses a repair:

- lib/src/lib.rs:132 passes the whole `Query` to `EngineHandler::search`.
  lib/src/handler.rs:52-58 takes the text, page, relevancy and safe level
  separately. The model connects the two as `Engine::search` does: the page
  becomes `page.unwrap_or(1)`, and the relevancy and safe level are passed
  through.
- lib/src/handler.rs:80 pushes an `EngineErrorType` into a list of
  `EngineError`. The model pairs the error with the failing engine's name,
  which is what the `EngineError` type holds.

The backend's `PartialEq` (backend/src/lib.rs:48-55) is the library's, line
for line. It is modelled by the same predicate, `Results.SameResult`.

## Model

| member | source | states |
|---|---|---|
| Results.NewSearchResult | lib/src/lib.rs:76-91 | fails with `ParseFailed` exactly when the URL does not parse; otherwise the parsed URL, the title and description verbatim, score 0 and the one given source |
| Results.SameResultIgnoresScheme | lib/src/lib.rs:67-74 | a result equals itself with any other URL scheme, both ways round |
| Results.SameResultIsEquivalence | lib/src/lib.rs:67-74 | on results whose URL has a host, equality is reflexive, symmetric and transitive |
| Results.SchemeVariantsAreDistinctUrls | lib/src/lib.rs:67-74 | results equal under `PartialEq` but differing in scheme still have different `Url` keys |
| Errors.FromTransport | lib/src/errors.rs:40-51 | a timeout becomes `ConnectionTimeout` with the host of the request URL, anything else `Unknown` with the error text; never `ProxyError` |
| Errors.FromNetwork | lib/src/errors.rs:23-24 | a network error becomes `Network` carrying it unchanged |
| Errors.NetworkMessagesDistinct | lib/src/errors.rs:27-38 | no two different network errors display the same text |
| Errors.TimeoutMessageNamesHost | lib/src/errors.rs:32-34 | a timeout displays as the fixed prefix "Request to ", then the host, then the fixed suffix " has timed out." |
| Errors.EngineErrorMessageIgnoresFields | lib/src/errors.rs:4-9 | an `EngineError` displays the same text whatever its engine and cause, because the format string does not interpolate them |
| Strings.TrimSpec | lib/src/engines/duckduckgo.rs:91-93 | `trim` returns a slice of its input that neither starts nor ends with whitespace, and everything cut off on either side is whitespace |
| Strings.TrimIdempotent | lib/src/engines/duckduckgo.rs:91-93 | trimming twice is trimming once |
| Strings.TrimStartMatchesSpec | lib/src/engines/bing.rs:49 | `trim_start_matches("a1")` removes leading repetitions of the pattern, and what is left does not start with it |
| Strings.TrimStartMatchesUnique | lib/src/engines/bing.rs:49 | on `n` repetitions followed by a rest that does not start with the pattern, exactly the `n` repetitions are removed |
| Strings.ContainsWitness | lib/src/engines/bing.rs:98 | `contains` holds only when the pattern occurs at some position |
| Strings.ContainsAt | lib/src/engines/bing.rs:98 | an occurrence of the pattern at any position makes `contains` hold |
| Strings.DecimalRoundTrip | lib/src/engines/duckduckgo.rs:54-58 | a number formatted in decimal reads back as the same number |
| Strings.NatToStringInjective | lib/src/engines/bing.rs:74-78 | different numbers format differently |
| Strings.StripStrong | lib/src/engines/bing.rs:39-40 | deleting the `<strong>` tags never makes the text longer |
| Strings.StripStrongChanges | lib/src/engines/bing.rs:128 | a title without a tag is unchanged, and one with a tag strictly shrinks |
| Strings.StripStrongNoAngle | lib/src/engines/bing.rs:128 | a text without `<` is left alone |
| EngineBase.FetchFailed | lib/src/engines/bing.rs:91 | the `?` on a failed `get_data` ends the call as `Network` with that error |
| EngineBase.ParseGenericResults | lib/src/engines/mod.rs:63-72 | at most one result per block; each result is a builder output of some block; every block the builder accepts has its result present |
| EngineBase.ParseGenericAppend | lib/src/engines/mod.rs:63-72 | results keep document order: on two runs of blocks, the results are the first run's followed by the second's |
| EngineBase.ParseGenericAllKept | lib/src/engines/mod.rs:63-72 | when the builder accepts every block, result `i` is block `i`'s output |
| EngineBase.ParseGenericNoneKept | lib/src/engines/mod.rs:63-72 | when the builder rejects every block, the result is empty, still `Ok` |
| Engines.Engine.Search | lib/src/engines/mod.rs:24-42 | a text query runs `search_text` on `page.unwrap_or(1)`, with its text; image and file queries panic |
| Engines.AbsentPageIsPageOne | lib/src/engines/mod.rs:33 | a query without a page is run exactly as one asking for page 1 |
| Engines.GetEngines | lib/src/engines/mod.rs:58-60 | Bing, then DuckDuckGo, and nothing else |
| Engines.NamesDistinct | lib/src/engines/mod.rs:58-60 | the engines have different names |
| Engines.ExpectedResultsFresh | lib/src/lib.rs:83-89 | every result an engine returns has score 0 and that engine's name as its one source |
| BingEngine.PageUrl | lib/src/engines/bing.rs:74-79 | page 0 is the bare search URL; page `p >= 1` appends `&first=` and the decimal `10 p + 1` |
| BingEngine.PageUrlFirstResult | lib/src/engines/bing.rs:74-78 | the `first` parameter of page `p` is all digits and reads back as `10 p + 1` |
| BingEngine.PageUrlInjective | lib/src/engines/bing.rs:74-79 | different pages of one query send different requests |
| BingEngine.FirstU | lib/src/engines/bing.rs:46-54 | the value of the first query pair named `u`, or nothing when no pair is named `u` |
| BingEngine.DecodeU | lib/src/engines/bing.rs:49-51 | succeeds exactly when base64url decoding of the value without its leading `a1`s succeeds and the bytes are UTF-8 |
| BingEngine.OgUrl | lib/src/engines/bing.rs:43-56 | the decoded first `u` value, or `ParseFailed` when the URL does not parse, has no `u` pair, or the first `u` does not decode |
| BingEngine.OgUrlIgnoresLaterPairs | lib/src/engines/bing.rs:46-54 | URLs that agree up to and including their first `u` pair give the same answer, whatever pairs follow |
| BingEngine.DecodeUStripsMarks | lib/src/engines/bing.rs:49 | any number of leading `a1` marks are ignored before decoding |
| BingEngine.NoResultsOnlyWithClass | lib/src/engines/bing.rs:94-103 | a fetched page gives `NoResults` exactly when its first `.b_results` element has a class containing `b_algo` |
| BingEngine.ScrapeNeverNoResults | lib/src/engines/bing.rs:107-135 | the block loop itself never reports `NoResults` |
| BingEngine.Description | lib/src/engines/bing.rs:110-112 | the description is the `.b_caption p` match, or the `.b_lineclamp3 p` match when there is no `.b_caption p` |
| BingEngine.BlockStep | lib/src/engines/bing.rs:108-131 | a block lacking title, link or description, or one whose link has no `href`, is skipped; an undecodable click-tracking link panics; a final URL that does not parse ends the call with `ParseFailed`; otherwise the result's URL is the parsed final URL (the decoded target of a click-tracking link, else the `href`), with the stripped, trimmed title and description, score 0 and source Bing |
| BingEngine.ScrapeNoStop | lib/src/engines/bing.rs:107-138 | when no block stops the loop, it returns the kept blocks' results in document order |
| BingEngine.ScrapeFirstStop | lib/src/engines/bing.rs:107-135 | when block `i` is the first to stop the loop, the call ends as that block says, whatever the later blocks hold |
| BingEngine.ScrapeResultsFresh | lib/src/engines/bing.rs:126-131 | every result of the loop has score 0 and Bing as its one source |
| BingEngine.SearchText | lib/src/engines/bing.rs:66-139 | the method's request, no-results check and block loop (with `continue`, early return and panic) compute the specification `Expected` |
| DuckDuckGoEngine.Offset | lib/src/engines/duckduckgo.rs:47-52 | the offset of a page `p >= 1` is 20 more than a multiple of 50, and `s + 1` fits in `u16` |
| DuckDuckGoEngine.OffsetsOfFirstPages | lib/src/engines/duckduckgo.rs:47-52 | pages 1, 2, 3 and 4 ask for offsets 20, 20, 120 and 170 |
| DuckDuckGoEngine.OffsetIncreasing | lib/src/engines/duckduckgo.rs:47-52 | from page 2 on, later pages ask for larger offsets, 50 apart from page 3 on |
| DuckDuckGoEngine.OffsetUrlParts | lib/src/engines/duckduckgo.rs:54-58 | the URL of a page `p >= 1` is `duckduckgo.com`, with `s` reading back as the offset, `dc` as the offset plus one, and the fixed suffix |
| DuckDuckGoEngine.SearchUrlShape | lib/src/engines/duckduckgo.rs:43-60 | page 0 asks `html.duckduckgo.com` with empty `s` and `dc`; page `p >= 1` asks `duckduckgo.com` at its offset |
| DuckDuckGoEngine.PagesOneAndTwoCoincide | lib/src/engines/duckduckgo.rs:47-52 | pages 1 and 2 send the same request; page 0 sends a different one |
| DuckDuckGoEngine.BuildUrl | lib/src/engines/duckduckgo.rs:43-60 | the code's reassignment of `page_idx` before formatting gives the specified URL |
| DuckDuckGoEngine.Builder | lib/src/engines/duckduckgo.rs:84-100 | a block missing title, URL or snippet gives nothing, and so does one whose `https://` URL does not parse; a kept block gives `https://` plus the trimmed URL text, the trimmed title and snippet, score 0 and source DuckDuckGo |
| DuckDuckGoEngine.SentinelDecides | lib/src/engines/duckduckgo.rs:76-82 | a page with the no-results sentinel gives `NoResults` whatever blocks it holds; a page without it succeeds, each result coming from one of its blocks |
| DuckDuckGoEngine.ExpectedResultsFresh | lib/src/engines/duckduckgo.rs:84-100 | the adapter never panics, and every result has score 0 and DuckDuckGo as its one source |
| DuckDuckGoEngine.SearchText | lib/src/engines/duckduckgo.rs:35-105 | the method computes the specification `Expected`: fetch failure as `Network`, sentinel as `NoResults`, otherwise the builder's results |
| EngineHandling.NoNameSelectsBoth | lib/src/handler.rs:29-33 | no configured name selects both engines, so each name adds at most one |
| EngineHandling.AddedExactly | lib/src/handler.rs:29-33 | a name adds exactly the engine it equals ignoring ASCII case, and a name equal to neither adds nothing |
| EngineHandling.RegistrySize | lib/src/handler.rs:27-34 | the registry is no longer than the list of names, and exactly as long when every name selects an engine |
| EngineHandling.RegistryAppend | lib/src/handler.rs:27-34 | names configured one after another register their engines in that order |
| EngineHandling.RegistryContains | lib/src/handler.rs:27-34 | an engine is registered exactly when some configured name selects it |
| EngineHandling.RegistryExamples | lib/src/handler.rs:27-34 | "bing", "duckduckgo" register Bing then DuckDuckGo; "BING", "google", "bing" register Bing twice |
| EngineHandling.New | lib/src/handler.rs:21-45 | the registry loop's engines are the registry of the names, an empty one included |
| EngineHandling.Partition | lib/src/handler.rs:76-90 | at most one entry per finished task; every result list is some task's `Ok` list and every error some task's `Err` with its engine |
| EngineHandling.PartitionSnoc | lib/src/handler.rs:77-81 | a finished `Ok` list, even an empty one, is appended to the results unchanged; an `Err` goes to the errors; a panicked task adds nothing |
| EngineHandling.PartitionCounts | lib/src/handler.rs:76-90 | the two lists together have one entry per finished task exactly when no task panicked |
| EngineHandling.PartitionKeepsAll | lib/src/handler.rs:77-81 | every successful task's list is among the results and every failed task's error among the errors |
| EngineHandling.Spawn | lib/src/handler.rs:61-71 | task `i` holds the outcome of engine `i`'s `search_text` with the same query and page |
| EngineHandling.Join | lib/src/handler.rs:76-90 | the join loop's two lists are the partition of the tasks in completion order |
| EngineHandling.Search | lib/src/handler.rs:52-93 | the results and errors are the partition of every engine's outcome, in the given completion order |
| EngineHandling.SearchCounts | lib/src/handler.rs:76-90 | results and errors together have at most one entry per engine, and exactly one per engine when no task panics |
| EngineHandling.SearchResultsFromEngines | lib/src/handler.rs:61-81 | every list in the results is what one of the registered engines returned |
| Aggregation.Aggregator.Process | lib/src/aggregator.rs:24-52 | the output holds the merged table's entries, each once, sorted by score from high to low; no URL twice, every input URL present, the score sum equal to the total weight handed out, empty exactly when every list is empty, and each entry the merge of all occurrences of its URL |
| Aggregation.AddList | lib/src/aggregator.rs:30-44 | the inner loop merges one list's weighted items, last to first, into the table the map represents |
| Aggregation.AddAt | lib/src/aggregator.rs:30-43 | one turn of the inner loop absorbs the item at reverse position `pos + 1`, weighted, keeping the map representing the table |
| Aggregation.AddListStep | lib/src/aggregator.rs:30-41 | the item visited at turn `pos` is the list's item `n - 1 - pos`, scored with position `pos + 1` of `n` |
| Aggregation.AddOne | lib/src/aggregator.rs:31-43 | a URL already in the map adds the weight to its score and appends the sources; a new URL is entered with the weight as its score |
| Aggregation.InsertRepresented | lib/src/aggregator.rs:31-42 | both branches of the loop body keep the map representing the table |
| Aggregation.InsertKeepsUrls | lib/src/aggregator.rs:31-42 | an insertion keeps the table free of repeated URLs and adds the incoming URL, growing the table only for a new URL |
| Aggregation.Values | lib/src/aggregator.rs:47 | `into_values` lists every entry of the map once, in an order left open |
| Aggregation.TableContents | lib/src/aggregator.rs:47 | any such listing holds exactly the table's entries |
| Aggregation.SortByScore | lib/src/aggregator.rs:49 | the sort yields a permutation of its input, sorted by score from high to low |
| Aggregation.InsertByScoreSorted | lib/src/aggregator.rs:49 | inserting into a list sorted by score keeps it sorted |
| Aggregation.PermutationPreservesSum | lib/src/aggregator.rs:47-49 | reordering the entries does not change their total score |
| Aggregation.MergeKeepsUrls | lib/src/aggregator.rs:25-45 | the table has an entry for exactly the URLs visited, none twice |
| Aggregation.MergeConservesScore | lib/src/aggregator.rs:35-41 | merging neither creates nor loses score |
| Aggregation.MergeEntry | lib/src/aggregator.rs:31-42 | each entry keeps the first occurrence's URL, title and description, the sum of all its occurrences' weights, and all their sources in visit order |
| Aggregation.AllSourcesCount | lib/src/aggregator.rs:37-41 | with single-source inputs, an entry has one source per occurrence of its URL |
| Aggregation.ScoredSingleSource | lib/src/aggregator.rs:30-40 | weighting keeps each item's sources, so single-source lists give single-source weighted items |
| Aggregation.SourcesPerOccurrence | lib/src/aggregator.rs:37-41 | in `process`'s output on single-source lists, each entry has exactly as many sources as its URL has occurrences in the input |
| Aggregation.MergeEmpty | lib/src/aggregator.rs:27-47 | the table is empty exactly when nothing was visited |
| Aggregation.ScoredEmpty | lib/src/aggregator.rs:27-47 | nothing is visited exactly when every list is empty |
| Aggregation.ScoredUrls | lib/src/aggregator.rs:27-30 | the weighted items carry exactly the input URLs |
| Aggregation.Aggregator.Multiplier | lib/src/aggregator.rs:57-60 | a configured engine gets its configured multiplier; an engine absent from the map gets 1.0 |
| Aggregation.RankWeight | lib/src/aggregator.rs:55-62 | the item at rank `j` of a list of `n` gets the multiplier of its last source (1.0 for an unconfigured engine) times `(n - j) / n` |
| Aggregation.EndWeights | lib/src/aggregator.rs:55-62 | a list's best item gets its engine's full multiplier, the worst `1/n` of it |
| Aggregation.HigherRankWeighsMore | lib/src/aggregator.rs:28-40 | with equal positive multipliers, weights strictly decrease along a list |
| Aggregation.SchemeVariantsNotMerged | lib/src/aggregator.rs:25-31 | two input results equal under `PartialEq` but differing in scheme both appear in the output |
| Lib.Handler.EffectiveQuery | lib/src/lib.rs:127-130 | a query's own safe-search level is kept; a missing one becomes the handler's default; nothing else changes |
| Lib.EffectiveQueryIdempotent | lib/src/lib.rs:127-130 | filling in the default twice is filling it in once, and a query that names a level is left alone |
| Lib.Handler.Gathered | lib/src/lib.rs:132 | every gathered result names a source, as the aggregator requires |
| Lib.GatheredSourcesNonEmpty | lib/src/lib.rs:132-134 | the engine handler's results always meet the aggregator's precondition |
| Lib.Handler.Search | lib/src/lib.rs:127-137 | the errors are the engine handler's, unchanged; the results are the aggregator's output on its lists, with all of `process`'s guarantees |
| Lib.SearchReportsEveryEngine | lib/src/lib.rs:132-136 | results and errors account for at most one entry per engine, and exactly one each when no task panics |
| Backend.NewResult | backend/src/lib.rs:57-67 | the URL parser's error is propagated unchanged; otherwise score 0, one source, title and description verbatim |
| Backend.NewResultMatchesLibrary | backend/src/lib.rs:57-67 | the older constructor builds the same result as the library's and fails on the same inputs, with its own error |
| Backend.Handler.Search | backend/src/lib.rs:92-105 | the errors pass through unchanged and the results are `process` of the raw lists, with its guarantees |
| BackendDuckDuckGo.Offset | backend/src/engines/duckduckgo.rs:48-53 | page `p >= 1` asks for offset `30 p`, and `30 p + 1` fits in `u16` |
| BackendDuckDuckGo.SearchUrlShape | backend/src/engines/duckduckgo.rs:44-55 | page 0 sends the library's page-0 request; page `p >= 1` asks `duckduckgo.com` with `s = 30 p` and `dc = 30 p + 1` |
| BackendDuckDuckGo.OffsetsDifferFromLibrary | backend/src/engines/duckduckgo.rs:48-53 | the older adapter agrees with the library on page 0 and asks for a different offset on every other page |
| BackendDuckDuckGo.Builder | backend/src/engines/duckduckgo.rs:84-99 | a block missing title, URL or snippet yields nothing; a complete block yields `SearchResult::new` on `https://` plus the trimmed URL text, failing exactly when that does not parse |
| BackendDuckDuckGo.SearchText | backend/src/engines/duckduckgo.rs:35-100 | a page that is not a no-results page yields one builder output per block |
| BackendDuckDuckGo.NoResultsOnlyWithClass | backend/src/engines/duckduckgo.rs:73-82 | `NoResults` exactly when the first `.no-results` element has a class containing `b_algo`; otherwise every block's builder output, in order |
| BackendDuckDuckGo.OutputsFresh | backend/src/engines/duckduckgo.rs:89-95 | every result a complete block yields has score 0 and DuckDuckGo as its one source |

## Left out

- Networking is not modelled: `NetworkHandler`, `reqwest`, proxies, the Tor probe, timeouts and the user-agent choice are I/O or randomness. `get_data` is the `Fetch` parameter, which returns response text or a `NetworkError`.
- Concurrency is not modelled. The `JoinSet` tasks are their outcomes, and the completion order is a parameter.
- A join failure of a task other than a panic (a cancelled task) is not modelled separately. It adds nothing to either list, the same as a panic.
- Foreign libraries are parameters in `Libs`: `Url::parse`, `query_pairs`, `base64_url::decode`, `String::from_utf8`, the `RE_SPAN` regex and `scraper`'s HTML parsing and CSS selection. Their correctness is not modelled; pages are datatypes of optional elements.
- Scores are `real`. `f32` rounding is not modelled, nor the NaN panic of `partial_cmp(...).unwrap()` in the sort.
- The order among equal scores is not modelled, because it comes from hash-map iteration. `Aggregation.Values` returns the map's entries in an order the caller cannot choose.
- BingEngine.PageUrl: requires page <= 6553, because `10 * page_idx + 1` overflows `u16` above it; the overflow is not modelled.
- DuckDuckGoEngine.SearchUrl: requires page <= 1311, because `(page_idx - 1) * 50 + 20` overflows `u16` above it; the overflow is not modelled.
- BackendDuckDuckGo.SearchUrl: requires page <= 2184, because `page_idx * 30 + 1` overflows `u16` above it; the overflow is not modelled.
- EngineHandling.Search: requires a page that is in range for every engine, the smallest of the bounds above.
- Engines.Engine.Search: the trait's default `search_text`, which is `unimplemented!()`, is not modelled, because both engines override it.
- `HeaderMap::try_from(...).unwrap()` is not modelled: the header map is a constant `map`, and the conversion of these fixed headers cannot fail.
- The query text is interpolated into the URL as given. The model, like the code, does no percent-encoding.
- The constructors `Handler::new`, `Aggregator::new` and `NetworkHandler::new` are not modelled. They only store their arguments or do I/O.
- Logging (`tracing`) is not modelled.
- backend/src/engines/mod.rs, backend/src/handler.rs, backend/src/aggregator.rs and backend/src/errors.rs are not part of this model. So:
  - the backend's `parse_generic_results` is not modelled, and `BackendDuckDuckGo.SearchText` stops at the builder's outputs, one per block;
  - `Backend.Handler.Search` takes the engine handler's lists as inputs and aggregates them with the library's aggregator.
- The `src/` binary (server, configuration, command line, templates) is presentation and I/O, and is not modelled.
- Errors.FromTransport: requires a timeout error to carry a URL with a host. The code unwraps both and would panic otherwise.
- Results.SameResult: requires both URLs to have a host. `eq` unwraps `host()` on both sides and would panic on a URL without one (lib/src/lib.rs:67-74).
- Foreign.Url keeps only the scheme, host, path and query of a parsed URL. The real `Url` key also tells apart the port, the fragment and the user information, so `DistinctUrls` and the merging in `Aggregation` are stated at this coarser grain: two URLs differing only in those parts are one key in the model.
- Aggregation.Aggregator.Process: requires every input result to name a source. `score_result` unwraps the last source and would panic otherwise; every engine's results meet this, as Lib.GatheredSourcesNonEmpty shows.
- Backend.Handler.Search: requires every input result to name a source, for the same reason.
