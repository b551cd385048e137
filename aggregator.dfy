/**
 * The aggregator of lib/src/aggregator.rs: merges the engines' result lists
 * into one list without repeated URLs, scored by position and multiplier
 * and sorted by score, highest first.
 *
 * The specification is built in three layers:
 *   `Weighted` / `Scored` — every input item with its positional weight, in
 *   the order the nested loops visit them (list by list, each list from its
 *   least relevant item to its most relevant);
 *   `Merge` — the table the loops build, as a sequence in first-insertion
 *   order;
 *   `Process` — the method, whose output is that table's contents sorted.
 */
module Aggregation {
  import opened Common
  import opened Foreign
  import opened Results

  // ---------------------------------------------------------------------------
  // Sequences of results
  // ---------------------------------------------------------------------------

  function Last(s: seq<string>): string
    requires s != []
  {
    s[|s| - 1]
  }

  function SumScores(s: seq<SearchResult>): real {
    if s == [] then 0.0 else SumScores(s[..|s| - 1]) + s[|s| - 1].score
  }

  function Urls(s: seq<SearchResult>): set<Url> {
    set x | x in s :: x.url
  }

  predicate DistinctUrls(s: seq<SearchResult>) {
    forall i, j :: 0 <= i < j < |s| ==> s[i].url != s[j].url
  }

  predicate SortedByScore(s: seq<SearchResult>) {
    forall i, j :: 0 <= i < j < |s| ==> s[i].score >= s[j].score
  }

  /** Every input result names at least one source (`SearchResult::new` gives exactly one). */
  predicate SourcesNonEmpty(raw: seq<seq<SearchResult>>) {
    forall i, j :: 0 <= i < |raw| && 0 <= j < |raw[i]| ==> raw[i][j].sources != []
  }

  /** The URLs of every item of every input list. */
  function InputUrls(raw: seq<seq<SearchResult>>): set<Url> {
    set i, j | 0 <= i < |raw| && 0 <= j < |raw[i]| :: raw[i][j].url
  }

  // ---------------------------------------------------------------------------
  // The merge table
  // ---------------------------------------------------------------------------

  /** Where `u` sits in the table, if anywhere. */
  function IndexOfUrl(chain: seq<SearchResult>, u: Url): (k: Option<nat>)
    ensures k.Some? ==> k.value < |chain| && chain[k.value].url == u
    ensures k.None? ==> u !in Urls(chain)
    ensures k.Some? ==> forall j :: 0 <= j < k.value ==> chain[j].url != u
  {
    if chain == [] then None
    else if chain[0].url == u then Some(0)
    else match IndexOfUrl(chain[1..], u)
      case None => assert forall x :: x in chain[1..] ==> x.url != u; None
      case Some(k) => Some(k + 1)
  }

  /** A repeat of a table entry: the weights add up and the sources are appended. */
  function Absorb(existing: SearchResult, incoming: SearchResult): SearchResult {
    existing.(score := existing.score + incoming.score, sources := existing.sources + incoming.sources)
  }

  /** One step of the inner loop: merge into the entry with the same URL, or add a new entry. */
  function Insert(chain: seq<SearchResult>, x: SearchResult): seq<SearchResult> {
    match IndexOfUrl(chain, x.url)
    case Some(k) => chain[k := Absorb(chain[k], x)]
    case None => chain + [x]
  }

  /** The table after visiting `items` in order. */
  function Merge(items: seq<SearchResult>): seq<SearchResult> {
    if items == [] then [] else Insert(Merge(items[..|items| - 1]), items[|items| - 1])
  }

  // ---------------------------------------------------------------------------
  // The aggregator
  // ---------------------------------------------------------------------------

  datatype Aggregator = Aggregator(scoreMultipliers: map<string, real>) {

    /** The configured multiplier of an engine; an engine absent from the map gets 1.0. */
    function Multiplier(engine: string): (m: real)
      ensures engine !in scoreMultipliers ==> m == 1.0
      ensures engine in scoreMultipliers ==> m == scoreMultipliers[engine]
    {
      if engine in scoreMultipliers then scoreMultipliers[engine] else 1.0
    }

    /**
     * `score_result`: the multiplier of the result's last source times
     * `pos / total`. The code unwraps the last source.
     */
    function ScoreResult(r: SearchResult, pos: nat, total: nat): real
      requires r.sources != [] && total > 0
    {
      Multiplier(Last(r.sources)) * (pos as real / total as real)
    }

    /**
     * One engine's list as the inner loop visits it: reversed, the item at
     * reverse position `pos + 1` carrying its weight as its score.
     */
    function Weighted(xs: seq<SearchResult>): (ws: seq<SearchResult>)
      requires forall j :: 0 <= j < |xs| ==> xs[j].sources != []
      ensures |ws| == |xs|
    {
      seq(|xs|, pos requires 0 <= pos < |xs| =>
        var r := xs[|xs| - 1 - pos]; r.(score := ScoreResult(r, pos + 1, |xs|)))
    }

    /** Every item of every list, weighted, in the order the nested loops visit them. */
    function Scored(raw: seq<seq<SearchResult>>): seq<SearchResult>
      requires SourcesNonEmpty(raw)
    {
      if raw == [] then []
      else
        assert SourcesNonEmpty(raw[..|raw| - 1]);
        Scored(raw[..|raw| - 1]) + Weighted(raw[|raw| - 1])
    }

    /**
     * `Aggregator::process`. The output holds the merged table's entries,
     * each exactly once, sorted by score from high to low; no URL occurs
     * twice, every input URL occurs, and the scores add up to the sum of all
     * the weights handed out. The order among equal scores is left open, as
     * the hash map's iteration order leaves it in the code.
     */
    method Process(raw: seq<seq<SearchResult>>) returns (out: seq<SearchResult>)
      requires SourcesNonEmpty(raw)
      ensures multiset(out) == multiset(Merge(Scored(raw)))
      ensures SortedByScore(out)
      ensures DistinctUrls(out)
      ensures Urls(out) == InputUrls(raw)
      ensures SumScores(out) == SumScores(Scored(raw))
      ensures out == [] <==> forall i :: 0 <= i < |raw| ==> raw[i] == []
      ensures forall x :: x in out ==> Merged(WithUrl(Scored(raw), x.url), x)
    {
      var deduped: map<Url, SearchResult> := map[];
      ghost var chain: seq<SearchResult> := [];
      var i := 0;
      while i < |raw|
        invariant 0 <= i <= |raw|
        invariant SourcesNonEmpty(raw[..i])
        invariant chain == Merge(Scored(raw[..i]))
        invariant Represents(deduped, chain)
      {
        ScoredSnoc(this, raw, i);
        deduped, chain := AddList(this, deduped, chain, Scored(raw[..i]), raw[i]);
        i := i + 1;
      }
      assert raw[..i] == raw;

      // `into_values().collect()`: the table's values, in whatever order it yields them.
      var agg := Values(deduped);
      TableContents(deduped, chain, agg);
      out := SortByScore(agg);
      OutputFacts(this, raw, out);
    }
  }

  /**
   * The inner loop of `process`: one engine's list, from its last item to
   * its first, each weighted by its reverse position and merged into the
   * table. `before` is everything visited so far.
   */
  method AddList(a: Aggregator, m: map<Url, SearchResult>, ghost chain: seq<SearchResult>,
                 ghost before: seq<SearchResult>, results: seq<SearchResult>)
    returns (deduped: map<Url, SearchResult>, ghost chain': seq<SearchResult>)
    requires forall j :: 0 <= j < |results| ==> results[j].sources != []
    requires chain == Merge(before) && Represents(m, chain)
    ensures chain' == Merge(before + a.Weighted(results)) && Represents(deduped, chain')
  {
    deduped, chain' := m, chain;
    ghost var ws := a.Weighted(results);
    var pos := 0;
    assert before + ws[..0] == before;
    while pos < |results|
      invariant 0 <= pos <= |results|
      invariant chain' == Merge(before + ws[..pos])
      invariant Represents(deduped, chain')
    {
      deduped, chain' := AddAt(a, results, before, pos, deduped, chain');
      pos := pos + 1;
    }
    assert ws[..pos] == ws;
  }

  /** The inner loop visits the item at reverse position `pos + 1`. */
  method AddAt(a: Aggregator, results: seq<SearchResult>, ghost before: seq<SearchResult>, pos: nat,
               m: map<Url, SearchResult>, ghost chain: seq<SearchResult>)
    returns (deduped: map<Url, SearchResult>, ghost chain': seq<SearchResult>)
    requires forall j :: 0 <= j < |results| ==> results[j].sources != []
    requires pos < |results|
    requires chain == Merge(before + a.Weighted(results)[..pos]) && Represents(m, chain)
    ensures chain' == Merge(before + a.Weighted(results)[..pos + 1]) && Represents(deduped, chain')
  {
    var result := results[|results| - 1 - pos];
    var w := a.ScoreResult(result, pos + 1, |results|);
    AddListStep(a, results, before, pos);
    deduped, chain' := AddOne(m, chain, result, w);
  }

  /**
   * The inner loop's body: an item whose URL is already in the table adds
   * its weight to the entry's score and its sources to the entry's sources;
   * a new URL is entered with the item's weight as its score.
   */
  method AddOne(m: map<Url, SearchResult>, ghost chain: seq<SearchResult>, result: SearchResult, w: real)
    returns (deduped: map<Url, SearchResult>, ghost chain': seq<SearchResult>)
    requires Represents(m, chain)
    ensures chain' == Insert(chain, result.(score := w)) && Represents(deduped, chain')
  {
    InsertRepresented(m, chain, result, w);
    if result.url in m {
      var existing := m[result.url];
      deduped := m[result.url := existing.(score := existing.score + w, sources := existing.sources + result.sources)];
    } else {
      deduped := m[result.url := result.(score := w)];
    }
    chain' := Insert(chain, result.(score := w));
  }

  /**
   * The values of the table, each once, in an order the caller does not
   * choose (as a hash map's iteration order).
   */
  method Values(m: map<Url, SearchResult>) returns (vs: seq<SearchResult>)
    requires forall k :: k in m ==> m[k].url == k
    ensures DistinctUrls(vs)
    ensures Urls(vs) == m.Keys
    ensures forall j :: 0 <= j < |vs| ==> vs[j].url in m && vs[j] == m[vs[j].url]
  {
    var keys := m.Keys;
    vs := [];
    while keys != {}
      invariant Listing(m, vs, keys)
      decreases |keys|
    {
      var k :| k in keys;
      ListingStep(m, vs, keys, k);
      vs := vs + [m[k]];
      keys := keys - {k};
    }
  }

  /** `vs` lists the entries of `m` outside `keys`, each once. */
  ghost predicate Listing(m: map<Url, SearchResult>, vs: seq<SearchResult>, keys: set<Url>) {
    && keys <= m.Keys
    && Urls(vs) + keys == m.Keys && Urls(vs) !! keys
    && (forall j :: 0 <= j < |vs| ==> vs[j].url in m && vs[j] == m[vs[j].url])
    && DistinctUrls(vs)
  }

  lemma ListingStep(m: map<Url, SearchResult>, vs: seq<SearchResult>, keys: set<Url>, k: Url)
    requires forall k :: k in m ==> m[k].url == k
    requires Listing(m, vs, keys) && k in keys
    ensures Listing(m, vs + [m[k]], keys - {k})
  {
    UrlsAppend(vs, m[k]);
    forall j | 0 <= j < |vs| ensures vs[j].url != k {
      assert vs[j].url in Urls(vs);
    }
  }

  /** One more item of the list visited: the table absorbs that item, weighted. */
  lemma AddListStep(a: Aggregator, results: seq<SearchResult>, before: seq<SearchResult>, pos: nat)
    requires forall j :: 0 <= j < |results| ==> results[j].sources != []
    requires pos < |results|
    ensures var r := results[|results| - 1 - pos];
            Merge(before + a.Weighted(results)[..pos + 1])
              == Insert(Merge(before + a.Weighted(results)[..pos]), r.(score := a.ScoreResult(r, pos + 1, |results|)))
  {
    var ws := a.Weighted(results);
    WeightedAt(a, results, pos);
    PrefixSnoc(before, ws, pos);
    MergeSnoc(before + ws[..pos], ws[pos]);
  }

  lemma WeightedAt(a: Aggregator, xs: seq<SearchResult>, pos: nat)
    requires forall j :: 0 <= j < |xs| ==> xs[j].sources != []
    requires pos < |xs|
    ensures a.Weighted(xs)[pos] == xs[|xs| - 1 - pos].(score := a.ScoreResult(xs[|xs| - 1 - pos], pos + 1, |xs|))
  {
  }

  lemma MergeSnoc(items: seq<SearchResult>, x: SearchResult)
    ensures Merge(items + [x]) == Insert(Merge(items), x)
  {
    assert (items + [x])[..|items|] == items;
  }

  lemma PrefixSnoc<T>(before: seq<T>, ws: seq<T>, pos: nat)
    requires pos < |ws|
    ensures before + ws[..pos + 1] == (before + ws[..pos]) + [ws[pos]]
  {
  }

  /** The loops visit one more list. */
  lemma ScoredSnoc(a: Aggregator, raw: seq<seq<SearchResult>>, i: nat)
    requires i < |raw| && SourcesNonEmpty(raw)
    ensures SourcesNonEmpty(raw[..i]) && SourcesNonEmpty(raw[..i + 1])
    ensures a.Scored(raw[..i + 1]) == a.Scored(raw[..i]) + a.Weighted(raw[i])
  {
    assert raw[..i + 1][..i] == raw[..i];
  }

  /** What follows about an output that is the sorted contents of the merged table. */
  lemma OutputFacts(a: Aggregator, raw: seq<seq<SearchResult>>, out: seq<SearchResult>)
    requires SourcesNonEmpty(raw)
    requires multiset(out) == multiset(Merge(a.Scored(raw)))
    ensures DistinctUrls(out)
    ensures Urls(out) == InputUrls(raw)
    ensures SumScores(out) == SumScores(a.Scored(raw))
    ensures out == [] <==> forall i :: 0 <= i < |raw| ==> raw[i] == []
    ensures forall x :: x in out ==> Merged(WithUrl(a.Scored(raw), x.url), x)
  {
    var chain := Merge(a.Scored(raw));
    forall x | x in out ensures Merged(WithUrl(a.Scored(raw), x.url), x) {
      assert x in multiset(chain);
      var k :| 0 <= k < |chain| && chain[k] == x;
      MergeEntry(a.Scored(raw), x.url, k);
    }
    MergeKeepsUrls(a.Scored(raw));
    MultisetKeepsUrls(out, chain);
    ScoredUrls(raw);
    PermutationPreservesSum(out, chain);
    MergeConservesScore(a.Scored(raw));
    ScoredEmpty(raw);
    MergeEmpty(a.Scored(raw));
    assert |out| == |multiset(out)| == |chain|;
  }

  // ---------------------------------------------------------------------------
  // The hash map stands for the table
  // ---------------------------------------------------------------------------

  /** The map holds exactly the table's entries, keyed by their URLs. */
  ghost predicate Represents(m: map<Url, SearchResult>, chain: seq<SearchResult>) {
    && DistinctUrls(chain)
    && m.Keys == Urls(chain)
    && (forall j :: 0 <= j < |chain| ==> m[chain[j].url] == chain[j])
    && (forall k :: k in m ==> m[k].url == k)
  }

  /** A listing of the map's values holds the same entries as the table the map represents. */
  lemma TableContents(m: map<Url, SearchResult>, chain: seq<SearchResult>, vs: seq<SearchResult>)
    requires Represents(m, chain)
    requires DistinctUrls(vs) && Urls(vs) == m.Keys
    requires forall j :: 0 <= j < |vs| ==> vs[j].url in m && vs[j] == m[vs[j].url]
    ensures multiset(vs) == multiset(chain)
  {
    forall x | x in vs ensures x in chain {
      var j :| 0 <= j < |vs| && vs[j] == x;
      assert x.url in Urls(chain);
      var y :| y in chain && y.url == x.url;
      var jj :| 0 <= jj < |chain| && chain[jj] == y;
    }
    forall x | x in chain ensures x in vs {
      var jj :| 0 <= jj < |chain| && chain[jj] == x;
      assert x.url in Urls(vs);
      var y :| y in vs && y.url == x.url;
      var j :| 0 <= j < |vs| && vs[j] == y;
    }
    SameElementsSameMultiset(vs, chain);
  }

  lemma UrlsAppend(s: seq<SearchResult>, x: SearchResult)
    ensures Urls(s + [x]) == Urls(s) + {x.url}
  {
    assert forall y :: y in s + [x] <==> y in s || y == x;
  }

  /** Inserting keeps the URLs distinct and adds the incoming URL. */
  lemma InsertKeepsUrls(chain: seq<SearchResult>, x: SearchResult)
    requires DistinctUrls(chain)
    ensures DistinctUrls(Insert(chain, x))
    ensures Urls(Insert(chain, x)) == Urls(chain) + {x.url}
    ensures |Insert(chain, x)| == if x.url in Urls(chain) then |chain| else |chain| + 1
  {
    var c := Insert(chain, x);
    match IndexOfUrl(chain, x.url)
    case Some(k) =>
      forall i, j | 0 <= i < j < |c| ensures c[i].url != c[j].url {
        assert c[i].url == chain[i].url && c[j].url == chain[j].url;
      }
      assert Urls(c) == Urls(chain) by {
        forall u | u in Urls(chain) ensures u in Urls(c) {
          var y :| y in chain && y.url == u;
          var jj :| 0 <= jj < |chain| && chain[jj] == y;
          assert c[jj].url == u;
        }
        forall u | u in Urls(c) ensures u in Urls(chain) {
          var y :| y in c && y.url == u;
          var jj :| 0 <= jj < |c| && c[jj] == y;
          assert chain[jj].url == u;
        }
      }
    case None =>
      forall i, j | 0 <= i < j < |c| ensures c[i].url != c[j].url {
        if j == |chain| {
          assert chain[i] in chain;
        }
      }
      assert Urls(c) == Urls(chain) + {x.url} by {
        assert forall y :: y in c <==> y in chain || y == x;
      }
  }

  /** The loop body's update of the map mirrors `Insert` on the table. */
  lemma InsertRepresented(m: map<Url, SearchResult>, chain: seq<SearchResult>, result: SearchResult, w: real)
    requires Represents(m, chain)
    ensures result.url in m ==>
      Represents(m[result.url := m[result.url].(score := m[result.url].score + w, sources := m[result.url].sources + result.sources)],
                 Insert(chain, result.(score := w)))
    ensures result.url !in m ==> Represents(m[result.url := result.(score := w)], Insert(chain, result.(score := w)))
  {
    var x := result.(score := w);
    InsertKeepsUrls(chain, x);
    var c := Insert(chain, x);
    match IndexOfUrl(chain, x.url)
    case Some(k) =>
      var m' := m[x.url := Absorb(m[x.url], x)];
      assert m[x.url] == chain[k];
      forall j | 0 <= j < |c| ensures m'[c[j].url] == c[j] {
        if j != k {
          assert c[j] == chain[j];
          assert chain[j].url != x.url by {
            if j < k { assert chain[j].url != chain[k].url; }
            else { assert chain[k].url != chain[j].url; }
          }
        }
      }
    case None =>
      assert x.url !in m;
  }

  // ---------------------------------------------------------------------------
  // Sorting
  // ---------------------------------------------------------------------------

  /** Inserts `x` into a list sorted by score, before the first entry it does not score below. */
  function InsertByScore(s: seq<SearchResult>, x: SearchResult): (r: seq<SearchResult>)
    ensures multiset(r) == multiset(s) + multiset{x}
  {
    if s == [] || x.score >= s[0].score then [x] + s
    else
      assert s == [s[0]] + s[1..];
      [s[0]] + InsertByScore(s[1..], x)
  }

  /** Inserting into a sorted list keeps it sorted. */
  lemma {:induction false} InsertByScoreSorted(s: seq<SearchResult>, x: SearchResult)
    requires SortedByScore(s)
    ensures SortedByScore(InsertByScore(s, x))
    decreases |s|
  {
    if s == [] || x.score >= s[0].score {
      forall y | y in s ensures y.score <= x.score {
        var j :| 0 <= j < |s| && s[j] == y;
        if j > 0 { assert s[0].score >= s[j].score; }
      }
      SortedCons(x, s);
    } else {
      var t := s[1..];
      assert SortedByScore(t) by {
        forall i, j | 0 <= i < j < |t| ensures t[i].score >= t[j].score {
          assert t[i] == s[i + 1] && t[j] == s[j + 1];
        }
      }
      InsertByScoreSorted(t, x);
      var tail := InsertByScore(t, x);
      forall y | y in tail ensures y.score <= s[0].score {
        assert y in multiset(tail);
        if y != x {
          assert y in multiset(t);
          var j :| 0 <= j < |t| && t[j] == y;
          assert s[0].score >= s[j + 1].score;
        }
      }
      SortedCons(s[0], tail);
    }
  }

  /** An entry scoring at least as much as everything in a sorted list can go in front of it. */
  lemma SortedCons(x: SearchResult, t: seq<SearchResult>)
    requires SortedByScore(t)
    requires forall y :: y in t ==> y.score <= x.score
    ensures SortedByScore([x] + t)
  {
    var r := [x] + t;
    forall i, j | 0 <= i < j < |r| ensures r[i].score >= r[j].score {
      if i == 0 {
        assert r[j] == t[j - 1];
        assert t[j - 1] in t;
      } else {
        assert r[i] == t[i - 1] && r[j] == t[j - 1];
      }
    }
  }

  /** `sort_by` on the scores, highest first. */
  method SortByScore(xs: seq<SearchResult>) returns (ys: seq<SearchResult>)
    ensures SortedByScore(ys)
    ensures multiset(ys) == multiset(xs)
  {
    ys := [];
    var i := 0;
    while i < |xs|
      invariant 0 <= i <= |xs|
      invariant SortedByScore(ys)
      invariant multiset(ys) == multiset(xs[..i])
    {
      InsertByScoreSorted(ys, xs[i]);
      ys := InsertByScore(ys, xs[i]);
      assert xs[..i + 1] == xs[..i] + [xs[i]];
      i := i + 1;
    }
    assert xs[..i] == xs;
  }

  // ---------------------------------------------------------------------------
  // Permutations
  // ---------------------------------------------------------------------------

  lemma DistinctUrlsNoDuplicates(s: seq<SearchResult>, i: nat, j: nat)
    requires DistinctUrls(s) && i < |s| && j < |s| && i != j
    ensures s[i] != s[j]
  {
    if i < j { assert s[i].url != s[j].url; } else { assert s[j].url != s[i].url; }
  }

  /** A list without duplicates holds each of its elements once. */
  lemma {:induction false} DistinctCount(s: seq<SearchResult>, x: SearchResult)
    requires DistinctUrls(s)
    ensures multiset(s)[x] == if x in s then 1 else 0
    decreases |s|
  {
    if s != [] {
      var p := s[..|s| - 1];
      var y := s[|s| - 1];
      assert s == p + [y];
      DistinctSnoc(p, y);
      DistinctCount(p, x);
      assert multiset(s) == multiset(p) + multiset{y};
    }
  }

  /** Two duplicate-free lists with the same elements are permutations of each other. */
  lemma SameElementsSameMultiset(a: seq<SearchResult>, b: seq<SearchResult>)
    requires DistinctUrls(a) && DistinctUrls(b)
    requires forall x :: x in a <==> x in b
    ensures multiset(a) == multiset(b)
  {
    forall x ensures multiset(a)[x] == multiset(b)[x] {
      DistinctCount(a, x);
      DistinctCount(b, x);
    }
  }

  /** A list extended by `x` is duplicate-free exactly when the list is and lacks `x`'s URL. */
  lemma DistinctSnoc(p: seq<SearchResult>, x: SearchResult)
    ensures DistinctUrls(p + [x]) <==> DistinctUrls(p) && x.url !in Urls(p)
  {
    var s := p + [x];
    if DistinctUrls(s) {
      assert forall i, j :: 0 <= i < j < |p| ==> p[i] == s[i] && p[j] == s[j];
      forall y | y in p ensures y.url != x.url {
        var j :| 0 <= j < |p| && p[j] == y;
        assert s[j] == y && s[|s| - 1] == x;
      }
    }
    if DistinctUrls(p) && x.url !in Urls(p) {
      forall i, j | 0 <= i < j < |s| ensures s[i].url != s[j].url {
        if j == |s| - 1 { assert p[i] in p; }
      }
    }
  }

  lemma MultisetKeepsUrls(a: seq<SearchResult>, b: seq<SearchResult>)
    requires multiset(a) == multiset(b)
    ensures Urls(a) == Urls(b)
    ensures DistinctUrls(b) ==> DistinctUrls(a)
  {
    assert forall x :: x in a <==> x in multiset(a);
    assert forall x :: x in b <==> x in multiset(b);
    assert |a| == |multiset(a)| == |b|;
    UrlsCardinality(a);
    UrlsCardinality(b);
  }

  /** A list has as many URLs as entries exactly when no URL repeats. */
  lemma {:induction false} UrlsCardinality(s: seq<SearchResult>)
    ensures |Urls(s)| <= |s|
    ensures |Urls(s)| == |s| <==> DistinctUrls(s)
    decreases |s|
  {
    if s != [] {
      var p := s[..|s| - 1];
      var x := s[|s| - 1];
      assert s == p + [x];
      UrlsCardinality(p);
      UrlsAppend(p, x);
      DistinctSnoc(p, x);
    }
  }

  lemma {:induction false} SumAppend(a: seq<SearchResult>, b: seq<SearchResult>)
    ensures SumScores(a + b) == SumScores(a) + SumScores(b)
    decreases |b|
  {
    if b != [] {
      DropLastOfAppend(a, b);
      SumAppend(a, b[..|b| - 1]);
    } else {
      AppendNothing(a);
    }
  }

  lemma SumRemove(s: seq<SearchResult>, k: nat)
    requires k < |s|
    ensures SumScores(s) == SumScores(s[..k] + s[k + 1..]) + s[k].score
  {
    var l, x, r := s[..k], [s[k]], s[k + 1..];
    SplitAt(s, k);
    SplitAt(s[k..], 1);
    assert s[k..][..1] == x && s[k..][1..] == r;
    SumAppend(l, x + r);
    SumAppend(x, r);
    SumAppend(l, r);
    assert SumScores(x) == s[k].score by { assert x[..0] == []; }
  }

  lemma MultisetRemove(a: seq<SearchResult>, p: seq<SearchResult>, x: SearchResult,
                       b: seq<SearchResult>, l: seq<SearchResult>, r: seq<SearchResult>)
    requires a == p + [x] && b == l + [x] + r && multiset(a) == multiset(b)
    ensures multiset(p) == multiset(l + r)
  {
    var mp, mq := multiset(p), multiset(l + r);
    calc {
      mp + multiset{x};
      multiset(a);
      multiset(b);
      multiset(l) + multiset{x} + multiset(r);
      mq + multiset{x};
    }
    forall y ensures mp[y] == mq[y] {
      assert (mp + multiset{x})[y] == mp[y] + multiset{x}[y];
      assert (mq + multiset{x})[y] == mq[y] + multiset{x}[y];
    }
  }

  /** Reordering a list does not change its total score. */
  lemma {:induction false} PermutationPreservesSum(a: seq<SearchResult>, b: seq<SearchResult>)
    requires multiset(a) == multiset(b)
    ensures SumScores(a) == SumScores(b)
    decreases |a|
  {
    if a == [] {
      assert |b| == |multiset(b)| == 0;
    } else {
      var p := a[..|a| - 1];
      var x := a[|a| - 1];
      assert a == p + [x];
      assert x in multiset(b);
      var k :| 0 <= k < |b| && b[k] == x;
      var l, r := b[..k], b[k + 1..];
      var b' := l + r;
      assert b == l + [x] + r;
      MultisetRemove(a, p, x, b, l, r);
      PermutationPreservesSum(p, b');
      SumRemove(b, k);
    }
  }

  // ---------------------------------------------------------------------------
  // What the table holds
  // ---------------------------------------------------------------------------

  /** The table has an entry for exactly the URLs visited, and no URL twice. */
  lemma {:induction false} MergeKeepsUrls(items: seq<SearchResult>)
    ensures Urls(Merge(items)) == Urls(items)
    ensures DistinctUrls(Merge(items))
    decreases |items|
  {
    if items != [] {
      var p := items[..|items| - 1];
      var x := items[|items| - 1];
      MergeKeepsUrls(p);
      InsertKeepsUrls(Merge(p), x);
      assert items == p + [x];
      assert Urls(items) == Urls(p) + {x.url} by {
        assert forall y :: y in items <==> y in p || y == x;
      }
    }
  }

  /** Merging neither creates nor loses score. */
  lemma {:induction false} MergeConservesScore(items: seq<SearchResult>)
    ensures SumScores(Merge(items)) == SumScores(items)
    decreases |items|
  {
    if items != [] {
      var p := items[..|items| - 1];
      var x := items[|items| - 1];
      MergeConservesScore(p);
      var c := Merge(p);
      match IndexOfUrl(c, x.url)
      case Some(k) =>
        var c' := c[k := Absorb(c[k], x)];
        SumRemove(c, k);
        SumRemove(c', k);
        assert c[..k] + c[k + 1..] == c'[..k] + c'[k + 1..];
      case None =>
        assert (c + [x])[..|c|] == c;
    }
  }

  lemma {:induction false} MergeEmpty(items: seq<SearchResult>)
    ensures Merge(items) == [] <==> items == []
  {
    if items != [] {
      var c := Merge(items[..|items| - 1]);
      var x := items[|items| - 1];
      match IndexOfUrl(c, x.url)
      case Some(k) =>
      case None =>
        assert |c + [x]| > 0;
    }
  }

  // ---------------------------------------------------------------------------
  // What each entry of the table holds
  // ---------------------------------------------------------------------------

  /** The visited items with URL `u`, in visit order. */
  function WithUrl(items: seq<SearchResult>, u: Url): (occ: seq<SearchResult>)
    ensures forall y :: y in occ ==> y in items && y.url == u
    ensures |occ| <= |items|
  {
    if items == [] then []
    else WithUrl(items[..|items| - 1], u) + (if items[|items| - 1].url == u then [items[|items| - 1]] else [])
  }

  /** The sources of `s`, list after list. */
  function AllSources(s: seq<SearchResult>): seq<string> {
    if s == [] then [] else AllSources(s[..|s| - 1]) + s[|s| - 1].sources
  }

  /**
   * `x` is what the table makes of the occurrences `occ` of one URL: the
   * first occurrence's URL, title and description, the sum of all their
   * weights, and all their sources in visit order.
   */
  ghost predicate Merged(occ: seq<SearchResult>, x: SearchResult) {
    occ != [] && x == occ[0].(score := SumScores(occ), sources := AllSources(occ))
  }

  lemma {:induction false} WithUrlEmpty(items: seq<SearchResult>, u: Url)
    ensures WithUrl(items, u) == [] <==> u !in Urls(items)
    decreases |items|
  {
    if items != [] {
      var p := items[..|items| - 1];
      WithUrlEmpty(p, u);
      assert items == p + [items[|items| - 1]];
      UrlsAppend(p, items[|items| - 1]);
    }
  }

  /** Each entry of the table is the merge of all visited items with its URL. */
  lemma {:induction false} MergeEntry(items: seq<SearchResult>, u: Url, k: nat)
    requires k < |Merge(items)| && Merge(items)[k].url == u
    ensures Merged(WithUrl(items, u), Merge(items)[k])
    decreases |items|
  {
    MergeEmpty(items);
    var p := items[..|items| - 1];
    var x := items[|items| - 1];
    var c := Merge(p);
    MergeKeepsUrls(p);
    if x.url == u {
      assert WithUrl(items, u) == WithUrl(p, u) + [x];
      var hit := InsertSame(c, x, k);
      if hit {
        MergeEntry(p, u, k);
        MergedSnoc(WithUrl(p, u), c[k], x);
      } else {
        WithUrlEmpty(p, u);
        assert [x][..0] == [];
      }
    } else {
      assert WithUrl(items, u) == WithUrl(p, u);
      InsertOther(c, x, k);
      MergeEntry(p, u, k);
    }
  }

  /** An entry with the incoming URL is the old entry absorbing it, or the incoming item itself. */
  lemma InsertSame(c: seq<SearchResult>, x: SearchResult, k: nat) returns (hit: bool)
    requires DistinctUrls(c) && k < |Insert(c, x)| && Insert(c, x)[k].url == x.url
    ensures hit ==> k < |c| && c[k].url == x.url && Insert(c, x)[k] == Absorb(c[k], x)
    ensures !hit ==> x.url !in Urls(c) && Insert(c, x)[k] == x
  {
    match IndexOfUrl(c, x.url)
    case Some(k0) =>
      hit := true;
    case None =>
      hit := false;
  }

  /** Entries with another URL are untouched by an insertion. */
  lemma InsertOther(c: seq<SearchResult>, x: SearchResult, k: nat)
    requires k < |Insert(c, x)| && Insert(c, x)[k].url != x.url
    ensures k < |c| && Insert(c, x)[k] == c[k]
  {
  }

  /** Absorbing one more occurrence extends the merge by it. */
  lemma MergedSnoc(occ: seq<SearchResult>, e: SearchResult, x: SearchResult)
    requires Merged(occ, e)
    ensures Merged(occ + [x], Absorb(e, x))
  {
    var o := occ + [x];
    assert o[..|o| - 1] == occ;
  }

  /** When every item names one source, an entry names one source per occurrence of its URL. */
  lemma {:induction false} AllSourcesCount(s: seq<SearchResult>)
    requires forall j :: 0 <= j < |s| ==> |s[j].sources| == 1
    ensures |AllSources(s)| == |s|
    decreases |s|
  {
    if s != [] {
      AllSourcesCount(s[..|s| - 1]);
    }
  }

  // ---------------------------------------------------------------------------
  // What the weighting visits
  // ---------------------------------------------------------------------------

  /** Every input result names exactly one source. */
  predicate SingleSources(raw: seq<seq<SearchResult>>) {
    forall i, j :: 0 <= i < |raw| && 0 <= j < |raw[i]| ==> |raw[i][j].sources| == 1
  }

  /** Weighting keeps each item's sources, so single-source inputs give single-source items. */
  lemma {:induction false} ScoredSingleSource(a: Aggregator, raw: seq<seq<SearchResult>>)
    requires SourcesNonEmpty(raw) && SingleSources(raw)
    ensures forall y :: y in a.Scored(raw) ==> |y.sources| == 1
    decreases |raw|
  {
    if raw != [] {
      var init := raw[..|raw| - 1];
      var last := raw[|raw| - 1];
      assert SourcesNonEmpty(init) && SingleSources(init);
      ScoredSingleSource(a, init);
      forall y | y in a.Weighted(last) ensures |y.sources| == 1 {
        var k :| 0 <= k < |a.Weighted(last)| && a.Weighted(last)[k] == y;
        WeightedAt(a, last, k);
      }
    }
  }

  /**
   * When every input result names one source, each entry of the output
   * names one source per occurrence of its URL in the input lists.
   */
  lemma SourcesPerOccurrence(a: Aggregator, raw: seq<seq<SearchResult>>, out: seq<SearchResult>)
    requires SourcesNonEmpty(raw) && SingleSources(raw)
    requires forall x :: x in out ==> Merged(WithUrl(a.Scored(raw), x.url), x)
    ensures forall x :: x in out ==> |x.sources| == |WithUrl(a.Scored(raw), x.url)|
  {
    ScoredSingleSource(a, raw);
    forall x | x in out ensures |x.sources| == |WithUrl(a.Scored(raw), x.url)| {
      var occ := WithUrl(a.Scored(raw), x.url);
      assert forall j :: 0 <= j < |occ| ==> occ[j] in occ;
      AllSourcesCount(occ);
    }
  }

  lemma WeightedUrls(a: Aggregator, xs: seq<SearchResult>)
    requires forall j :: 0 <= j < |xs| ==> xs[j].sources != []
    ensures Urls(a.Weighted(xs)) == Urls(xs)
  {
    var ws := a.Weighted(xs);
    forall u | u in Urls(xs) ensures u in Urls(ws) {
      var y :| y in xs && y.url == u;
      var j :| 0 <= j < |xs| && xs[j] == y;
      assert ws[|xs| - 1 - j].url == u;
    }
  }

  lemma {:induction false} ScoredUrls(raw: seq<seq<SearchResult>>)
    requires SourcesNonEmpty(raw)
    ensures forall a: Aggregator :: Urls(a.Scored(raw)) == InputUrls(raw)
    decreases |raw|
  {
    forall a: Aggregator ensures Urls(a.Scored(raw)) == InputUrls(raw) {
      if raw != [] {
        var p := raw[..|raw| - 1];
        var xs := raw[|raw| - 1];
        ScoredUrls(p);
        WeightedUrls(a, xs);
        var sp := a.Scored(p);
        var wx := a.Weighted(xs);
        assert Urls(sp + wx) == Urls(sp) + Urls(wx) by {
          assert forall y :: y in sp + wx <==> y in sp || y in wx;
        }
        assert InputUrls(raw) == InputUrls(p) + Urls(xs) by {
          forall u | u in InputUrls(raw) ensures u in InputUrls(p) + Urls(xs) {
            var i, j :| 0 <= i < |raw| && 0 <= j < |raw[i]| && raw[i][j].url == u;
            if i < |raw| - 1 {
              assert p[i][j].url == u;
            } else {
              assert xs[j] in xs;
            }
          }
          forall u | u in InputUrls(p) + Urls(xs) ensures u in InputUrls(raw) {
            if u in Urls(xs) {
              var y :| y in xs && y.url == u;
              var j :| 0 <= j < |xs| && xs[j] == y;
              assert raw[|raw| - 1][j].url == u;
            } else {
              var i, j :| 0 <= i < |p| && 0 <= j < |p[i]| && p[i][j].url == u;
              assert raw[i][j].url == u;
            }
          }
        }
      }
    }
  }

  /** The weight the item at rank `j` of a list receives (rank 0 is the engine's best result). */
  lemma RankWeight(a: Aggregator, xs: seq<SearchResult>, j: nat)
    requires forall k :: 0 <= k < |xs| ==> xs[k].sources != []
    requires j < |xs|
    ensures a.Weighted(xs)[|xs| - 1 - j].url == xs[j].url
    ensures a.Weighted(xs)[|xs| - 1 - j].score
         == a.Multiplier(Last(xs[j].sources)) * ((|xs| - j) as real / |xs| as real)
  {
    WeightedAt(a, xs, |xs| - 1 - j);
  }

  /** The best result of a list gets its engine's full multiplier, the worst one `1/n` of it. */
  lemma EndWeights(a: Aggregator, xs: seq<SearchResult>)
    requires forall k :: 0 <= k < |xs| ==> xs[k].sources != []
    requires xs != []
    ensures a.Weighted(xs)[|xs| - 1].score == a.Multiplier(Last(xs[0].sources))
    ensures a.Weighted(xs)[0].score == a.Multiplier(Last(xs[|xs| - 1].sources)) / |xs| as real
  {
    RankWeight(a, xs, 0);
    RankWeight(a, xs, |xs| - 1);
  }

  /**
   * Within one engine's list, with a positive multiplier, a better-ranked
   * result weighs strictly more than a worse-ranked one.
   */
  lemma HigherRankWeighsMore(a: Aggregator, xs: seq<SearchResult>, i: nat, j: nat)
    requires forall k :: 0 <= k < |xs| ==> xs[k].sources != []
    requires i < j < |xs|
    requires a.Multiplier(Last(xs[i].sources)) == a.Multiplier(Last(xs[j].sources)) > 0.0
    ensures a.Weighted(xs)[|xs| - 1 - i].score > a.Weighted(xs)[|xs| - 1 - j].score
  {
    RankWeight(a, xs, i);
    RankWeight(a, xs, j);
    var m := a.Multiplier(Last(xs[i].sources));
    var n := |xs| as real;
    var wi := (|xs| - i) as real / n;
    var wj := (|xs| - j) as real / n;
    assert wi > wj by {
      assert wi - wj == (j - i) as real / n;
    }
    assert m * wi - m * wj == m * (wi - wj);
  }

  /**
   * The table is keyed by the whole URL, so two results that compare equal
   * but differ in scheme (`http` and `https`) stay two entries of the output.
   */
  lemma SchemeVariantsNotMerged(raw: seq<seq<SearchResult>>, out: seq<SearchResult>, i: nat, j: nat, k: nat, l: nat)
    requires Urls(out) == InputUrls(raw)
    requires i < |raw| && j < |raw[i]| && k < |raw| && l < |raw[k]|
    requires HasHost(raw[i][j]) && HasHost(raw[k][l]) && SameResult(raw[i][j], raw[k][l])
    requires raw[i][j].url.scheme != raw[k][l].url.scheme
    ensures exists x, y :: x in out && y in out && x != y && x.url == raw[i][j].url && y.url == raw[k][l].url
  {
    assert raw[i][j].url in InputUrls(raw) && raw[k][l].url in InputUrls(raw);
    var x :| x in out && x.url == raw[i][j].url;
    var y :| y in out && y.url == raw[k][l].url;
    SchemeVariantsAreDistinctUrls(raw[i][j], raw[k][l]);
  }

  /** The loops visit nothing exactly when every list is empty. */
  lemma {:induction false} ScoredEmpty(raw: seq<seq<SearchResult>>)
    requires SourcesNonEmpty(raw)
    ensures forall a: Aggregator :: a.Scored(raw) == [] <==> forall i :: 0 <= i < |raw| ==> raw[i] == []
    decreases |raw|
  {
    if raw != [] {
      var p := raw[..|raw| - 1];
      ScoredEmpty(p);
      assert forall i :: 0 <= i < |p| ==> p[i] == raw[i];
    }
  }
}
