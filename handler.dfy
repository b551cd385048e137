/**
 * The engine handler of lib/src/handler.rs: the registry built from the
 * configured engine names, and the search that runs every registered
 * engine and sorts the outcomes into result lists and errors.
 */
module EngineHandling {
  import opened Common
  import opened Strings
  import opened Foreign
  import opened Errors
  import opened Results
  import opened EngineBase
  import opened Engines

  // ---------------------------------------------------------------------------
  // The registry
  // ---------------------------------------------------------------------------

  /** The configuration name each engine is selected by (compared ignoring ASCII case). */
  function ConfigName(e: Engine): string {
    if e.Bing? then "bing" else "duckduckgo"
  }

  predicate Selects(name: string, e: Engine) {
    EqIgnoreAsciiCase(name, ConfigName(e))
  }

  /**
   * What one configured name adds: the two tests of the loop body are two
   * separate `if`s, so a name could in principle add both engines.
   */
  function Added(name: string): seq<Engine> {
    (if Selects(name, Bing) then [Bing] else []) + (if Selects(name, DuckDuckGo) then [DuckDuckGo] else [])
  }

  /** The registry for a list of names: each name's engines, in the order of the names. */
  function Registry(names: seq<string>): seq<Engine> {
    if names == [] then [] else Registry(names[..|names| - 1]) + Added(names[|names| - 1])
  }

  /** No name selects both engines: their configuration names differ in length. */
  lemma NoNameSelectsBoth(name: string)
    ensures !(Selects(name, Bing) && Selects(name, DuckDuckGo))
    ensures |Added(name)| <= 1
  {
  }

  /** A name adds the engine it selects, and a name selecting neither adds nothing. */
  lemma AddedExactly(name: string, e: Engine)
    ensures Selects(name, e) <==> Added(name) == [e]
    ensures (forall f: Engine :: !Selects(name, f)) <==> Added(name) == []
  {
    NoNameSelectsBoth(name);
    assert [Bing] != [DuckDuckGo] by { assert [Bing][0] != [DuckDuckGo][0]; }
    if Selects(name, Bing) {
      assert Added(name) == [Bing];
    } else if Selects(name, DuckDuckGo) {
      assert Added(name) == [DuckDuckGo];
    } else {
      assert Added(name) == [];
    }
    assert !Selects(name, Bing) && !Selects(name, DuckDuckGo) ==> forall f: Engine :: !Selects(name, f);
  }

  /** The registry has at most one engine per name, and exactly one per name exactly when every name selects one. */
  lemma {:induction false} RegistrySize(names: seq<string>)
    ensures |Registry(names)| <= |names|
    ensures |Registry(names)| == |names| <==>
              forall i :: 0 <= i < |names| ==> Selects(names[i], Bing) || Selects(names[i], DuckDuckGo)
    decreases |names|
  {
    if names != [] {
      var p := names[..|names| - 1];
      var n := names[|names| - 1];
      RegistrySize(p);
      NoNameSelectsBoth(n);
      assert |Registry(names)| == |Registry(p)| + |Added(n)|;
      forall i | 0 <= i < |p| ensures p[i] == names[i] { }
    }
  }

  /** Configuring two lists one after another registers their engines one after another. */
  lemma {:induction false} RegistryAppend(a: seq<string>, b: seq<string>)
    ensures Registry(a + b) == Registry(a) + Registry(b)
    decreases |b|
  {
    if b == [] {
      AppendNothing(a);
      AppendNothing(Registry(a));
    } else {
      var b' := b[..|b| - 1];
      DropLastOfAppend(a, b);
      RegistryAppend(a, b');
      Associative(Registry(a), Registry(b'), Added(b[|b| - 1]));
    }
  }

  /** An engine is registered exactly when some configured name selects it. */
  lemma RegistryContains(names: seq<string>, e: Engine)
    ensures e in Registry(names) <==> exists i :: 0 <= i < |names| && Selects(names[i], e)
  {
    if e in Registry(names) {
      var i := RegistryFrom(names, e);
    }
    if exists i :: 0 <= i < |names| && Selects(names[i], e) {
      var i :| 0 <= i < |names| && Selects(names[i], e);
      RegistryHas(names, i, e);
    }
  }

  lemma {:induction false} RegistryHas(names: seq<string>, i: nat, e: Engine)
    requires i < |names| && Selects(names[i], e)
    ensures e in Registry(names)
    decreases |names|
  {
    var p := names[..|names| - 1];
    AddedContains(names[|names| - 1], e);
    if i < |p| {
      assert p[i] == names[i];
      RegistryHas(p, i, e);
    }
  }

  lemma {:induction false} RegistryFrom(names: seq<string>, e: Engine) returns (i: nat)
    requires e in Registry(names)
    ensures i < |names| && Selects(names[i], e)
    decreases |names|
  {
    var p := names[..|names| - 1];
    var n := names[|names| - 1];
    AddedContains(n, e);
    if e in Added(n) {
      i := |names| - 1;
    } else {
      i := RegistryFrom(p, e);
      assert p[i] == names[i];
    }
  }

  lemma AddedContains(name: string, e: Engine)
    ensures e in Added(name) <==> Selects(name, e)
  {
  }

  /** The default configuration registers the engines `get_engines` lists, in that order; case and repeats are kept. */
  lemma RegistryExamples()
    ensures Registry(["bing", "duckduckgo"]) == GetEngines()
    ensures Registry(["BING", "google", "bing"]) == [Bing, Bing]
  {
    assert ["bing", "duckduckgo"][..1] == ["bing"];
    var names := ["BING", "google", "bing"];
    assert names[..2] == ["BING", "google"] && names[..2][..1] == ["BING"];
    assert AsciiLower('B') == 'b' && AsciiLower('I') == 'i' && AsciiLower('N') == 'n' && AsciiLower('G') == 'g';
    assert Selects("BING", Bing);
  }

  /** One more configured name. */
  lemma RegistrySnoc(names: seq<string>, i: nat)
    requires i < |names|
    ensures Registry(names[..i + 1]) == Registry(names[..i]) + Added(names[i])
  {
    PrefixOfPrefix(names, i + 1, i);
  }

  datatype EngineHandler = EngineHandler(engines: seq<Engine>)

  /**
   * `EngineHandler::new`: one pass over the configured names, appending the
   * engines each one selects. An empty registry is still a handler (the
   * code only logs a warning).
   */
  method New(names: seq<string>) returns (h: EngineHandler)
    ensures h.engines == Registry(names)
  {
    var engines: seq<Engine> := [];
    var i := 0;
    while i < |names|
      invariant 0 <= i <= |names|
      invariant engines == Registry(names[..i])
    {
      var engine := names[i];
      RegistrySnoc(names, i);
      ghost var before := engines;
      if EqIgnoreAsciiCase(engine, "bing") {
        engines := engines + [Bing];
      } else {
        AppendNothing(engines);
      }
      ghost var mid := engines;
      if EqIgnoreAsciiCase(engine, "duckduckgo") {
        engines := engines + [DuckDuckGo];
      } else {
        AppendNothing(engines);
      }
      Associative(before, if Selects(engine, Bing) then [Bing] else [], if Selects(engine, DuckDuckGo) then [DuckDuckGo] else []);
      i := i + 1;
    }
    assert names[..i] == names;
    h := EngineHandler(engines);
  }

  // ---------------------------------------------------------------------------
  // The search
  // ---------------------------------------------------------------------------

  /** The outcome of each engine's task, in registry order; task `i` uses `fetches[i]`. */
  function Outcomes(engines: seq<Engine>, libs: Libs, fetches: seq<Fetch>, page: u16, query: string): (os: seq<Outcome>)
    requires |fetches| == |engines| && PageInRangeForAll(page)
    ensures |os| == |engines|
  {
    seq(|engines|, i requires 0 <= i < |engines| => OutcomeOf(engines[i], libs, fetches[i], page, query))
  }

  /** What one engine's task ends with. */
  function OutcomeOf(e: Engine, libs: Libs, fetch: Fetch, page: u16, query: string): Outcome
    requires PageInRangeForAll(page)
  {
    PageInRangeForAllEngines(page, e);
    e.Expected(libs, fetch, page, query)
  }

  /** `order` lists every task index once: the order in which the tasks finish. */
  predicate IsCompletionOrder(order: seq<nat>, n: nat) {
    |order| == n
    && (forall k :: 0 <= k < |order| ==> order[k] < n)
    && (forall k, l :: 0 <= k < l < |order| ==> order[k] != order[l])
  }

  /**
   * The join loop over finished tasks, each an engine name with its outcome.
   * An `Ok` list goes to the results unchanged, even when empty; an `Err`
   * goes to the errors with the engine's name; a panicked task adds nothing.
   */
  function Partition(done: seq<(string, Outcome)>): (p: (seq<seq<SearchResult>>, seq<EngineError>))
    ensures |p.0| + |p.1| <= |done|
    ensures forall l :: l in p.0 ==> exists k :: 0 <= k < |done| && done[k].1 == Completed(Ok(l))
    ensures forall e :: e in p.1 ==> exists k :: 0 <= k < |done| && done[k] == (e.engine, Completed(Err(e.source)))
  {
    if done == [] then ([], [])
    else
      var prev := Partition(done[..|done| - 1]);
      var last := done[|done| - 1];
      assert forall k :: 0 <= k < |done| - 1 ==> done[..|done| - 1][k] == done[k];
      match last.1
      case Panicked => prev
      case Completed(Ok(rs)) => (prev.0 + [rs], prev.1)
      case Completed(Err(e)) => (prev.0, prev.1 + [EngineError(last.0, e)])
  }

  /** The join loop takes one more finished task. */
  lemma PartitionSnoc(done: seq<(string, Outcome)>, k: nat)
    requires k < |done|
    ensures var prev := Partition(done[..k]);
            Partition(done[..k + 1]) ==
              match done[k].1
              case Panicked => prev
              case Completed(Ok(rs)) => (prev.0 + [rs], prev.1)
              case Completed(Err(e)) => (prev.0, prev.1 + [EngineError(done[k].0, e)])
  {
    assert done[..k + 1][..k] == done[..k];
  }

  /**
   * Every finished task shows up once unless it panicked: the two lists
   * together are as long as the tasks exactly when no task panicked.
   */
  lemma {:induction false} PartitionCounts(done: seq<(string, Outcome)>)
    ensures |Partition(done).0| + |Partition(done).1| == |done| <==>
              forall k :: 0 <= k < |done| ==> !done[k].1.Panicked?
    decreases |done|
  {
    if done != [] {
      var p := done[..|done| - 1];
      PartitionCounts(p);
      assert forall k :: 0 <= k < |p| ==> p[k] == done[k];
    }
  }

  /** Every successful task's list is among the results, and every failed task's error among the errors. */
  lemma {:induction false} PartitionKeepsAll(done: seq<(string, Outcome)>, k: nat)
    requires k < |done|
    ensures done[k].1.Completed? && done[k].1.result.Ok? ==> done[k].1.result.value in Partition(done).0
    ensures done[k].1.Completed? && done[k].1.result.Err? ==>
              EngineError(done[k].0, done[k].1.result.error) in Partition(done).1
    decreases |done|
  {
    if k < |done| - 1 {
      var p := done[..|done| - 1];
      PartitionKeepsAll(p, k);
      assert p[k] == done[k];
    }
  }

  /** The finished tasks in completion order. */
  function InOrder(engines: seq<Engine>, outcomes: seq<Outcome>, order: seq<nat>): (done: seq<(string, Outcome)>)
    requires |outcomes| == |engines| && forall k :: 0 <= k < |order| ==> order[k] < |engines|
    ensures |done| == |order|
  {
    seq(|order|, k requires 0 <= k < |order| => (engines[order[k]].Name(), outcomes[order[k]]))
  }

  /**
   * `EngineHandler::search`: one task per registered engine, each running
   * that engine's `search_text` with the same query, page, relevancy and
   * safe-search level; then the tasks are joined in the order they finish.
   */
  method Search(h: EngineHandler, libs: Libs, fetches: seq<Fetch>, order: seq<nat>,
                query: string, page: u16, relevancy: Option<Relevancy>, safeLevel: Option<SafeSearchLevel>)
    returns (results: seq<seq<SearchResult>>, errors: seq<EngineError>)
    requires |fetches| == |h.engines| && PageInRangeForAll(page)
    requires IsCompletionOrder(order, |h.engines|)
    ensures (results, errors) == Partition(InOrder(h.engines, Outcomes(h.engines, libs, fetches, page, query), order))
  {
    var tasks := Spawn(h.engines, libs, fetches, page, query, relevancy, safeLevel);
    results, errors := Join(h.engines, tasks, order);
  }

  /** The spawning loop: task `i` runs engine `i`'s `search_text` with `fetches[i]`. */
  method Spawn(engines: seq<Engine>, libs: Libs, fetches: seq<Fetch>, page: u16, query: string,
               relevancy: Option<Relevancy>, safeLevel: Option<SafeSearchLevel>)
    returns (tasks: seq<Outcome>)
    requires |fetches| == |engines| && PageInRangeForAll(page)
    ensures tasks == Outcomes(engines, libs, fetches, page, query)
  {
    ghost var expected := Outcomes(engines, libs, fetches, page, query);
    tasks := [];
    var i := 0;
    while i < |engines|
      invariant 0 <= i <= |engines|
      invariant |tasks| == i && forall j :: 0 <= j < i ==> tasks[j] == expected[j]
    {
      PageInRangeForAllEngines(page, engines[i]);
      var o := engines[i].SearchText(libs, fetches[i], page, query, relevancy, safeLevel);
      assert o == OutcomeOf(engines[i], libs, fetches[i], page, query) == expected[i];
      tasks := tasks + [o];
      i := i + 1;
    }
    assert tasks == expected;
  }

  /** The join loop: the finished tasks in completion order, each sorted into the results or the errors. */
  method Join(engines: seq<Engine>, tasks: seq<Outcome>, order: seq<nat>)
    returns (results: seq<seq<SearchResult>>, errors: seq<EngineError>)
    requires |tasks| == |engines| && forall k :: 0 <= k < |order| ==> order[k] < |engines|
    ensures (results, errors) == Partition(InOrder(engines, tasks, order))
  {
    ghost var done := InOrder(engines, tasks, order);
    results, errors := [], [];
    var k := 0;
    while k < |order|
      invariant 0 <= k <= |order|
      invariant (results, errors) == Partition(done[..k])
    {
      var idx := order[k];
      PartitionSnoc(done, k);
      assert done[k] == (engines[idx].Name(), tasks[idx]);
      match tasks[idx] {
        case Panicked =>
        case Completed(Ok(rs)) =>
          results := results + [rs];
        case Completed(Err(e)) =>
          errors := errors + [EngineError(engines[idx].Name(), e)];
      }
      k := k + 1;
    }
    assert done[..k] == done;
  }

  /** Without panics, the two lists together have one entry per engine; with some, fewer. */
  lemma SearchCounts(engines: seq<Engine>, outcomes: seq<Outcome>, order: seq<nat>)
    requires |outcomes| == |engines| && IsCompletionOrder(order, |engines|)
    ensures var p := Partition(InOrder(engines, outcomes, order));
            && |p.0| + |p.1| <= |engines|
            && (|p.0| + |p.1| == |engines| <==> forall i :: 0 <= i < |outcomes| ==> !outcomes[i].Panicked?)
  {
    var done := InOrder(engines, outcomes, order);
    PartitionCounts(done);
    if forall k :: 0 <= k < |done| ==> !done[k].1.Panicked? {
      forall i | 0 <= i < |outcomes| ensures !outcomes[i].Panicked? {
        var k := OrderHits(order, |engines|, i);
        assert done[k].1 == outcomes[i];
      }
    }
  }

  /** A completion order reaches every task. */
  lemma OrderHits(order: seq<nat>, n: nat, i: nat) returns (k: nat)
    requires IsCompletionOrder(order, n) && i < n
    ensures k < |order| && order[k] == i
  {
    var seen := set j | 0 <= j < |order| :: order[j];
    SetOfDistinct(order);
    var all := Below(n);
    assert seen <= all;
    if i !in seen {
      SubsetSize(seen, all - {i});
      assert false;
    }
    k :| 0 <= k < |order| && order[k] == i;
  }

  /** The naturals below `n`. */
  function Below(n: nat): (r: set<nat>)
    ensures forall x: nat :: x in r <==> x < n
    ensures |r| == n
  {
    if n == 0 then {} else Below(n - 1) + {n - 1}
  }

  lemma {:induction false} SubsetSize(a: set<nat>, b: set<nat>)
    requires a <= b
    ensures |a| <= |b|
    decreases |a|
  {
    if a != {} {
      var x :| x in a;
      SubsetSize(a - {x}, b - {x});
    }
  }

  lemma {:induction false} SetOfDistinct(s: seq<nat>)
    requires forall k, l :: 0 <= k < l < |s| ==> s[k] != s[l]
    ensures |set j | 0 <= j < |s| :: s[j]| == |s|
    decreases |s|
  {
    if s != [] {
      var p := s[..|s| - 1];
      SetOfDistinct(p);
      assert (set j | 0 <= j < |s| :: s[j]) == (set j | 0 <= j < |p| :: p[j]) + {s[|s| - 1]};
      assert s[|s| - 1] !in (set j | 0 <= j < |p| :: p[j]);
    }
  }

  /** Every list in the results came out of one of the engines run. */
  lemma SearchResultsFromEngines(engines: seq<Engine>, libs: Libs, fetches: seq<Fetch>, page: u16, query: string,
                                 order: seq<nat>, l: seq<SearchResult>)
    requires |fetches| == |engines| && PageInRangeForAll(page) && IsCompletionOrder(order, |engines|)
    requires l in Partition(InOrder(engines, Outcomes(engines, libs, fetches, page, query), order)).0
    ensures exists i :: 0 <= i < |engines| && engines[i].PageInRange(page)
                        && engines[i].Expected(libs, fetches[i], page, query) == Completed(Ok(l))
  {
    var outs := Outcomes(engines, libs, fetches, page, query);
    var done := InOrder(engines, outs, order);
    var k :| 0 <= k < |done| && done[k].1 == Completed(Ok(l));
    var i := order[k];
    PageInRangeForAllEngines(page, engines[i]);
    assert outs[i] == engines[i].Expected(libs, fetches[i], page, query);
  }
}
