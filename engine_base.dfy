/**
 * What every engine adapter of lib/src/engines/ shares: how a call ends,
 * the network call it makes, and `parse_generic_results`.
 */
module EngineBase {
  import opened Common
  import opened Foreign
  import opened Errors
  import opened Results

  /**
   * How an engine's `search_text` ends: with its `Result`, or by panicking
   * (an `unwrap` on a failed decode, `unimplemented!()`), which the task
   * join reports as a failure.
   */
  datatype Outcome =
    | Completed(result: Result<seq<SearchResult>, EngineErrorType>)
    | Panicked

  /**
   * `NetworkHandler::get_data` as the engine sees it: the response text, or
   * the transport failure already classified as a `NetworkError`. Which
   * user agent is sent and what the network answers are not modelled; the
   * function stands for one run's answers.
   */
  type Fetch = Request -> Result<string, NetworkError>

  /** The `?` on `get_data`: a transport failure ends the call as `Network`. */
  function FetchFailed(e: NetworkError): (o: Outcome)
    ensures o.Completed? && o.result.Err? && o.result.error.Network? && o.result.error.cause == e
  {
    Completed(Err(FromNetwork(e)))
  }

  /**
   * `parse_generic_results`: the builder's `Some` outputs over the selected
   * blocks, in document order. The code wraps this in `Ok` and has no path
   * to `Err`, so the model returns the list itself.
   */
  function ParseGenericResults<B>(blocks: seq<B>, builder: B -> Option<SearchResult>): (r: seq<SearchResult>)
    ensures |r| <= |blocks|
    ensures forall x :: x in r ==> exists i :: 0 <= i < |blocks| && builder(blocks[i]) == Some(x)
    ensures forall i :: 0 <= i < |blocks| && builder(blocks[i]).Some? ==> builder(blocks[i]).value in r
    decreases |blocks|
  {
    if blocks == [] then []
    else
      var rest := ParseGenericResults(blocks[1..], builder);
      assert forall i :: 1 <= i < |blocks| ==> blocks[i] == blocks[1..][i - 1];
      match builder(blocks[0])
      case Some(x) => [x] + rest
      case None => rest
  }

  /** Filtering two runs of blocks one after the other keeps the runs' results in that order. */
  lemma {:induction false} ParseGenericAppend<B>(a: seq<B>, b: seq<B>, builder: B -> Option<SearchResult>)
    ensures ParseGenericResults(a + b, builder) == ParseGenericResults(a, builder) + ParseGenericResults(b, builder)
    decreases |a|
  {
    if a != [] {
      DropFirstOfAppend(a, b);
      ParseGenericAppend(a[1..], b, builder);
      match builder(a[0])
      case Some(x) => Associative([x], ParseGenericResults(a[1..], builder), ParseGenericResults(b, builder));
      case None =>
    } else {
      assert a + b == b;
    }
  }

  /** When the builder accepts every block, every block gives one result, in order. */
  lemma {:induction false} ParseGenericAllKept<B>(blocks: seq<B>, builder: B -> Option<SearchResult>)
    requires forall i :: 0 <= i < |blocks| ==> builder(blocks[i]).Some?
    ensures |ParseGenericResults(blocks, builder)| == |blocks|
    ensures forall i :: 0 <= i < |blocks| ==> ParseGenericResults(blocks, builder)[i] == builder(blocks[i]).value
    decreases |blocks|
  {
    if blocks != [] {
      var t := blocks[1..];
      ParseGenericAllKept(t, builder);
      assert ParseGenericResults(blocks, builder) == [builder(blocks[0]).value] + ParseGenericResults(t, builder);
      forall i | 1 <= i < |blocks| ensures ParseGenericResults(blocks, builder)[i] == builder(blocks[i]).value {
        assert blocks[i] == t[i - 1];
      }
    }
  }

  /** When the builder rejects every block, nothing is returned. */
  lemma {:induction false} ParseGenericNoneKept<B>(blocks: seq<B>, builder: B -> Option<SearchResult>)
    requires forall i :: 0 <= i < |blocks| ==> builder(blocks[i]).None?
    ensures ParseGenericResults(blocks, builder) == []
    decreases |blocks|
  {
    if blocks != [] {
      ParseGenericNoneKept(blocks[1..], builder);
    }
  }
}
