/**
 * The scan entry point: it refuses a configuration without scan paths,
 * then hands every configured path to the discovery service, followed by
 * the end-of-input marker.
 */
module Scanner {
  import opened ScanTypes
  import opened LocatorProcess

  /**
   * The scan configuration; the signature set behind the matcher is not
   * part of this model. `threads` and `chunkSize` only record the
   * configuration: no member here reads them, since the guard checks the
   * paths alone. The source's defaults are one thread and chunks of
   * 1024 * 1024 bytes.
   */
  datatype Options = Options(paths: set<Path>, threads: int, chunkSize: int)

  /** The guard at the start of a scan. */
  function CheckPaths(options: Options): (outcome: Outcome)
    ensures outcome.Pass? <==> options.paths != {}
    ensures outcome.Fail? ==> outcome.error == ScanConfigurationException(NO_SCAN_PATHS)
  {
    if |options.paths| == 0 then Fail(ScanConfigurationException(NO_SCAN_PATHS)) else Pass
  }

  /** The input items for paths submitted in the given order, with the end-of-input marker. */
  function Submitted(order: seq<Path>): (items: seq<Option<Path>>)
    ensures |items| == |order| + 1 && items[|order|] == None
    ensures forall k :: 0 <= k < |order| ==> items[k] == Some(order[k])
  {
    if order == [] then [None] else [Some(order[0])] + Submitted(order[1..])
  }

  /** Discovery reads back exactly the submitted roots, in submission order. */
  lemma {:induction false} SubmittedRoots(order: seq<Path>)
    ensures Finalized(Submitted(order))
    ensures Roots(Submitted(order)) == order
  {
    if order != [] {
      SubmittedRoots(order[1..]);
      assert Submitted(order)[1..] == Submitted(order[1..]);
    }
  }

  lemma {:induction false} SubmittedAppend(order: seq<Path>, p: Path)
    ensures Submitted(order + [p]) == Submitted(order)[..|order|] + [Some(p), None]
  {
    if order == [] {
      assert Submitted([p]) == [Some(p)] + Submitted([]);
    } else {
      assert (order + [p])[1..] == order[1..] + [p];
      SubmittedAppend(order[1..], p);
    }
  }

  /**
   * The first phase of `scan`: without paths it raises and submits
   * nothing; otherwise every configured path is submitted exactly once,
   * in some order, and the input is finalized.
   */
  method SubmitPaths(options: Options, process: FileLocatorProcess) returns (outcome: Outcome, order: seq<Path>)
    modifies process.inputQueue
    ensures outcome == CheckPaths(options)
    ensures outcome.Fail? ==> process.inputQueue.items == old(process.inputQueue.items) && order == []
    ensures outcome.Pass? ==> process.inputQueue.items == old(process.inputQueue.items) + Submitted(order)
    ensures |order| == (if outcome.Pass? then |options.paths| else 0)
    ensures outcome.Pass? ==> forall p :: p in order <==> p in options.paths
    ensures forall i, j :: 0 <= i < j < |order| ==> order[i] != order[j]
  {
    outcome := CheckPaths(options);
    order := [];
    if outcome.Fail? {
      return;
    }
    ghost var start := process.inputQueue.items;
    var remaining := options.paths;
    while remaining != {}
      invariant remaining <= options.paths
      invariant forall p :: p in order <==> p in options.paths && p !in remaining
      invariant |order| + |remaining| == |options.paths|
      invariant forall i, j :: 0 <= i < j < |order| ==> order[i] != order[j]
      invariant process.inputQueue.items == start + Submitted(order)[..|order|]
      decreases |remaining|
    {
      var path :| path in remaining;
      process.AddPath(path);
      SubmittedAppend(order, path);
      assert Submitted(order + [path])[..|order| + 1] == Submitted(order)[..|order|] + [Some(path)];
      order := order + [path];
      remaining := remaining - {path};
    }
    process.FinalizePaths();
    assert Submitted(order) == Submitted(order)[..|order|] + [None];
  }
}
