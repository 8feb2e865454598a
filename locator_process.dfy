/**
 * The discovery service: it takes root paths from its input channel until
 * the end-of-input marker, locates each root in turn and forwards what it
 * finds to the output channel, then ends the output with the end-of-stream
 * sentinel. A failed search puts the failure on the output instead of the
 * sentinel and ends the service.
 */
module LocatorProcess {
  import opened ScanTypes
  import opened Locator

  /**
   * The file system, as seen from the configured roots: the node at each
   * root's real path, keyed by the configured path. A root with no entry
   * does not exist, so it is not a directory; it is passed on under its
   * configured string, standing in for its real path.
   */
  type FileSystem = map<Path, Node>

  function Resolve(fs: FileSystem, path: Path): Node
  {
    if path in fs then fs[path] else Other(path)
  }

  /** The input holds an end-of-input marker (`finalize_paths` was called). */
  predicate Finalized(input: seq<Option<Path>>)
  {
    input != [] && (input[0].None? || Finalized(input[1..]))
  }

  /** The roots before the end-of-input marker. */
  function Roots(input: seq<Option<Path>>): seq<Path>
    requires Finalized(input)
  {
    if input[0].None? then [] else [input[0].value] + Roots(input[1..])
  }

  /** What the discovery service writes, and how many input items it takes. */
  datatype RunResult = RunResult(output: seq<WorkItem>, consumed: nat)

  /** The discovery loop over the input channel. */
  function RunOn(fs: FileSystem, input: seq<Option<Path>>): (r: RunResult)
    requires Finalized(input)
    ensures 1 <= r.consumed <= |input|
  {
    if input[0].None? then RunResult([EndOfFiles], 1)
    else
      var walk := LocateWalk(Resolve(fs, input[0].value));
      if walk.failed then
        RunResult(PathItems(walk.paths) + [Failure(ScanningException(DIRECTORY_SEARCH_FAILED))], 1)
      else
        var rest := RunOn(fs, input[1..]);
        RunResult(PathItems(walk.paths) + rest.output, rest.consumed + 1)
  }

  // The reference description: every root's located paths, one root after
  // the other, and the first root whose search fails.

  function AllLocated(fs: FileSystem, roots: seq<Path>): seq<Path>
  {
    if roots == [] then [] else LocateWalk(Resolve(fs, roots[0])).paths + AllLocated(fs, roots[1..])
  }

  predicate SomeRootFails(fs: FileSystem, roots: seq<Path>)
  {
    exists k :: 0 <= k < |roots| && LocateWalk(Resolve(fs, roots[k])).failed
  }

  predicate IsPathItem(item: WorkItem)
  {
    item.FilePath?
  }

  lemma {:induction false} SomeRootFailsCons(fs: FileSystem, roots: seq<Path>)
    requires roots != []
    ensures SomeRootFails(fs, roots) <==>
      LocateWalk(Resolve(fs, roots[0])).failed || SomeRootFails(fs, roots[1..])
  {
    if SomeRootFails(fs, roots) {
      var k :| 0 <= k < |roots| && LocateWalk(Resolve(fs, roots[k])).failed;
      if k != 0 {
        assert roots[1..][k - 1] == roots[k];
      }
    }
    if SomeRootFails(fs, roots[1..]) {
      var k :| 0 <= k < |roots[1..]| && LocateWalk(Resolve(fs, roots[1..][k])).failed;
      assert roots[k + 1] == roots[1..][k];
    }
  }

  /** Everything but the last item of the output is a located path. */
  lemma {:induction false} RunOnPaths(fs: FileSystem, input: seq<Option<Path>>)
    requires Finalized(input)
    ensures var out := RunOn(fs, input).output;
      |out| >= 1 && forall k :: 0 <= k < |out| - 1 ==> IsPathItem(out[k])
  {
    if input[0].Some? {
      var walk := LocateWalk(Resolve(fs, input[0].value));
      var out := RunOn(fs, input).output;
      if !walk.failed {
        RunOnPaths(fs, input[1..]);
        var rest := RunOn(fs, input[1..]).output;
        assert out == PathItems(walk.paths) + rest;
        forall k | 0 <= k < |out| - 1
          ensures IsPathItem(out[k])
        {
          if k >= |walk.paths| {
            assert out[k] == rest[k - |walk.paths|];
          }
        }
      }
    }
  }

  /**
   * The output ends in exactly one terminator: the sentinel when every
   * root was searched without failure, otherwise the failure.
   */
  lemma {:induction false} RunOnTerminator(fs: FileSystem, input: seq<Option<Path>>)
    requires Finalized(input)
    ensures var out := RunOn(fs, input).output;
      |out| >= 1 && (out[|out| - 1] == EndOfFiles <==> !SomeRootFails(fs, Roots(input)))
    ensures var out := RunOn(fs, input).output;
      |out| >= 1 && (out[|out| - 1] != EndOfFiles ==>
                       out[|out| - 1] == Failure(ScanningException(DIRECTORY_SEARCH_FAILED)))
  {
    if input[0].Some? {
      var walk := LocateWalk(Resolve(fs, input[0].value));
      var roots := Roots(input);
      assert roots[0] == input[0].value && roots[1..] == Roots(input[1..]);
      SomeRootFailsCons(fs, roots);
      var out := RunOn(fs, input).output;
      if !walk.failed {
        RunOnTerminator(fs, input[1..]);
        var rest := RunOn(fs, input[1..]).output;
        assert out == PathItems(walk.paths) + rest;
        assert out[|out| - 1] == rest[|rest| - 1];
      }
    }
  }

  /**
   * With no failure the output is every root's located paths in input
   * order, then the sentinel; the service takes all roots and the marker.
   */
  lemma {:induction false} RunOnLocatesAll(fs: FileSystem, input: seq<Option<Path>>)
    requires Finalized(input)
    requires !SomeRootFails(fs, Roots(input))
    ensures RunOn(fs, input).output == PathItems(AllLocated(fs, Roots(input))) + [EndOfFiles]
    ensures RunOn(fs, input).consumed == |Roots(input)| + 1
  {
    if input[0].Some? {
      var walk := LocateWalk(Resolve(fs, input[0].value));
      var roots := Roots(input);
      assert roots[0] == input[0].value && roots[1..] == Roots(input[1..]);
      SomeRootFailsCons(fs, roots);
      RunOnLocatesAll(fs, input[1..]);
      PathItemsAppend(walk.paths, AllLocated(fs, roots[1..]));
    }
  }

  lemma RootsCons(input: seq<Option<Path>>)
    requires Finalized(input) && Roots(input) != []
    ensures input[0].Some? && Finalized(input[1..])
    ensures Roots(input)[0] == input[0].value && Roots(input)[1..] == Roots(input[1..])
  {
  }

  lemma AllLocatedCons(fs: FileSystem, roots: seq<Path>, k: nat)
    requires 0 < k <= |roots|
    ensures AllLocated(fs, roots[..k]) == LocateWalk(Resolve(fs, roots[0])).paths + AllLocated(fs, roots[1..][..k - 1])
  {
    assert roots[..k][0] == roots[0] && roots[..k][1..] == roots[1..][..k - 1];
  }

  /** Root k is the first whose search fails. */
  predicate FirstFailure(fs: FileSystem, roots: seq<Path>, k: nat)
  {
    && k < |roots|
    && LocateWalk(Resolve(fs, roots[k])).failed
    && forall j :: 0 <= j < k ==> !LocateWalk(Resolve(fs, roots[j])).failed
  }

  lemma FirstFailureTail(fs: FileSystem, roots: seq<Path>, k: nat)
    requires FirstFailure(fs, roots, k) && k > 0
    ensures !LocateWalk(Resolve(fs, roots[0])).failed && FirstFailure(fs, roots[1..], k - 1)
    ensures roots[1..][k - 1] == roots[k]
  {
    forall j | 0 <= j < k - 1
      ensures !LocateWalk(Resolve(fs, roots[1..][j])).failed
    {
      assert roots[1..][j] == roots[j + 1];
    }
  }

  /**
   * When root k is the first whose search fails, the output is every path
   * located under the roots before it, then the paths its own search
   * yielded before failing, then the failure; the service takes the first
   * k + 1 input items and nothing after them.
   */
  lemma {:induction false} RunOnFails(fs: FileSystem, input: seq<Option<Path>>, k: nat)
    requires Finalized(input) && FirstFailure(fs, Roots(input), k)
    ensures RunOn(fs, input).output
            == PathItems(AllLocated(fs, Roots(input)[..k]) + LocateWalk(Resolve(fs, Roots(input)[k])).paths)
               + [Failure(ScanningException(DIRECTORY_SEARCH_FAILED))]
    ensures RunOn(fs, input).consumed == k + 1
  {
    var roots := Roots(input);
    RootsCons(input);
    var here := LocateWalk(Resolve(fs, roots[k])).paths;
    if k == 0 {
      RunOnHead(fs, input);
      assert roots[..0] == [] && [] + here == here;
    } else {
      var walk := LocateWalk(Resolve(fs, roots[0]));
      FirstFailureTail(fs, roots, k);
      RunOnHead(fs, input);
      RunOnFails(fs, input[1..], k - 1);
      var before := AllLocated(fs, roots[1..][..k - 1]);
      AllLocatedCons(fs, roots, k);
      FailedOutput(walk.paths, before, here, RunOn(fs, input[1..]).output);
    }
  }

  /** The output of a first root that succeeds, followed by the rest's output ending in a failure. */
  lemma FailedOutput(first: seq<Path>, before: seq<Path>, here: seq<Path>, rest: seq<WorkItem>)
    requires rest == PathItems(before + here) + [Failure(ScanningException(DIRECTORY_SEARCH_FAILED))]
    ensures PathItems(first) + rest
            == PathItems((first + before) + here) + [Failure(ScanningException(DIRECTORY_SEARCH_FAILED))]
  {
    PathItemsAppend(first, before + here);
    assert first + (before + here) == (first + before) + here;
  }

  /** `RunOn` on an input whose first item is a root. */
  lemma RunOnHead(fs: FileSystem, input: seq<Option<Path>>)
    requires Finalized(input) && input[0].Some?
    ensures var walk := LocateWalk(Resolve(fs, input[0].value));
      var here := RunOn(fs, input);
      if walk.failed then
        here == RunResult(PathItems(walk.paths) + [Failure(ScanningException(DIRECTORY_SEARCH_FAILED))], 1)
      else
        here == RunResult(PathItems(walk.paths) + RunOn(fs, input[1..]).output, RunOn(fs, input[1..]).consumed + 1)
  {
  }

  /**
   * A run whose first `taken` input items moved the output from `start` to
   * `now`, with `rest` still to come, adds up to `run`.
   */
  predicate Resumes(run: RunResult, start: seq<WorkItem>, now: seq<WorkItem>, taken: nat, rest: RunResult)
  {
    start + run.output == now + rest.output && run.consumed == taken + rest.consumed
  }

  /** One pass of the loop, as `RunOnHead` states it, with any earlier output in front. */
  lemma RunOnStep(fs: FileSystem, input: seq<Option<Path>>)
    requires Finalized(input) && input[0].Some?
    ensures var walk := LocateWalk(Resolve(fs, input[0].value));
      var here := RunOn(fs, input);
      if walk.failed then
        here == RunResult(PathItems(walk.paths) + [Failure(ScanningException(DIRECTORY_SEARCH_FAILED))], 1)
      else
        && Finalized(input[1..])
        && here.consumed == RunOn(fs, input[1..]).consumed + 1
        && forall q: seq<WorkItem> {:trigger q + here.output} ::
             q + here.output == (q + PathItems(walk.paths)) + RunOn(fs, input[1..]).output
  {
    RunOnHead(fs, input);
  }

  /** The discovery service with its two channels. */
  class FileLocatorProcess {
    const inputQueue: Queue<Option<Path>>
    const outputQueue: Queue<WorkItem>

    constructor ()
      ensures fresh(inputQueue) && fresh(outputQueue)
      ensures inputQueue.items == [] && outputQueue.items == []
    {
      inputQueue := new Queue();
      outputQueue := new Queue();
    }

    method AddPath(path: Path)
      modifies inputQueue
      ensures inputQueue.items == old(inputQueue.items) + [Some(path)]
    {
      inputQueue.Put(Some(path));
    }

    method FinalizePaths()
      modifies inputQueue
      ensures inputQueue.items == old(inputQueue.items) + [None]
    {
      inputQueue.Put(None);
    }

    method GetNextFile() returns (item: WorkItem)
      requires outputQueue.items != []
      modifies outputQueue
      ensures item == old(outputQueue.items)[0]
      ensures outputQueue.items == old(outputQueue.items)[1..]
    {
      item := outputQueue.Get();
    }

    /**
     * The service's main loop. It appends exactly `RunOn`'s output to the
     * output channel and takes exactly `RunOn`'s count of input items.
     */
    method Run(fs: FileSystem)
      requires Finalized(inputQueue.items)
      modifies inputQueue, outputQueue
      ensures outputQueue.items == old(outputQueue.items) + RunOn(fs, old(inputQueue.items)).output
      ensures inputQueue.items == old(inputQueue.items)[RunOn(fs, old(inputQueue.items)).consumed..]
    {
      ghost var input := inputQueue.items;
      ghost var run := RunOn(fs, input);
      ghost var start := outputQueue.items;
      ghost var taken: nat := 0;
      while true
        invariant taken <= |input| && inputQueue.items == input[taken..]
        invariant Finalized(inputQueue.items)
        invariant Resumes(run, start, outputQueue.items, taken, RunOn(fs, inputQueue.items))
        decreases |inputQueue.items|
      {
        ghost var before := inputQueue.items;
        var path := inputQueue.Get();
        assert input[taken + 1..] == inputQueue.items;
        taken := taken + 1;
        if path.None? {
          break;
        }
        RunOnStep(fs, before);
        var locator := new FileLocator(Resolve(fs, path.value), outputQueue);
        var outcome := locator.Locate();
        if outcome.Fail? {
          outputQueue.Put(Failure(outcome.error));
          return;
        }
      }
      outputQueue.Put(EndOfFiles);
    }
  }
}
