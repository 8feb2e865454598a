/**
 * File discovery under one root: a depth-first walk of a directory tree
 * that yields every regular file in entry order, recursing into
 * subdirectories where they stand and skipping every other entry kind.
 * A directory that cannot be listed aborts the whole walk; what was
 * yielded before stays yielded.
 */
module Locator {
  import opened ScanTypes

  /**
   * What the file system holds at a path. `Fault` is an entry whose visit
   * raises OSError: a directory that reports itself as one but cannot be
   * listed, or a listing that breaks off at that position. `Other` is
   * every entry that is neither a directory nor a regular file (sockets,
   * devices, dangling links, nothing at all).
   */
  datatype Node =
    | File(path: Path)
    | Dir(path: Path, entries: seq<Node>)
    | Other(path: Path)
    | Fault(path: Path)

  /** `is_dir()` / `os.path.isdir`: true of a listable and of an unlistable directory. */
  predicate IsDir(n: Node)
  {
    n.Dir? || n.Fault?
  }

  /** The paths a walk yielded, and whether it ended by raising. */
  datatype Walk = Walk(paths: seq<Path>, failed: bool)

  /** Continue with `next` unless `first` already raised. */
  function Then(first: Walk, next: Walk): Walk
  {
    if first.failed then first else Walk(first.paths + next.paths, next.failed)
  }

  /** `search_directory` applied to a directory node. */
  function SearchDirectory(dir: Node): Walk
    requires IsDir(dir)
    decreases dir, 1
  {
    if dir.Fault? then Walk([], true) else SearchEntries(dir, 0)
  }

  /** The loop over a listed directory's entries, from entry `k` on. */
  function SearchEntries(dir: Node, k: nat): Walk
    requires dir.Dir?
    decreases dir, 0, |dir.entries| - k
  {
    if k >= |dir.entries| then Walk([], false)
    else
      var item := dir.entries[k];
      var here :=
        if IsDir(item) then SearchDirectory(item)
        else if item.File? then Walk([item.path], false)
        else Walk([], false);
      Then(here, SearchEntries(dir, k + 1))
  }

  /** `locate`: a directory is searched, any other path is yielded as it is. */
  function LocateWalk(root: Node): Walk
  {
    if IsDir(root) then SearchDirectory(root) else Walk([root.path], false)
  }

  // An independent description of the walk: the tree's leaves in
  // depth-first order, then the files before the first unreadable one.

  datatype Leaf = FileLeaf(path: Path) | FaultLeaf

  function Leaves(n: Node): seq<Leaf>
    decreases n, 1
  {
    match n
    case File(p) => [FileLeaf(p)]
    case Other(_) => []
    case Fault(_) => [FaultLeaf]
    case Dir(_, _) => LeavesFrom(n, 0)
  }

  function LeavesFrom(dir: Node, k: nat): seq<Leaf>
    requires dir.Dir?
    decreases dir, 0, |dir.entries| - k
  {
    if k >= |dir.entries| then [] else Leaves(dir.entries[k]) + LeavesFrom(dir, k + 1)
  }

  /** The file paths before the first unreadable leaf, and whether there is one. */
  function UpToFault(leaves: seq<Leaf>): Walk
  {
    if leaves == [] then Walk([], false)
    else if leaves[0].FaultLeaf? then Walk([], true)
    else Then(Walk([leaves[0].path], false), UpToFault(leaves[1..]))
  }

  /** Every file path among the leaves, in order. */
  function FilePaths(leaves: seq<Leaf>): seq<Path>
  {
    if leaves == [] then []
    else if leaves[0].FaultLeaf? then FilePaths(leaves[1..])
    else [leaves[0].path] + FilePaths(leaves[1..])
  }

  predicate HasFault(leaves: seq<Leaf>)
  {
    exists k :: 0 <= k < |leaves| && leaves[k].FaultLeaf?
  }

  lemma {:induction false} ThenAssociative(a: Walk, b: Walk, c: Walk)
    ensures Then(Then(a, b), c) == Then(a, Then(b, c))
  {
  }

  lemma {:induction false} UpToFaultAppend(a: seq<Leaf>, b: seq<Leaf>)
    ensures UpToFault(a + b) == Then(UpToFault(a), UpToFault(b))
  {
    if a == [] {
      assert a + b == b;
    } else {
      assert (a + b)[1..] == a[1..] + b;
      if !a[0].FaultLeaf? {
        UpToFaultAppend(a[1..], b);
        ThenAssociative(Walk([a[0].path], false), UpToFault(a[1..]), UpToFault(b));
      }
    }
  }

  /**
   * The search yields exactly the files that come, in depth-first entry
   * order, before the first directory that cannot be listed, and it raises
   * exactly when there is such a directory.
   */
  lemma {:induction false} SearchIsUpToFault(n: Node)
    requires IsDir(n)
    ensures SearchDirectory(n) == UpToFault(Leaves(n))
    decreases n, 1
  {
    if n.Dir? {
      SearchEntriesIsUpToFault(n, 0);
    }
  }

  lemma {:induction false} SearchEntriesIsUpToFault(dir: Node, k: nat)
    requires dir.Dir?
    ensures SearchEntries(dir, k) == UpToFault(LeavesFrom(dir, k))
    decreases dir, 0, |dir.entries| - k
  {
    if k < |dir.entries| {
      var item := dir.entries[k];
      SearchEntriesIsUpToFault(dir, k + 1);
      UpToFaultAppend(Leaves(item), LeavesFrom(dir, k + 1));
      if IsDir(item) {
        SearchIsUpToFault(item);
      } else if item.File? {
        assert UpToFault([FileLeaf(item.path)]) == Walk([item.path], false);
      }
    }
  }

  lemma {:induction false} UpToFaultShape(leaves: seq<Leaf>)
    ensures UpToFault(leaves).failed <==> HasFault(leaves)
    ensures !HasFault(leaves) ==> UpToFault(leaves).paths == FilePaths(leaves)
    ensures |UpToFault(leaves).paths| <= |FilePaths(leaves)|
    ensures UpToFault(leaves).paths == FilePaths(leaves)[..|UpToFault(leaves).paths|]
  {
    if leaves != [] {
      UpToFaultShape(leaves[1..]);
      if leaves[0].FaultLeaf? {
        assert HasFault(leaves) by { assert leaves[0].FaultLeaf?; }
      } else {
        assert HasFault(leaves) <==> HasFault(leaves[1..]) by {
          if HasFault(leaves) {
            var k :| 0 <= k < |leaves| && leaves[k].FaultLeaf?;
            assert leaves[1..][k - 1] == leaves[k];
          }
          if HasFault(leaves[1..]) {
            var k :| 0 <= k < |leaves[1..]| && leaves[1..][k].FaultLeaf?;
            assert leaves[k + 1] == leaves[1..][k];
          }
        }
      }
    }
  }

  /**
   * What `search_directory` promises: in a tree without unreadable
   * directories it yields every regular file, depth-first in entry order,
   * and does not raise; otherwise it raises, and the paths yielded before
   * are a prefix of that full list.
   */
  lemma SearchDirectoryContract(n: Node)
    requires IsDir(n)
    ensures SearchDirectory(n).failed <==> HasFault(Leaves(n))
    ensures !HasFault(Leaves(n)) ==> SearchDirectory(n).paths == FilePaths(Leaves(n))
    ensures SearchDirectory(n).paths <= FilePaths(Leaves(n))
  {
    SearchIsUpToFault(n);
    UpToFaultShape(Leaves(n));
  }

  /** A path that is not a directory is yielded alone, and never raises. */
  lemma LocateContract(root: Node)
    ensures !IsDir(root) ==> LocateWalk(root) == Walk([root.path], false)
    ensures IsDir(root) ==> (LocateWalk(root).failed <==> HasFault(Leaves(root)))
    ensures IsDir(root) && !HasFault(Leaves(root)) ==> LocateWalk(root).paths == FilePaths(Leaves(root))
  {
    if IsDir(root) {
      SearchDirectoryContract(root);
    }
  }

  /** The queue items for a list of discovered paths. */
  function PathItems(paths: seq<Path>): (items: seq<WorkItem>)
    ensures |items| == |paths|
    ensures forall k :: 0 <= k < |paths| ==> items[k] == FilePath(paths[k])
  {
    if paths == [] then [] else [FilePath(paths[0])] + PathItems(paths[1..])
  }

  lemma {:induction false} PathItemsAppend(a: seq<Path>, b: seq<Path>)
    ensures PathItems(a + b) == PathItems(a) + PathItems(b)
  {
  }

  /**
   * One root's locator: puts every path the walk yields on the shared
   * output queue, counting them in `locatedCount` as the walk goes.
   */
  class FileLocator {
    const root: Node
    const queue: Queue<WorkItem>
    var locatedCount: nat

    constructor (root: Node, queue: Queue<WorkItem>)
      ensures this.root == root && this.queue == queue && locatedCount == 0
    {
      this.root := root;
      this.queue := queue;
      locatedCount := 0;
    }

    /**
     * Every yielded path is queued in order; a failed walk raises
     * ScanningException only after the paths yielded before the failure
     * were queued. Only directory walks count located files.
     */
    method Locate() returns (outcome: Outcome)
      modifies this, queue
      ensures queue.items == old(queue.items) + PathItems(LocateWalk(root).paths)
      ensures outcome == if LocateWalk(root).failed
                         then Fail(ScanningException(DIRECTORY_SEARCH_FAILED)) else Pass
      ensures locatedCount == old(locatedCount) + if IsDir(root) then |LocateWalk(root).paths| else 0
    {
      var realPath := root;
      if IsDir(realPath) {
        var walk := SearchDirectory(realPath);
        var i := 0;
        while i < |walk.paths|
          invariant 0 <= i <= |walk.paths|
          invariant queue.items == old(queue.items) + PathItems(walk.paths[..i])
          invariant locatedCount == old(locatedCount) + i
        {
          locatedCount := locatedCount + 1;
          queue.Put(FilePath(walk.paths[i]));
          assert walk.paths[..i + 1] == walk.paths[..i] + [walk.paths[i]];
          PathItemsAppend(walk.paths[..i], [walk.paths[i]]);
          i := i + 1;
        }
        assert walk.paths[..i] == walk.paths;
        if walk.failed {
          return Fail(ScanningException(DIRECTORY_SEARCH_FAILED));
        }
      } else {
        queue.Put(FilePath(realPath.path));
      }
      outcome := Pass;
    }
  }
}
