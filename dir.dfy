/**
 * The directory walk of src/middleware/dir.rs: a folder becomes a `Folder` snapshot whose
 * children are the snapshots built for its entries, in `read_dir` order.
 */
module Dir {
  import opened Wrappers
  import opened Paths
  import S = Snapshot

  /** What `new_snapshot` yields for one entry: an error, nothing, or a child snapshot. */
  datatype Built = Failed(error: string) | Skipped | Child(snapshot: S.Snapshot)

  /** The children a walk collects: the `Child` results over `entries`, in order. */
  function Children(entries: seq<Path>, build: Path -> Built): (r: seq<S.Snapshot>)
    ensures |r| <= |entries|
  {
    if entries == [] then []
    else
      var init := Children(entries[..|entries| - 1], build);
      match build(entries[|entries| - 1])
      case Child(s) => init + [s]
      case _ => init
  }

  /** Some entry's snapshot fails to build. */
  predicate AnyFailed(entries: seq<Path>, build: Path -> Built)
  {
    exists i | 0 <= i < |entries| :: build(entries[i]).Failed?
  }

  /** Walking two runs of entries one after the other collects the children of each, in order. */
  lemma {:induction false} ChildrenAppend(a: seq<Path>, b: seq<Path>, build: Path -> Built)
    ensures Children(a + b, build) == Children(a, build) + Children(b, build)
    decreases |b|
  {
    if b == [] {
      assert a + b == a;
    } else {
      var b' := b[..|b| - 1];
      assert (a + b)[..|a + b| - 1] == a + b';
      assert (a + b)[|a + b| - 1] == b[|b| - 1];
      ChildrenAppend(a, b', build);
    }
  }

  /** An entry whose snapshot is `None` contributes nothing and leaves the others in place. */
  lemma SkippedEntryIgnored(a: seq<Path>, e: Path, b: seq<Path>, build: Path -> Built)
    requires build(e).Skipped?
    ensures Children(a + [e] + b, build) == Children(a + b, build)
  {
    ChildrenAppend(a + [e], b, build);
    ChildrenAppend(a, b, build);
    assert (a + [e])[..|a + [e]| - 1] == a;
  }

  /** The children are exactly the built snapshots: each comes from some entry, each entry's child is there. */
  lemma {:induction false} ChildrenExactly(entries: seq<Path>, build: Path -> Built)
    ensures forall s | s in Children(entries, build) :: exists i | 0 <= i < |entries| :: build(entries[i]) == Child(s)
    ensures forall i | 0 <= i < |entries| && build(entries[i]).Child? :: build(entries[i]).snapshot in Children(entries, build)
  {
    if entries != [] {
      var init := entries[..|entries| - 1];
      ChildrenExactly(init, build);
      forall s | s in Children(entries, build)
        ensures exists i | 0 <= i < |entries| :: build(entries[i]) == Child(s)
      {
        if s in Children(init, build) {
          var i :| 0 <= i < |init| && build(init[i]) == Child(s);
          assert entries[i] == init[i];
        } else {
          assert build(entries[|entries| - 1]) == Child(s);
        }
      }
      forall i | 0 <= i < |entries| && build(entries[i]).Child?
        ensures build(entries[i]).snapshot in Children(entries, build)
      {
        if i < |init| {
          assert entries[i] == init[i];
        }
      }
    }
  }

  /**
   * `snapshot_dir`: a `Folder` snapshot named after the directory, at `path`, with the built
   * children in `read_dir` order. `listing` is what `read_dir` returns and `build` stands for
   * `new_snapshot`; any error from either aborts the walk with no snapshot.
   */
  method SnapshotDir(path: Path, listing: Result<seq<Path>>, build: Path -> Built) returns (r: Result<S.Snapshot>)
    ensures listing.Err? ==> r.Err?
    ensures listing.Ok? ==> (r.Err? <==> AnyFailed(listing.value, build))
    ensures r.Ok? ==>
      && fresh(r.value)
      && r.value.name == FileName(path) && r.value.className == "Folder"
      && r.value.path == Some(path)
      && r.value.children == Children(listing.value, build)
  {
    var snapshot := new S.Snapshot(FileName(path));
    snapshot := snapshot.WithPath(path);
    if listing.Err? {
      return Err(listing.error);
    }
    var entries := listing.value;
    var i := 0;
    while i < |entries|
      invariant 0 <= i <= |entries|
      invariant snapshot.name == FileName(path) && snapshot.className == "Folder"
      invariant snapshot.path == Some(path)
      invariant snapshot.children == Children(entries[..i], build)
      invariant !AnyFailed(entries[..i], build)
    {
      assert entries[..i + 1][..i] == entries[..i];
      match build(entries[i]) {
        case Failed(e) =>
          assert entries[..i + 1][i] == entries[i];
          return Err(e);
        case Skipped =>
        case Child(c) =>
          snapshot.AddChild(c);
      }
      i := i + 1;
    }
    assert entries[..i] == entries;
    r := Ok(snapshot);
  }
}
