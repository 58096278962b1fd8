/**
 * The abstract file system the write-back processor acts on: a map from every existing path
 * to what lies there. Renaming moves a whole subtree, removing deletes one.
 */
module Vfs {
  import opened Wrappers
  import opened Paths
  import opened Dom

  /** A file holds the properties written into it; a directory holds nothing itself. */
  datatype Entry = File(content: Properties) | Dir

  type Entries = map<Path, Entry>

  /** `p`, which lies under `from`, moved to the same place under `to`. */
  function Rebase(p: Path, from: Path, to: Path): (r: Path)
    requires Under(from, p)
    ensures Under(to, r) && |r| - |to| == |p| - |from|
    ensures p == from ==> r == to
  {
    to + p[|from|..]
  }

  /** The entries under `from`, each rebased onto `to`. */
  function Shifted(m: Entries, from: Path, to: Path): Entries
  {
    RebaseInjectiveOn(m, from, to);
    map p | p in m && Under(from, p) :: Rebase(p, from, to) := m[p]
  }

  /**
   * The entries after `rename(from, to)`: everything under `to` is replaced by what was under
   * `from`, now rebased onto `to`; every other entry stays where it was.
   */
  function Moved(m: Entries, from: Path, to: Path): (r: Entries)
    ensures forall p | !Under(from, p) && !Under(to, p) :: (p in r <==> p in m)
    ensures forall p | !Under(from, p) && !Under(to, p) && p in m :: r[p] == m[p]
    ensures forall p | Under(from, p) && !Under(to, p) :: p !in r
  {
    var kept := map p | p in m && !Under(from, p) && !Under(to, p) :: m[p];
    kept + Shifted(m, from, to)
  }

  /** The entries after `remove(p)`: `p` and everything under it are gone. */
  function Removed(m: Entries, p: Path): (r: Entries)
    ensures forall q :: q in r <==> q in m && !Under(p, q)
    ensures forall q | q in r :: r[q] == m[q]
  {
    map q | q in m && !Under(p, q) :: m[q]
  }

  /** Distinct paths under `from` stay distinct when rebased, so a rename loses no entry. */
  lemma RebaseInjectiveOn(m: Entries, from: Path, to: Path)
    ensures forall p, q | p in m && q in m && Under(from, p) && Under(from, q) &&
              Rebase(p, from, to) == Rebase(q, from, to) :: p == q
  {
    forall p, q | p in m && q in m && Under(from, p) && Under(from, q) &&
        Rebase(p, from, to) == Rebase(q, from, to)
      ensures p == q
    {
      RebaseInjective(p, q, from, to);
    }
  }

  lemma RebaseInjective(p: Path, q: Path, from: Path, to: Path)
    requires Under(from, p) && Under(from, q)
    ensures Rebase(p, from, to) == Rebase(q, from, to) ==> p == q
  {
    if Rebase(p, from, to) == Rebase(q, from, to) {
      assert p[|from|..] == Rebase(p, from, to)[|to|..];
      assert q[|from|..] == Rebase(q, from, to)[|to|..];
      assert p == from + p[|from|..];
      assert q == from + q[|from|..];
    }
  }

  /** After a rename the target holds exactly what the source held. */
  lemma MovedTarget(m: Entries, from: Path, to: Path)
    requires from in m
    ensures to in Moved(m, from, to) && Moved(m, from, to)[to] == m[from]
  {
    assert Under(from, from);
    MovedBelow(m, from, to, from);
  }

  /** The rebased image of everything under `from` sits under `to` with the same entry. */
  lemma MovedBelow(m: Entries, from: Path, to: Path, p: Path)
    requires p in m && Under(from, p)
    ensures Rebase(p, from, to) in Moved(m, from, to)
    ensures Moved(m, from, to)[Rebase(p, from, to)] == m[p]
  {
    RebaseInjectiveOn(m, from, to);
    assert Rebase(p, from, to) in Shifted(m, from, to);
  }

  /** Whatever a rename leaves under `to` came from the same place under `from`. */
  lemma MovedFrom(m: Entries, from: Path, to: Path, q: Path)
    requires q in Moved(m, from, to) && Under(to, q)
    ensures from + q[|to|..] in m && Moved(m, from, to)[q] == m[from + q[|to|..]]
  {
    var sh := Shifted(m, from, to);
    assert q in sh;
    RebaseInjectiveOn(m, from, to);
    var x :| x in m && Under(from, x) && Rebase(x, from, to) == q;
    assert x == from + x[|from|..];
    assert q[|to|..] == x[|from|..];
  }

  /** The error a rename of a missing path fails with. */
  const RenameMissing := "cannot rename a path that does not exist"

  /** The file system; `Vfs` in the source wraps a backend behind a lock. */
  class Vfs {
    var entries: Entries

    constructor (entries: Entries)
      ensures this.entries == entries
    {
      this.entries := entries;
    }

    predicate Exists(p: Path)
      reads this
    {
      p in entries
    }

    predicate IsFile(p: Path)
      reads this
    {
      p in entries && entries[p].File?
    }

    predicate IsDir(p: Path)
      reads this
    {
      p in entries && entries[p].Dir?
    }

    /** `dir::write_dir`: creates the directory. */
    method WriteDir(p: Path)
      modifies this
      ensures entries == old(entries)[p := Dir]
    {
      entries := entries[p := Dir];
    }

    /** Writes a file holding `content`. */
    method Write(p: Path, content: Properties)
      modifies this
      ensures entries == old(entries)[p := File(content)]
    {
      entries := entries[p := File(content)];
    }

    /** Fails with `RenameMissing`, changing nothing, when `from` does not exist. */
    method Rename(from: Path, to: Path) returns (r: Result<()>)
      modifies this
      ensures r.Ok? <==> from in old(entries)
      ensures r.Ok? ==> entries == Moved(old(entries), from, to)
      ensures r.Err? ==> entries == old(entries) && r.error == RenameMissing
    {
      if from !in entries {
        return Err(RenameMissing);
      }
      entries := Moved(entries, from, to);
      r := Ok(());
    }

    /** Fails, changing nothing, when `p` does not exist. */
    method Remove(p: Path) returns (r: Result<()>)
      modifies this
      ensures r.Ok? <==> p in old(entries)
      ensures r.Ok? ==> entries == Removed(old(entries), p)
      ensures r.Err? ==> entries == old(entries)
    {
      if p !in entries {
        return Err("cannot remove a path that does not exist");
      }
      entries := Removed(entries, p);
      r := Ok(());
    }
  }
}
