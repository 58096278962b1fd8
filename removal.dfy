/**
 * `apply_removal`: deletes an instance's files (or its project node), turns a parent folder
 * left without children back into a single file, and detaches the instance from the tree.
 */
module Removal {
  import opened Wrappers
  import opened Paths
  import opened Dom
  import M = Meta
  import opened Project
  import opened Sources
  import V = Vfs
  import opened Tree
  import opened Addition
  import opened Update

  /**
   * The file system after the entry loop of `remove_non_project_instances`: in order, every
   * entry that is not a project file and still exists is removed unless the filter matches it.
   */
  function Swept(m: V.Entries, rel: seq<SourceEntry>, f: Filter, env: Env): (r: V.Entries)
    ensures r.Keys <= m.Keys && forall q | q in r :: r[q] == m[q]
    // every unfiltered entry that is not a project file is gone, with everything under it
    ensures forall i, q | 0 <= i < |rel| && !rel[i].ProjectFile? && !PathFiltered(env, f, rel[i].path) &&
                          rel[i].path in m && Under(rel[i].path, q) :: q !in r
    decreases |rel|
  {
    if rel == [] then m
    else
      var e := rel[0];
      var next := if !e.ProjectFile? && e.path in m && !PathFiltered(env, f, e.path) then V.Removed(m, e.path) else m;
      var r := Swept(next, rel[1..], f, env);
      assert forall i | 1 <= i < |rel| :: rel[i] == rel[1..][i - 1];
      forall i, q | 1 <= i < |rel| && !rel[i].ProjectFile? && !PathFiltered(env, f, rel[i].path) &&
                    rel[i].path in m && Under(rel[i].path, q)
        ensures q !in r
      {
        if rel[i].path !in next {
          UnderTrans(e.path, rel[i].path, q);
        }
      }
      r
  }

  lemma UnderTrans(a: Path, b: Path, c: Path)
    requires Under(a, b) && Under(b, c)
    ensures Under(a, c)
  {
    assert c[..|a|] == c[..|b|][..|a|];
  }

  /** The entry loop of `remove_non_project_instances`. */
  method RemoveEntries(rel: seq<SourceEntry>, f: Filter, vfs: V.Vfs, env: Env)
    modifies vfs
    ensures vfs.entries == Swept(old(vfs.entries), rel, f, env)
  {
    var i := 0;
    while i < |rel|
      invariant 0 <= i <= |rel|
      invariant Swept(vfs.entries, rel[i..], f, env) == Swept(old(vfs.entries), rel, f, env)
    {
      var e := rel[i];
      assert rel[i..][1..] == rel[i + 1..];
      if !e.ProjectFile? && vfs.Exists(e.path) && !PathFiltered(env, f, e.path) {
        var _ := vfs.Remove(e.path);
      }
      i := i + 1;
    }
  }

  /**
   * A folder-backed parent turned back into a file: its folder, its body file inside it, where
   * the body goes, and its data file with where that goes (when both are known).
   */
  datatype Demotion = Demotion(folder: Path, file: Path, target: Path, data: Option<(Path, Path)>)

  /**
   * The demotion a parent with meta `pm` undergoes when its last child goes, if any: it needs a
   * path source with a file entry, a first rule whose child pattern matches that file, and a
   * location from that rule for a leaf named after the folder.
   */
  function PlanDemotion(pm: NodeMeta, env: Env): (r: Option<Demotion>)
    ensures r.Some? ==>
      && pm.source.kind.PathKind? && r.value.folder == pm.source.kind.path
      && Get(pm.source, FileEntry) == Some(r.value.file)
      && (r.value.data.Some? ==> Get(pm.source, DataEntry) == Some(r.value.data.value.0))
  {
    if !pm.source.kind.PathKind? then None
    else
      var folder := pm.source.kind.path;
      var name := FileName(folder);
      var rules := pm.context.rules;
      match Get(pm.source, FileEntry)
      case None => None
      case Some(file) =>
        match M.FindRule(rules, (rule: M.SyncRule) => rule.MatchesChild(env.glob, file))
        case None => None
        case Some(j) =>
          match env.locate(rules[j], folder, name, false)
          case None => None
          case Some(target) =>
            var data :=
              match Get(pm.source, DataEntry)
              case None => None
              case Some(d) =>
                match DataPathOf(env, rules, folder, name, false)
                case None => None
                case Some(nd) => Some((d, nd));
            Some(Demotion(folder, file, target, data))
  }

  /** `Source::file(target)`, plus the moved data file. */
  function DemotedSource(d: Demotion): (r: Source)
    ensures r.kind == PathKind(d.target) && Get(r, FileEntry) == Some(d.target)
    ensures Get(r, FolderEntry).None?
    ensures Get(r, DataEntry) == if d.data.Some? then Some(d.data.value.1) else None
  {
    var s := FileSource(d.target);
    var r := if d.data.Some? then AddData(s, d.data.value.1) else s;
    assert IsKind(r.relevant[0], FileEntry);
    assert d.data.Some? ==> IsKind(r.relevant[1], DataEntry) && !IsKind(r.relevant[0], DataEntry);
    r
  }

  /**
   * The file system after a demotion: the body file is renamed, then the data file, then the
   * folder is removed; a rename or removal of a missing path stops it.
   */
  function Demoted(m: V.Entries, d: Demotion): (bool, V.Entries)
  {
    if d.file !in m then (false, m)
    else
      var m1 := V.Moved(m, d.file, d.target);
      var m2 := if d.data.Some? && d.data.value.0 in m1 then V.Moved(m1, d.data.value.0, d.data.value.1) else m1;
      if d.data.Some? && d.data.value.0 !in m1 then (false, m1)
      else if d.folder !in m2 then (false, m2)
      else (true, V.Removed(m2, d.folder))
  }

  /**
   * A demotion moves the body file out to its target and leaves nothing under the folder, when
   * the body file lies inside the folder and the target outside it.
   */
  lemma DemotionMovesBody(m: V.Entries, d: Demotion)
    requires d.data.None? && d.file in m && d.folder in m
    requires Under(d.folder, d.file) && d.file != d.folder
    requires !Under(d.folder, d.target) && !Under(d.target, d.folder)
    ensures Demoted(m, d).0
    ensures d.target in Demoted(m, d).1 && Demoted(m, d).1[d.target] == m[d.file]
    ensures forall q | Under(d.folder, q) :: q !in Demoted(m, d).1
  {
    V.MovedTarget(m, d.file, d.target);
  }

  /** The demotion step of `remove_non_project_instances`, given the parent and its meta. */
  method Demote(parent: Ref, pm: NodeMeta, tree: Tree, vfs: V.Vfs, env: Env) returns (r: Result<()>)
    requires parent in tree.nodes
    modifies tree, vfs
    ensures PlanDemotion(pm, env).None? ==> r == Ok(()) && unchanged(tree, vfs)
    ensures PlanDemotion(pm, env).Some? ==>
      var plan := PlanDemotion(pm, env).value;
      var dm := Demoted(old(vfs.entries), plan);
      && vfs.entries == dm.1
      && (r.Ok? <==> dm.0)
      && (r.Ok? ==> tree.nodes == old(tree.nodes)[parent := old(tree.nodes)[parent].(meta := pm.(source := DemotedSource(plan)))])
      && (r.Err? ==> tree.nodes == old(tree.nodes))
  {
    var plan := PlanDemotion(pm, env);
    if plan.None? {
      return Ok(());
    }
    var d := plan.value;
    var moved := vfs.Rename(d.file, d.target);
    if moved.Err? {
      return Err(moved.error);
    }
    if d.data.Some? {
      var dataMoved := vfs.Rename(d.data.value.0, d.data.value.1);
      if dataMoved.Err? {
        return Err(dataMoved.error);
      }
    }
    var removed := vfs.Remove(d.folder);
    if removed.Err? {
      return Err(removed.error);
    }
    tree.UpdateMeta(parent, pm.(source := DemotedSource(d)));
    r := Ok(());
  }

  /** The instance's parent is in the tree. */
  predicate HasParent(id: Ref, nodes: Nodes)
  {
    id in nodes && nodes[id].instance.parent.Some? && nodes[id].instance.parent.value in nodes
  }

  /**
   * The outcome of `remove_non_project_instances` for `id` with meta `meta`: whether it finished,
   * the tree and the file system. The entries are swept; a parent left with no other child is
   * then demoted.
   */
  function NonProjectRemoval(id: Ref, meta: NodeMeta, nodes: Nodes, m: V.Entries, env: Env): (r: (bool, Nodes, V.Entries))
    requires HasParent(id, nodes)
    ensures r.1.Keys == nodes.Keys
    ensures forall k | k in nodes && Some(k) != nodes[id].instance.parent :: r.1[k] == nodes[k]
  {
    var swept := Swept(m, meta.source.relevant, meta.context.filter, env);
    var parent := nodes[id].instance.parent.value;
    var pm := nodes[parent].meta;
    var plan := PlanDemotion(pm, env);
    if |nodes[parent].instance.children| != 1 || plan.None? then (true, nodes, swept)
    else
      var dm := Demoted(swept, plan.value);
      (dm.0, if dm.0 then nodes[parent := nodes[parent].(meta := pm.(source := DemotedSource(plan.value)))] else nodes, dm.1)
  }

  /** `remove_non_project_instances`. */
  method RemoveNonProject(id: Ref, meta: NodeMeta, tree: Tree, vfs: V.Vfs, env: Env) returns (r: Result<()>)
    requires HasParent(id, tree.nodes)
    modifies tree, vfs
    ensures (r.Ok?, tree.nodes, vfs.entries) == NonProjectRemoval(id, meta, old(tree.nodes), old(vfs.entries), env)
  {
    RemoveEntries(meta.source.relevant, meta.context.filter, vfs, env);
    var parent := tree.nodes[id].instance.parent.value;
    if |tree.nodes[parent].instance.children| != 1 {
      return Ok(());
    }
    r := Demote(parent, tree.nodes[parent].meta, tree, vfs, env);
  }

  /** The project with the child `key` of the node at `parent` taken out. */
  function RemovedChild(root: ProjectNode, parent: NodePath, key: string): (r: ProjectNode)
    requires Renamable(root, parent, key)
    ensures Find(r, parent + [key]).None?
    ensures forall q | Apart(parent, q) :: Find(r, q) == Find(root, q)
  {
    var n := Find(root, parent).value;
    var r := Put(root, parent, n.(tree := n.tree - {key}));
    FindAppend(r, parent, key);
    forall q | Apart(parent, q)
      ensures Find(r, q) == Find(root, q)
    {
      PutKeepsApart(root, parent, n.(tree := n.tree - {key}), q);
    }
    r
  }

  /** The removal is dropped: the instance is gone, or the filter rejects its name or class. */
  predicate RemovalSkipped(id: Ref, nodes: Nodes, env: Env)
  {
    id !in nodes ||
    var f := nodes[id].meta.context.filter;
    NameFiltered(env, f, nodes[id].instance.name) || ClassFiltered(env, f, nodes[id].instance.className)
  }

  /** What the `Project` arm of `apply_removal` did. */
  predicate ProjectRemoved(id: Ref, meta: NodeMeta, before: Nodes, after: Nodes, vb: V.Entries, va: V.Entries,
                           fb: map<Path, ProjectNode>, fa: map<Path, ProjectNode>, saved: bool, env: Env, r: Result<()>)
    requires meta.source.kind.ProjectKind? && id in before
  {
    var k := meta.source.kind;
    var pp := k.projectPath;
    var parent := Pop(k.nodePath);
    if pp !in fb || !Renamable(fb[pp], parent, k.name) then
      r.Err? && !saved && fa == fb && after == before && va == vb
    else if k.node.path.None? then
      r == Ok(()) && saved && fa == fb[pp := RemovedChild(fb[pp], parent, k.name)] && va == vb && after == Detached(before, id)
    else
      HasParent(id, before) &&
      var w := NonProjectRemoval(id, meta, before, vb, env);
      && va == w.2
      && (r.Ok? <==> w.0)
      && (r.Ok? ==> saved && fa == fb[pp := RemovedChild(fb[pp], parent, k.name)] && after == Detached(w.1, id))
      && (r.Err? ==> !saved && fa == fb && after == w.1)
  }

  /** The `Project` arm of `apply_removal`. */
  method RemoveFromProject(id: Ref, meta: NodeMeta, tree: Tree, vfs: V.Vfs, projects: Projects, env: Env)
    returns (r: Result<()>)
    requires meta.source.kind.ProjectKind? && id in tree.nodes
    requires var k := meta.source.kind;
      (k.node.path.Some? && k.projectPath in projects.files && Renamable(projects.files[k.projectPath], Pop(k.nodePath), k.name))
      ==> HasParent(id, tree.nodes)
    modifies tree, vfs, projects
    ensures projects.loads == old(projects.loads) + 1
    ensures ProjectRemoved(id, meta, old(tree.nodes), tree.nodes, old(vfs.entries), vfs.entries,
                           old(projects.files), projects.files, projects.saves == old(projects.saves) + 1, env, r)
    ensures projects.saves == old(projects.saves) || projects.saves == old(projects.saves) + 1
  {
    var k := meta.source.kind;
    var loaded := projects.Load(k.projectPath);
    if loaded.Err? {
      return Err(loaded.error);
    }
    var parent := Pop(k.nodePath);
    var found := Find(loaded.value, parent);
    if found.None? || k.name !in found.value.tree {
      return Err("failed to remove instance from project");
    }
    var root := RemovedChild(loaded.value, parent, k.name);
    if k.node.path.Some? {
      var removed := RemoveNonProject(id, meta, tree, vfs, env);
      if removed.Err? {
        return Err(removed.error);
      }
    }
    projects.Save(k.projectPath, root);
    tree.RemoveInstance(id);
    r := Ok(());
  }

  /** The `Path` arm of `apply_removal`. */
  method RemoveAtPath(id: Ref, meta: NodeMeta, tree: Tree, vfs: V.Vfs, env: Env) returns (r: Result<()>)
    requires HasParent(id, tree.nodes)
    modifies tree, vfs
    ensures var w := NonProjectRemoval(id, meta, old(tree.nodes), old(vfs.entries), env);
      && vfs.entries == w.2
      && (r.Ok? <==> w.0)
      && (r.Ok? ==> tree.nodes == Detached(w.1, id))
      && (r.Err? ==> tree.nodes == w.1)
  {
    r := RemoveNonProject(id, meta, tree, vfs, env);
    if r.Err? {
      return;
    }
    tree.RemoveInstance(id);
  }

  /**
   * `apply_removal`. An instance without a source, or without a parent when its files are to
   * be removed, stops the program in the source; here both are excluded by the precondition.
   */
  method ApplyRemoval(id: Ref, tree: Tree, vfs: V.Vfs, projects: Projects, env: Env) returns (r: Result<()>)
    requires !RemovalSkipped(id, tree.nodes, env) ==>
      var k := tree.nodes[id].meta.source.kind;
      && !k.NoSource?
      && (k.PathKind? ==> HasParent(id, tree.nodes))
      && ((k.ProjectKind? && k.node.path.Some? && k.projectPath in projects.files &&
           Renamable(projects.files[k.projectPath], Pop(k.nodePath), k.name)) ==> HasParent(id, tree.nodes))
    modifies tree, vfs, projects
    ensures RemovalSkipped(id, old(tree.nodes), env) ==> r == Ok(()) && unchanged(tree, vfs, projects)
    ensures !RemovalSkipped(id, old(tree.nodes), env) ==>
      var meta := old(tree.nodes[id].meta);
      match meta.source.kind
      case PathKind(_) =>
        var w := NonProjectRemoval(id, meta, old(tree.nodes), old(vfs.entries), env);
        && unchanged(projects)
        && vfs.entries == w.2
        && (r.Ok? <==> w.0)
        && (r.Ok? ==> tree.nodes == Detached(w.1, id))
        && (r.Err? ==> tree.nodes == w.1)
      case ProjectKind(_, _, _, _) =>
        && projects.loads == old(projects.loads) + 1
        && ProjectRemoved(id, meta, old(tree.nodes), tree.nodes, old(vfs.entries), vfs.entries,
                          old(projects.files), projects.files, projects.saves == old(projects.saves) + 1, env, r)
      case NoSource => true
  {
    if RemovalSkipped(id, tree.nodes, env) {
      return Ok(());
    }
    var meta := tree.nodes[id].meta;
    if meta.source.kind.PathKind? {
      r := RemoveAtPath(id, meta, tree, vfs, env);
    } else {
      r := RemoveFromProject(id, meta, tree, vfs, projects, env);
    }
  }

  /** A removal that succeeds takes the instance out of the tree and out of its parent's children. */
  lemma RemovalDetaches(id: Ref, before: Nodes, after: Nodes)
    requires id in before && after == Detached(before, id)
    ensures id !in after
    ensures before[id].instance.parent.Some? && before[id].instance.parent.value in after ==>
              id !in after[before[id].instance.parent.value].instance.children
  {
  }

  /** The conditions under which demotion undoes promotion. */
  predicate Reversible(m: V.Entries, parentPath: Path, folder: Path, file: Path)
  {
    && parentPath in m && (forall q | q in m :: !Under(folder, q))
    && Under(folder, file) && file != folder
    && !Under(parentPath, folder) && !Under(folder, parentPath)
  }

  /**
   * Demoting a freshly promoted parent gives back the file system it had before the promotion:
   * promotion creates `folder` and moves the parent's file to `file` inside it; demotion moves
   * `file` back to where the parent's file was and removes the folder.
   */
  lemma DemotionUndoesPromotion(m: V.Entries, parentPath: Path, folder: Path, file: Path)
    requires Reversible(m, parentPath, folder, file)
    ensures Demoted(BodyMoved(m, parentPath, Plan(folder, file, None)), Demotion(folder, file, parentPath, None)) == (true, m)
  {
    var m1 := m[folder := V.Dir];
    var m2 := V.Moved(m1, parentPath, file);
    V.MovedTarget(m1, parentPath, file);
    var m3 := V.Moved(m2, file, parentPath);
    assert folder in m3 by {
      NotUnderLonger(folder, file);
      assert folder in m2;
    }
    RoundTrip(m, parentPath, folder, file);
  }

  /** The entries after promotion and demotion are the entries before. */
  lemma RoundTrip(m: V.Entries, parentPath: Path, folder: Path, file: Path)
    requires Reversible(m, parentPath, folder, file)
    ensures V.Removed(V.Moved(V.Moved(m[folder := V.Dir], parentPath, file), file, parentPath), folder) == m
  {
    var m4 := V.Removed(V.Moved(V.Moved(m[folder := V.Dir], parentPath, file), file, parentPath), folder);
    forall q | q in m
      ensures q in m4 && m4[q] == m[q]
    {
      RoundTripKeeps(m, parentPath, folder, file, q);
    }
    forall q | q in m4
      ensures q in m
    {
      RoundTripAdds(m, parentPath, folder, file, q);
    }
  }

  /** Every entry comes back, with its content. */
  lemma RoundTripKeeps(m: V.Entries, parentPath: Path, folder: Path, file: Path, q: Path)
    requires Reversible(m, parentPath, folder, file) && q in m
    ensures var m3 := V.Moved(V.Moved(m[folder := V.Dir], parentPath, file), file, parentPath);
      q in V.Removed(m3, folder) && V.Removed(m3, folder)[q] == m[q]
  {
    var m1 := m[folder := V.Dir];
    var m2 := V.Moved(m1, parentPath, file);
    var m3 := V.Moved(m2, file, parentPath);
    assert q != folder && q in m1 && m1[q] == m[q];
    if Under(parentPath, q) {
      MovedThereAndBack(m1, parentPath, file, q);
      if Under(folder, q) {
        PrefixesComparable(folder, parentPath, q);
      }
    } else {
      assert !Under(file, q) by {
        if Under(file, q) {
          UnderTrans(folder, file, q);
        }
      }
      MovedElsewhere(m1, parentPath, file, q);
    }
    assert q in m3 && m3[q] == m[q];
  }

  /** An entry under `from`, renamed to `to` and back, is where it was with what it held. */
  lemma MovedThereAndBack(m: V.Entries, from: Path, to: Path, q: Path)
    requires q in m && Under(from, q)
    ensures var back := V.Moved(V.Moved(m, from, to), to, from);
      q in back && back[q] == m[q]
  {
    var m2 := V.Moved(m, from, to);
    V.MovedBelow(m, from, to, q);
    var x := V.Rebase(q, from, to);
    V.MovedBelow(m2, to, from, x);
    assert V.Rebase(x, to, from) == q by {
      assert q == from + q[|from|..];
    }
  }

  /** An entry outside both `from` and `to` stays through a rename there and back. */
  lemma MovedElsewhere(m: V.Entries, from: Path, to: Path, q: Path)
    requires q in m && !Under(from, q) && !Under(to, q)
    ensures var back := V.Moved(V.Moved(m, from, to), to, from);
      q in back && back[q] == m[q]
  {
  }

  /** No entry appears that was not there. */
  lemma RoundTripAdds(m: V.Entries, parentPath: Path, folder: Path, file: Path, q: Path)
    requires Reversible(m, parentPath, folder, file)
    requires q in V.Removed(V.Moved(V.Moved(m[folder := V.Dir], parentPath, file), file, parentPath), folder)
    ensures q in m
  {
    var m1 := m[folder := V.Dir];
    assert !Under(folder, q);
    assert !Under(file, q) by {
      if Under(file, q) {
        UnderTrans(folder, file, q);
      }
    }
    MovedBackFrom(m1, parentPath, file, q);
  }

  /** A rename there and back adds no entry. */
  lemma MovedBackFrom(m: V.Entries, from: Path, to: Path, q: Path)
    requires q in V.Moved(V.Moved(m, from, to), to, from)
    ensures q in m
  {
    var m2 := V.Moved(m, from, to);
    if Under(from, q) {
      V.MovedFrom(m2, to, from, q);
      var x := to + q[|from|..];
      V.MovedFrom(m, from, to, x);
      assert from + x[|to|..] == q by {
        assert x[|to|..] == q[|from|..];
        assert q == from + q[|from|..];
      }
    }
  }

  /** A path is not below a longer one. */
  lemma NotUnderLonger(a: Path, b: Path)
    requires Under(a, b) && a != b
    ensures !Under(b, a)
  {
  }

  /** Two prefixes of one path are prefixes of each other. */
  lemma PrefixesComparable(a: Path, b: Path, c: Path)
    requires Under(a, c) && Under(b, c)
    ensures Under(a, b) || Under(b, a)
  {
    if |a| <= |b| {
      assert b[..|a|] == c[..|b|][..|a|];
    } else {
      assert a[..|b|] == c[..|a|][..|b|];
    }
  }
}
