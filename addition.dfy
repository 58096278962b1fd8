/**
 * `apply_addition`: writes a subtree the client added onto the file system (or into a project
 * file) and inserts it into the tree.
 */
module Addition {
  import opened Wrappers
  import opened Paths
  import opened Dom
  import M = Meta
  import opened Project
  import opened Sources
  import V = Vfs
  import opened Tree
  import opened Middleware

  /** Where the middleware of kind `ft` puts an instance named `name` at `path`. */
  function FilePathOf(env: Env, rules: seq<M.SyncRule>, ft: M.FileType, path: Path, name: string, hasChildren: bool): Option<Path>
  {
    Locate(env, RulesOfType(rules, ft), path, name, hasChildren)
  }

  /** Where its data file goes. */
  function DataPathOf(env: Env, rules: seq<M.SyncRule>, path: Path, name: string, hasChildren: bool): Option<Path>
  {
    Locate(env, RulesOfType(rules, M.InstanceData), path, name, hasChildren)
  }

  /**
   * `write_instance` on the file system `m`: the instance's new meta (or `None` when it was
   * skipped, or the error that stopped it) and the file system it leaves.
   * A corrupted name writes nothing.
   */
  function Written(hasChildren: bool, path: Path, s: Snap, pm: NodeMeta, m: V.Entries, env: Env)
    : (Result<Option<NodeMeta>>, V.Entries)
  {
    if !env.verifyName(s.name) then (Ok(None), m)
    else match env.middleware(s.className)
      case Some(ft) => FileInstanceWritten(hasChildren, ft, path, s, pm, m, env)
      case None => FolderInstanceWritten(path, s, pm, m, env)
  }

  /**
   * An instance with a file representation of kind `ft`: the file (inside a new folder when it
   * has children), then a data file for what the file cannot hold. An existing or filtered folder
   * or file skips it; a file filtered after its folder was created leaves the empty folder.
   */
  function FileInstanceWritten(hasChildren: bool, ft: M.FileType, path: Path, s: Snap, pm: NodeMeta, m: V.Entries, env: Env)
    : (Result<Option<NodeMeta>>, V.Entries)
  {
    var f := pm.context.filter;
    var meta := s.meta.(context := pm.context);
    match FilePathOf(env, pm.context.rules, ft, path, s.name, hasChildren)
    case None => (Err("failed to locate file path"), m)
    case Some(fp) =>
      if hasChildren && (path in m || PathFiltered(env, f, path)) then (Ok(None), m)
      else if !hasChildren && fp in m then (Ok(None), m)
      else
        var folder := if hasChildren then m[path := V.Dir] else m;
        var base := if hasChildren then ChildFileSource(path, fp) else FileSource(fp);
        if PathFiltered(env, f, fp) then (Ok(None), folder)
        else
          var written := folder[fp := V.File(Native(env, ft, s.properties))];
          var rest := Leftover(env, ft, s.properties);
          if rest == map[] then (Ok(Some(meta.(source := base))), written)
          else
            match DataPathOf(env, pm.context.rules, path, s.name, hasChildren)
            case None => (Err("failed to locate data path"), written)
            case Some(dp) =>
              if PathFiltered(env, f, dp) then (Ok(Some(meta.(source := base))), written)
              else if env.keepsData(true, s.className, rest) then
                (Ok(Some(meta.(source := SetData(base, Some(dp))))), written[dp := V.File(rest)])
              else (Ok(Some(meta.(source := SetData(base, None)))), written)
  }

  /** A container: a bare folder plus a data file holding its properties. */
  function FolderInstanceWritten(path: Path, s: Snap, pm: NodeMeta, m: V.Entries, env: Env)
    : (Result<Option<NodeMeta>>, V.Entries)
  {
    var f := pm.context.filter;
    if path in m || PathFiltered(env, f, path) then (Ok(None), m)
    else
      var written := m[path := V.Dir];
      var meta := s.meta.(context := pm.context, source := DirectorySource(path));
      match DataPathOf(env, pm.context.rules, path, s.name, true)
      case None => (Err("failed to locate data path"), written)
      case Some(dp) =>
        if PathFiltered(env, f, dp) then (Ok(Some(meta)), written)
        else if env.keepsData(false, s.className, s.properties) then
          (Ok(Some(meta.(source := SetData(meta.source, Some(dp))))), written[dp := V.File(s.properties)])
        else (Ok(Some(meta.(source := SetData(meta.source, None)))), written)
  }

  /**
   * What `write_instance` promises of its outcome `w` on `m`: no entry disappears; a skipped
   * instance leaves at most an empty new folder behind; a written one gets the parent's context,
   * keeps the rest of its own meta, and the path its source names is there.
   */
  predicate WriteKept(w: (Result<Option<NodeMeta>>, V.Entries), path: Path, s: Snap, pm: NodeMeta, m: V.Entries)
  {
    && m.Keys <= w.1.Keys
    && (w.0 == Ok(None) ==> w.1 == m || (path !in m && w.1 == m[path := V.Dir]))
    && (w.0.Ok? && w.0.value.Some? ==>
          var meta := w.0.value.value;
          && meta == s.meta.(context := pm.context, source := meta.source)
          && meta.source.kind.PathKind? && meta.source.kind.path in w.1)
  }

  lemma WrittenOutcome(hasChildren: bool, path: Path, s: Snap, pm: NodeMeta, m: V.Entries, env: Env)
    ensures WriteKept(Written(hasChildren, path, s, pm, m, env), path, s, pm, m)
  {
    if env.verifyName(s.name) {
      match env.middleware(s.className)
      case Some(ft) => FileInstanceOutcome(hasChildren, ft, path, s, pm, m, env);
      case None => FolderInstanceOutcome(path, s, pm, m, env);
    }
  }

  lemma FileInstanceOutcome(hasChildren: bool, ft: M.FileType, path: Path, s: Snap, pm: NodeMeta, m: V.Entries, env: Env)
    ensures WriteKept(FileInstanceWritten(hasChildren, ft, path, s, pm, m, env), path, s, pm, m)
  {
    var w := FileInstanceWritten(hasChildren, ft, path, s, pm, m, env);
    var fp := FilePathOf(env, pm.context.rules, ft, path, s.name, hasChildren);
    if fp.Some? && w.0.Ok? && w.0.value.Some? {
      var base := if hasChildren then ChildFileSource(path, fp.value) else FileSource(fp.value);
      var folder := if hasChildren then m[path := V.Dir] else m;
      var written := folder[fp.value := V.File(Native(env, ft, s.properties))];
      assert base.kind.path in written;
      assert written.Keys <= w.1.Keys;
      assert w.0.value.value.source.kind == base.kind;
    }
  }

  lemma FolderInstanceOutcome(path: Path, s: Snap, pm: NodeMeta, m: V.Entries, env: Env)
    ensures WriteKept(FolderInstanceWritten(path, s, pm, m, env), path, s, pm, m)
  {
    var w := FolderInstanceWritten(path, s, pm, m, env);
    if w.0.Ok? && w.0.value.Some? {
      assert path in m[path := V.Dir];
      assert m[path := V.Dir].Keys <= w.1.Keys;
      assert w.0.value.value.source.kind == PathKind(path);
    }
  }

  /**
   * `write_instance`: writes one instance at `path` under a parent with meta `pm`, and returns
   * the instance's new meta, or `None` when it was skipped.
   */
  method WriteInstance(hasChildren: bool, path: Path, s: Snap, pm: NodeMeta, vfs: V.Vfs, env: Env)
    returns (r: Result<Option<NodeMeta>>)
    modifies vfs
    ensures (r, vfs.entries) == Written(hasChildren, path, s, pm, old(vfs.entries), env)
  {
    if !env.verifyName(s.name) {
      return Ok(None);
    }
    var meta := s.meta.(context := pm.context);
    var f := pm.context.filter;
    var mw := env.middleware(s.className);
    if mw.Some? {
      var ft := mw.value;
      var located := FilePathOf(env, pm.context.rules, ft, path, s.name, hasChildren);
      if located.None? {
        return Err("failed to locate file path");
      }
      var fp := located.value;
      if hasChildren {
        if vfs.Exists(path) || PathFiltered(env, f, path) {
          return Ok(None);
        }
        vfs.WriteDir(path);
        meta := meta.(source := ChildFileSource(path, fp));
      } else {
        if vfs.Exists(fp) {
          return Ok(None);
        }
        meta := meta.(source := FileSource(fp));
      }
      if PathFiltered(env, f, fp) {
        return Ok(None);
      }
      var rest := WriteFile(env, ft, s.properties, fp, vfs);
      if rest != map[] {
        var dp := DataPathOf(env, pm.context.rules, path, s.name, hasChildren);
        if dp.None? {
          return Err("failed to locate data path");
        }
        if !PathFiltered(env, f, dp.value) {
          var kept := WriteData(env, true, s.className, rest, dp.value, vfs);
          meta := meta.(source := SetData(meta.source, kept));
        }
      }
    } else {
      if vfs.Exists(path) || PathFiltered(env, f, path) {
        return Ok(None);
      }
      vfs.WriteDir(path);
      meta := meta.(source := DirectorySource(path));
      var dp := DataPathOf(env, pm.context.rules, path, s.name, true);
      if dp.None? {
        return Err("failed to locate data path");
      }
      if !PathFiltered(env, f, dp.value) {
        var kept := WriteData(env, false, s.className, s.properties, dp.value, vfs);
        meta := meta.(source := SetData(meta.source, kept));
      }
    }
    r := Ok(Some(meta));
  }

  /** The first sync rule matching a file-backed parent. */
  function PromotionRule(env: Env, pm: NodeMeta, parentPath: Path): Option<nat>
  {
    M.FindRule(pm.context.rules, (x: M.SyncRule) => x.Matches(env.glob, parentPath))
  }

  /** The folder that would replace a file-backed parent: named by that rule's `get_name`. */
  function PromotionFolder(env: Env, pm: NodeMeta, parentPath: Path): (r: Option<Path>)
    ensures r.Some? <==> PromotionRule(env, pm, parentPath).Some?
    ensures r.Some? ==>
      var rule := pm.context.rules[PromotionRule(env, pm, parentPath).value];
      && rule.Matches(env.glob, parentPath)
      && Pop(r.value) == Pop(parentPath)
      && FileName(r.value) == rule.GetName(parentPath)
  {
    match PromotionRule(env, pm, parentPath)
    case None => None
    case Some(i) => Some(WithFileName(parentPath, pm.context.rules[i].GetName(parentPath)))
  }

  /** A promotion: the new folder, where the body file goes, and the data file's move, if any. */
  datatype Plan = Plan(folder: Path, file: Path, data: Option<(Path, Path)>)

  /** Everything a promotion needs to locate, or the error that stops it. */
  function PlanPromotion(env: Env, pm: NodeMeta, parentPath: Path): (r: Result<Plan>)
    ensures PromotionRule(env, pm, parentPath).None? ==> r.Err?
    ensures r.Ok? ==> PromotionFolder(env, pm, parentPath) == Some(r.value.folder)
    ensures r.Ok? ==>
      var rule := pm.context.rules[PromotionRule(env, pm, parentPath).value];
      var name := rule.GetName(parentPath);
      && env.locate(rule, r.value.folder, name, true) == Some(r.value.file)
      && (r.value.data.Some? <==> Get(pm.source, DataEntry).Some?)
      && (r.value.data.Some? ==>
            && r.value.data.value.0 == Get(pm.source, DataEntry).value
            && DataPathOf(env, pm.context.rules, r.value.folder, name, true) == Some(r.value.data.value.1))
  {
    match PromotionRule(env, pm, parentPath)
    case None => Err("failed to find sync rule")
    case Some(i) =>
      var rule := pm.context.rules[i];
      var name := rule.GetName(parentPath);
      var folder := WithFileName(parentPath, name);
      match env.locate(rule, folder, name, true)
      case None => Err("failed to locate file path")
      case Some(file) =>
        match Get(pm.source, DataEntry)
        case None => Ok(Plan(folder, file, None))
        case Some(d) =>
          match DataPathOf(env, pm.context.rules, folder, name, true)
          case None => Err("failed to locate data path")
          case Some(nd) => Ok(Plan(folder, file, Some((d, nd))))
  }

  /** The parent's source once promoted: the folder with its body file, and the moved data file. */
  function PromotedSource(p: Plan): (r: Source)
    ensures r.kind == PathKind(p.folder)
    ensures Get(r, FolderEntry) == Some(p.folder) && Get(r, FileEntry) == Some(p.file)
    ensures Get(r, DataEntry) == if p.data.Some? then Some(p.data.value.1) else None
  {
    var base := ChildFileSource(p.folder, p.file);
    assert IsKind(base.relevant[0], FolderEntry) && IsKind(base.relevant[1], FileEntry);
    match p.data
    case None => base
    case Some(d) =>
      var r := AddData(base, d.1);
      assert IsKind(r.relevant[0], FolderEntry) && IsKind(r.relevant[1], FileEntry);
      assert IsKind(r.relevant[2], DataEntry);
      r
  }

  /** The file system after creating the folder and moving the body file into it. */
  function BodyMoved(m: V.Entries, parentPath: Path, p: Plan): V.Entries
  {
    V.Moved(m[p.folder := V.Dir], parentPath, p.file)
  }

  /**
   * Promotion puts the parent's file, with its content, at the body path inside a new folder,
   * and nothing is left at the parent's old path.
   */
  lemma PromotionMovesBody(m: V.Entries, parentPath: Path, p: Plan)
    requires parentPath in m && p.folder !in m
    requires Under(p.folder, p.file) && p.file != p.folder
    requires !Under(p.folder, parentPath) && !Under(parentPath, p.folder)
    ensures var r := BodyMoved(m, parentPath, p);
      && p.file in r && r[p.file] == m[parentPath]
      && p.folder in r && r[p.folder] == V.Dir
      && parentPath !in r
  {
    var m1 := m[p.folder := V.Dir];
    V.MovedTarget(m1, parentPath, p.file);
    // the folder is shorter than the body path, so it is not under it
    assert p.file[..|p.file|] == p.file;
    assert !Under(p.file, p.folder);
    // nor is the parent's old path, which is not under the folder
    UnderShorter(p.folder, p.file, parentPath);
    assert Under(parentPath, parentPath);
  }

  datatype Promotion = NotAFile | Blocked | Promoted(source: Source, folder: Path)

  /**
   * The outcome of the first half of `add_non_project_instances` on the file system `m`, and the
   * file system it leaves: a parent backed by a single file becomes a folder holding that file.
   */
  function Promoting(parentPath: Path, pm: NodeMeta, m: V.Entries, env: Env): (r: (Result<Promotion>, V.Entries))
  {
    if !(parentPath in m && m[parentPath].File?) then (Ok(NotAFile), m)
    else match PromotionFolder(env, pm, parentPath)
      case None => (Err("failed to find sync rule"), m)
      case Some(folder) =>
        if folder in m then (Ok(Blocked), m)
        else match PlanPromotion(env, pm, parentPath)
          case Err(e) => (Err(e), m)
          case Ok(plan) =>
            var moved := BodyMoved(m, parentPath, plan);
            var promoted := Promoted(PromotedSource(plan), plan.folder);
            match plan.data
            case None => (Ok(promoted), moved)
            case Some(d) =>
              if d.0 in moved then (Ok(promoted), V.Moved(moved, d.0, d.1))
              else (Err(V.RenameMissing), moved)
  }

  /** A promotion that succeeds creates a folder that was not there; one that stops early changes nothing. */
  lemma PromotingOutcome(parentPath: Path, pm: NodeMeta, m: V.Entries, env: Env)
    ensures var p := Promoting(parentPath, pm, m, env);
      && (p.0 == Ok(NotAFile) <==> !(parentPath in m && m[parentPath].File?))
      && (p.0 == Ok(NotAFile) || p.0 == Ok(Blocked) ==> p.1 == m)
      && (p.0.Ok? && p.0.value.Promoted? ==>
            && PlanPromotion(env, pm, parentPath).Ok?
            && p.0.value.folder == PlanPromotion(env, pm, parentPath).value.folder
            && p.0.value.folder !in m
            && p.0.value.source == PromotedSource(PlanPromotion(env, pm, parentPath).value))
  {
  }

  /** The parent's source as `add_non_project_instances` returns it on success. */
  function ParentSourceAfter(parentPath: Path, pm: NodeMeta, m: V.Entries, env: Env): (r: Source)
    ensures !(parentPath in m && m[parentPath].File?) ==> r == pm.source
    ensures r != pm.source ==>
      PlanPromotion(env, pm, parentPath).Ok? && r == PromotedSource(PlanPromotion(env, pm, parentPath).value)
  {
    PromotingOutcome(parentPath, pm, m, env);
    match Promoting(parentPath, pm, m, env).0
    case Ok(Promoted(source, _)) => source
    case _ => pm.source
  }

  /**
   * The first half of `add_non_project_instances`: a parent backed by a single file becomes a
   * folder holding that file, so that it can take children.
   */
  method Promote(parentPath: Path, pm: NodeMeta, vfs: V.Vfs, env: Env) returns (r: Result<Promotion>)
    modifies vfs
    ensures (r, vfs.entries) == Promoting(parentPath, pm, old(vfs.entries), env)
  {
    ghost var m := vfs.entries;
    if !vfs.IsFile(parentPath) {
      return Ok(NotAFile);
    }
    var found := PromotionRule(env, pm, parentPath);
    if found.None? {
      return Err("failed to find sync rule");
    }
    var rule := pm.context.rules[found.value];
    var name := rule.GetName(parentPath);
    var folder := WithFileName(parentPath, name);
    assert PromotionFolder(env, pm, parentPath) == Some(folder);
    if vfs.Exists(folder) {
      return Ok(Blocked);
    }
    var file := env.locate(rule, folder, name, true);
    if file.None? {
      return Err("failed to locate file path");
    }
    var data: Option<(Path, Path)> := None;
    var existing := Get(pm.source, DataEntry);
    if existing.Some? {
      var nd := DataPathOf(env, pm.context.rules, folder, name, true);
      if nd.None? {
        return Err("failed to locate data path");
      }
      data := Some((existing.value, nd.value));
    }
    var plan := Plan(folder, file.value, data);
    assert PlanPromotion(env, pm, parentPath) == Ok(plan);
    var source := ChildFileSource(folder, file.value);
    vfs.WriteDir(folder);
    // the parent file is still there, so this rename cannot fail
    var _ := vfs.Rename(parentPath, file.value);
    assert vfs.entries == BodyMoved(m, parentPath, plan);
    if data.Some? {
      source := AddData(source, data.value.1);
      var moved := vfs.Rename(data.value.0, data.value.1);
      if moved.Err? {
        return Err(moved.error);
      }
    }
    assert source == PromotedSource(plan);
    r := Ok(Promoted(source, folder));
  }

  /**
   * `after` is `before` with `s` added under `parent` (its own subtree below it), or unchanged
   * when `s` was skipped.
   */
  predicate Grown(before: Nodes, after: Nodes, parent: Ref, s: Snap)
  {
    && parent in before && parent in after
    && before.Keys <= after.Keys <= before.Keys + RefSet(s)
    && (s.id !in after ==> after.Keys == before.Keys)
    && (forall k | k in before && k != parent :: after[k] == before[k])
    && after[parent].instance ==
         before[parent].instance.(children := before[parent].instance.children + (if s.id in after then [s.id] else []))
    && (s.id in after ==>
          var inst := after[s.id].instance;
          inst.name == s.name && inst.className == s.className && inst.properties == s.properties &&
          inst.parent == Some(parent))
  }

  /** Only nodes in `added` are new, and of the old ones only `parent`'s children list changed. */
  predicate Below(before: Nodes, after: Nodes, parent: Ref, added: set<Ref>)
  {
    && parent in before && parent in after
    && before.Keys <= after.Keys <= before.Keys + added
    && (forall k | k in before && k != parent :: after[k] == before[k])
    && after[parent].instance == before[parent].instance.(children := after[parent].instance.children)
    && after[parent].meta == before[parent].meta
  }

  lemma BelowStep(inserted: Nodes, cur: Nodes, next: Nodes, parent: Ref, added: set<Ref>, child: Snap)
    requires Below(inserted, cur, parent, added) && Grown(cur, next, parent, child)
    requires next[parent].meta == cur[parent].meta
    ensures Below(inserted, next, parent, added + RefSet(child))
  {
  }

  lemma GrownFromBelow(before: Nodes, inserted: Nodes, after: Nodes, parent: Ref, s: Snap, meta: NodeMeta)
    requires parent in before && s.id !in before
    requires inserted == Inserted(before, s.id, s.name, s.className, s.properties, meta, parent)
    requires Below(inserted, after, s.id, RefsOf(s.children))
    ensures Grown(before, after, parent, s)
  {
  }

  /** The tree and the file system that `add_non_project_instances` changes. */
  datatype State = State(nodes: Nodes, entries: V.Entries)

  /**
   * `add_non_project_instances` on a state: the promotion of a file-backed parent, then `s`
   * added below the parent's (possibly new) folder. The result is the parent's source to keep.
   */
  function AddingNonProject(parent: Ref, parentPath: Path, s: Snap, pm: NodeMeta, st: State, env: Env)
    : (r: (Result<Source>, State))
    requires parent in st.nodes && Distinct(s) && RefSet(s) !! st.nodes.Keys
    ensures parent in r.1.nodes && st.nodes.Keys <= r.1.nodes.Keys <= st.nodes.Keys + RefSet(s)
    decreases s.children, 2, 0
  {
    var p := Promoting(parentPath, pm, st.entries, env);
    var promoted := st.(entries := p.1);
    match p.0
    case Err(e) => (Err(e), promoted)
    case Ok(Blocked) => (Ok(pm.source), promoted)
    case Ok(NotAFile) =>
      var b := AddingBelow(parent, Join(parentPath, s.name), s, pm, promoted, env);
      (if b.0.Ok? then Ok(pm.source) else Err(b.0.error), b.1)
    case Ok(Promoted(source, folder)) =>
      var b := AddingBelow(parent, Join(folder, s.name), s, pm, promoted, env);
      (if b.0.Ok? then Ok(source) else Err(b.0.error), b.1)
  }

  /**
   * `s` written at `path` and, when the write gives it a meta, inserted under `parent`, then
   * its children added below it. A leaf is written as a file, a node with children as a folder.
   */
  function AddingBelow(parent: Ref, path: Path, s: Snap, pm: NodeMeta, st: State, env: Env)
    : (r: (Result<()>, State))
    requires parent in st.nodes && Distinct(s) && RefSet(s) !! st.nodes.Keys
    ensures parent in r.1.nodes && st.nodes.Keys <= r.1.nodes.Keys <= st.nodes.Keys + RefSet(s)
    decreases s.children, 1, 0
  {
    var w := Written(s.children != [], path, s, pm, st.entries, env);
    match w.0
    case Err(e) => (Err(e), st.(entries := w.1))
    case Ok(None) => (Ok(()), st.(entries := w.1))
    case Ok(Some(meta)) =>
      var inserted := State(Inserted(st.nodes, s.id, s.name, s.className, s.properties, meta, parent), w.1);
      if s.children == [] then (Ok(()), inserted)
      else
        assert s.children[..0] == [];
        AddingChildren(s, path, meta, 0, inserted, env)
  }

  /**
   * The children of `s` from the `i`-th on, each with its properties validated against the
   * filter of `meta`, added below `s` at `path` in order; the first failure stops the loop.
   */
  function AddingChildren(s: Snap, path: Path, meta: NodeMeta, i: nat, st: State, env: Env)
    : (r: (Result<()>, State))
    requires s.id in st.nodes && Distinct(s) && i <= |s.children|
    requires (RefsOf(s.children) - RefsOf(s.children[..i])) !! st.nodes.Keys
    ensures s.id in r.1.nodes && st.nodes.Keys <= r.1.nodes.Keys <= st.nodes.Keys + RefsOf(s.children)
    decreases s.children, 0, |s.children| - i
  {
    if i == |s.children| then (Ok(()), st)
    else
      var child := Validated(s.children[i], meta.context.filter, env);
      ChildFresh(s, i, {});
      ValidatedRefs(s.children[i], meta.context.filter, env);
      RefsOfStep(s.children, i);
      RefsOfGrow(s.children, i + 1);
      var a := AddingNonProject(s.id, path, child, meta, st, env);
      if a.0.Err? then (Err(a.0.error), a.1)
      else AddingChildren(s, path, meta, i + 1, a.1, env)
  }

  /**
   * `add_non_project_instances`: promotes a file-backed parent if needed, then writes `s` and
   * its subtree below the parent's folder and inserts them into the tree. Returns the parent's
   * (possibly promoted) source.
   */
  method AddNonProject(parentId: Ref, parentPath: Path, s: Snap, pm: NodeMeta, tree: Tree, vfs: V.Vfs, env: Env)
    returns (r: Result<Source>)
    requires parentId in tree.nodes
    requires Distinct(s) && RefSet(s) !! tree.nodes.Keys
    modifies tree, vfs
    decreases s.children, 2
    ensures Grown(old(tree.nodes), tree.nodes, parentId, s)
    ensures tree.nodes[parentId].meta == old(tree.nodes[parentId].meta)
    ensures (r, State(tree.nodes, vfs.entries)) ==
      AddingNonProject(parentId, parentPath, s, pm, State(old(tree.nodes), old(vfs.entries)), env)
    ensures r.Ok? ==> r.value == ParentSourceAfter(parentPath, pm, old(vfs.entries), env)
  {
    ghost var st := State(tree.nodes, vfs.entries);
    var promotion := Promote(parentPath, pm, vfs, env);
    ghost var promoted := State(tree.nodes, vfs.entries);
    assert promoted == st.(entries := Promoting(parentPath, pm, st.entries, env).1);
    if promotion.Err? {
      return Err(promotion.error);
    }
    var parentSource := pm.source;
    var base := parentPath;
    match promotion.value {
      case Blocked =>
        return Ok(pm.source);
      case Promoted(source, folder) =>
        parentSource := source;
        base := folder;
      case NotAFile =>
    }
    var added := AddBelow(parentId, Join(base, s.name), s, pm, tree, vfs, env);
    assert (added, State(tree.nodes, vfs.entries)) == AddingBelow(parentId, Join(base, s.name), s, pm, promoted, env);
    if added.Err? {
      return Err(added.error);
    }
    r := Ok(parentSource);
  }

  /** The second half of `add_non_project_instances`: writes `s` at `path` and recurses into its children. */
  method AddBelow(parentId: Ref, path: Path, s: Snap, pm: NodeMeta, tree: Tree, vfs: V.Vfs, env: Env)
    returns (r: Result<()>)
    requires parentId in tree.nodes
    requires Distinct(s) && RefSet(s) !! tree.nodes.Keys
    modifies tree, vfs
    decreases s.children, 1
    ensures Grown(old(tree.nodes), tree.nodes, parentId, s)
    ensures tree.nodes[parentId].meta == old(tree.nodes[parentId].meta)
    ensures (r, State(tree.nodes, vfs.entries)) == AddingBelow(parentId, path, s, pm, State(old(tree.nodes), old(vfs.entries)), env)
  {
    ghost var before := tree.nodes;
    var written := WriteInstance(s.children != [], path, s, pm, vfs, env);
    if written.Err? {
      return Err(written.error);
    }
    if written.value.None? {
      return Ok(());
    }
    var meta := written.value.value;
    tree.Insert(s.id, s.name, s.className, s.properties, meta, parentId);
    ghost var inserted := tree.nodes;
    if s.children == [] {
      r := Ok(());
    } else {
      r := AddChildren(s, path, meta, tree, vfs, env, before.Keys);
    }
    GrownFromBelow(before, inserted, tree.nodes, parentId, s, meta);
  }

  /** The loop over the children of a node just written at `path` with meta `meta`. */
  method AddChildren(s: Snap, path: Path, meta: NodeMeta, tree: Tree, vfs: V.Vfs, env: Env, ghost used: set<Ref>)
    returns (r: Result<()>)
    requires s.id in tree.nodes && Distinct(s) && RefSet(s) !! used
    requires tree.nodes.Keys == used + {s.id}
    modifies tree, vfs
    decreases s.children, 0
    ensures Below(old(tree.nodes), tree.nodes, s.id, RefsOf(s.children))
    ensures (r, State(tree.nodes, vfs.entries)) == AddingChildren(s, path, meta, 0, State(old(tree.nodes), old(vfs.entries)), env)
  {
    ghost var inserted := tree.nodes;
    ghost var spec := AddingChildren(s, path, meta, 0, State(tree.nodes, vfs.entries), env);
    var f := meta.context.filter;
    var i := 0;
    while i < |s.children|
      invariant 0 <= i <= |s.children|
      invariant Below(inserted, tree.nodes, s.id, RefsOf(s.children[..i]))
      invariant (RefsOf(s.children) - RefsOf(s.children[..i])) !! tree.nodes.Keys
      invariant AddingChildren(s, path, meta, i, State(tree.nodes, vfs.entries), env) == spec
    {
      ChildFresh(s, i, used);
      RefsOfStep(s.children, i);
      RefsOfGrow(s.children, i + 1);
      var child := Validated(s.children[i], f, env);
      ValidatedRefs(s.children[i], f, env);
      ghost var cur := tree.nodes;
      assert RefSet(child) !! cur.Keys;
      var added := AddNonProject(s.id, path, child, meta, tree, vfs, env);
      BelowStep(inserted, cur, tree.nodes, s.id, RefsOf(s.children[..i]), child);
      if added.Err? {
        return Err(added.error);
      }
      i := i + 1;
    }
    assert s.children[..i] == s.children;
    r := Ok(());
  }

  /** A project node for `s` alone: its class, its serialized properties, and `keep_unknowns` if asked. */
  function BareNode(s: Snap, env: Env): ProjectNode
  {
    EmptyNode().(
      className := Some(s.className),
      properties := env.serialize(s.className, s.properties),
      keepUnknowns := if s.meta.keepUnknowns then Some(true) else None)
  }

  /** No later sibling has the same name, so this child's node is the one kept. */
  predicate LastNamed(cs: seq<Snap>, i: nat)
  {
    forall j | i < j < |cs| :: cs[j].name != cs[i].name
  }

  /** The project node built for `s` and, nested by name, for its (validated) children. */
  function NodeFor(s: Snap, f: Filter, env: Env): (r: ProjectNode)
    decreases s.children, 1
  {
    BareNode(s, env).(tree := ChildNodes(s.children, f, env))
  }

  /** The children's nodes by name; of two children with one name the later one wins. */
  function ChildNodes(cs: seq<Snap>, f: Filter, env: Env): (r: map<string, ProjectNode>)
    decreases cs, 0
    ensures r.Keys == set c | c in cs :: c.name
    ensures forall i {:trigger LastNamed(cs, i)} | 0 <= i < |cs| && LastNamed(cs, i) ::
              r[cs[i].name] == NodeFor(Validated(cs[i], f, env), f, env)
  {
    if cs == [] then map[]
    else
      var init := cs[..|cs| - 1];
      var last := cs[|cs| - 1];
      var rest := ChildNodes(init, f, env);
      var r := rest[last.name := NodeFor(Validated(last, f, env), f, env)];
      assert r.Keys == set c | c in cs :: c.name by {
        assert forall c | c in cs :: c in init || c == last;
        assert forall c | c in init :: c in cs;
      }
      forall i | 0 <= i < |cs| - 1 && LastNamed(cs, i)
        ensures LastNamed(init, i) && cs[i] == init[i] && cs[i].name != last.name
      {
      }
      r
  }

  /**
   * `after` is `before` with the nodes `ids` added, all directly under `parent`, whose children
   * list grew by `order`; nothing else changed.
   */
  predicate Spread(before: Nodes, after: Nodes, parent: Ref, ids: set<Ref>, order: seq<Ref>)
  {
    && parent in before && parent in after
    && after.Keys == before.Keys + ids
    && (forall k | k in ids :: after[k].instance.parent == Some(parent))
    && (forall k | k in before && k != parent :: after[k] == before[k])
    && after[parent] == before[parent].(instance := before[parent].instance.(children := before[parent].instance.children + order))
  }

  lemma SpreadStep(a: Nodes, b: Nodes, c: Nodes, parent: Ref, ids1: set<Ref>, o1: seq<Ref>, ids2: set<Ref>, o2: seq<Ref>)
    requires Spread(a, b, parent, ids1, o1) && Spread(b, c, parent, ids2, o2) && parent !in ids1
    ensures Spread(a, c, parent, ids1 + ids2, o1 + o2)
  {
  }

  lemma ChildNodesStep(cs: seq<Snap>, i: nat, f: Filter, env: Env)
    requires i < |cs|
    ensures ChildNodes(cs[..i + 1], f, env) == ChildNodes(cs[..i], f, env)[cs[i].name := NodeFor(Validated(cs[i], f, env), f, env)]
  {
    assert cs[..i + 1][..i] == cs[..i];
  }

  /**
   * `add_project_instances`: inserts `s` and its whole subtree into the tree, every one of them
   * directly under `parentId`, and returns the project node built for `s`.
   */
  method AddProjectInstances(parentId: Ref, pp: Path, np: NodePath, s: Snap, pm: NodeMeta, tree: Tree, env: Env)
    returns (node: ProjectNode)
    requires parentId in tree.nodes
    requires Distinct(s) && RefSet(s) !! tree.nodes.Keys
    modifies tree
    decreases s.children, 1
    ensures node == NodeFor(s, pm.context.filter, env)
    ensures Spread(old(tree.nodes), tree.nodes, parentId, RefSet(s), Preorder(s))
    ensures tree.nodes[s.id].instance == Instance(s.name, s.className, s.properties, Some(parentId), [])
    ensures tree.nodes[s.id].meta ==
              s.meta.(context := pm.context, source := ProjectSource(s.name, pp, BareNode(s, env), np + [s.name]))
  {
    node := BareNode(s, env);
    var path := Join(np, s.name);
    var meta := s.meta.(context := pm.context, source := ProjectSource(s.name, pp, node, path));
    ghost var before := tree.nodes;
    tree.Insert(s.id, s.name, s.className, s.properties, meta, parentId);
    ghost var inserted := tree.nodes;
    assert Spread(before, inserted, parentId, {s.id}, [s.id]);
    var kids := AddProjectChildren(parentId, pp, path, s, pm, tree, env, before.Keys);
    SpreadStep(before, inserted, tree.nodes, parentId, {s.id}, [s.id], RefsOf(s.children), PreorderOf(s.children));
    node := node.(tree := kids);
  }

  /** The loop over the children of a project-backed node just inserted: each nests in its node. */
  method AddProjectChildren(parentId: Ref, pp: Path, path: NodePath, s: Snap, pm: NodeMeta, tree: Tree, env: Env, ghost used: set<Ref>)
    returns (kids: map<string, ProjectNode>)
    requires parentId in used && s.id in tree.nodes && tree.nodes.Keys == used + {s.id}
    requires Distinct(s) && RefSet(s) !! used
    modifies tree
    decreases s.children, 0
    ensures kids == ChildNodes(s.children, pm.context.filter, env)
    ensures Spread(old(tree.nodes), tree.nodes, parentId, RefsOf(s.children), PreorderOf(s.children))
    ensures tree.nodes[s.id] == old(tree.nodes[s.id])
  {
    var f := pm.context.filter;
    kids := map[];
    ghost var inserted := tree.nodes;
    assert s.id != parentId by {
      assert s.id in RefSet(s);
    }
    var i := 0;
    while i < |s.children|
      invariant 0 <= i <= |s.children|
      invariant kids == ChildNodes(s.children[..i], f, env)
      invariant Spread(inserted, tree.nodes, parentId, RefsOf(s.children[..i]), PreorderOf(s.children[..i]))
      invariant tree.nodes[s.id] == inserted[s.id]
    {
      ChildFresh(s, i, used);
      RefsOfStep(s.children, i);
      RefsOfGrow(s.children, i);
      assert parentId !in RefsOf(s.children[..i]);
      ChildNodesStep(s.children, i, f, env);
      var child := Validated(s.children[i], f, env);
      ValidatedRefs(s.children[i], f, env);
      ghost var cur := tree.nodes;
      var built := AddProjectInstances(parentId, pp, path, child, pm, tree, env);
      SpreadStep(inserted, cur, tree.nodes, parentId, RefsOf(s.children[..i]), PreorderOf(s.children[..i]),
                 RefSet(child), Preorder(child));
      kids := kids[child.name := built];
      i := i + 1;
    }
    assert s.children[..i] == s.children;
  }

  /** The project root with `child` added, under `name`, to the node at `np`. */
  function WithChild(root: ProjectNode, np: NodePath, name: string, child: ProjectNode): (r: ProjectNode)
    requires Find(root, np).Some?
    ensures Find(r, np + [name]) == Some(child)
    ensures forall q | Apart(np, q) :: Find(r, q) == Find(root, q)
  {
    var n := Find(root, np).value;
    var r := Put(root, np, n.(tree := n.tree[name := child]));
    FindAppend(r, np, name);
    forall q | Apart(np, q)
      ensures Find(r, q) == Find(root, q)
    {
      PutKeepsApart(root, np, n.(tree := n.tree[name := child]), q);
    }
    r
  }

  /**
   * A child added into a project file sits under its name below the parent's node, with its
   * class, its serialized properties, `keep_unknowns` only when its meta asks for it, and one
   * node per child name.
   */
  lemma ProjectAdditionNode(root: ProjectNode, np: NodePath, s: Snap, f: Filter, env: Env)
    requires Find(root, np).Some?
    ensures var n := Find(WithChild(root, np, s.name, NodeFor(s, f, env)), np + [s.name]);
      && n.Some? && n.value.className == Some(s.className)
      && n.value.properties == env.serialize(s.className, s.properties)
      && (n.value.keepUnknowns == Some(true) <==> s.meta.keepUnknowns)
      && (n.value.keepUnknowns.None? <==> !s.meta.keepUnknowns)
      && n.value.tree.Keys == set c | c in s.children :: c.name
  {
  }

  /** The add is dropped: the parent is gone, or the filter rejects the new name or class. */
  predicate Skipped(a: Added, nodes: Nodes, env: Env)
  {
    a.parent !in nodes ||
    var f := nodes[a.parent].meta.context.filter;
    NameFiltered(env, f, a.snapshot.name) || ClassFiltered(env, f, a.snapshot.className)
  }

  /** `path_clean::clean(path.with_file_name(custom))`: a node's `$path`, relative to its project file. */
  function Redirect(projectPath: Path, custom: Path): Path
  {
    Pop(projectPath) + custom
  }

  /** Setting the parent's meta afterwards keeps the growth intact. */
  lemma GrownRemeta(before: Nodes, after: Nodes, parent: Ref, s: Snap, meta: NodeMeta)
    requires Grown(before, after, parent, s)
    ensures Grown(before, after[parent := after[parent].(meta := meta)], parent, s)
  {
  }

  /** `nodes` with the meta of `parent` set back to `pm`, to compare with the tree before the add. */
  function Remeta(nodes: Nodes, parent: Ref, pm: NodeMeta): (r: Nodes)
    requires parent in nodes
    ensures r.Keys == nodes.Keys && r[parent].meta == pm
    ensures forall k | k in nodes && k != parent :: r[k] == nodes[k]
  {
    nodes[parent := nodes[parent].(meta := pm)]
  }

  /**
   * What `add_non_project_instances` at `path` did to the tree and the file system, with `ok`
   * for success, once the parent's meta is then set to `meta`.
   */
  predicate NonProjectAt(parent: Ref, pm: NodeMeta, path: Path, s: Snap, env: Env,
                         before: Nodes, after: Nodes, vb: V.Entries, va: V.Entries, ok: bool, meta: NodeMeta)
  {
    && parent in before && Distinct(s) && RefSet(s) !! before.Keys
    && Grown(before, after, parent, s)
    && after[parent].meta == meta
    && var a := AddingNonProject(parent, path, s, pm, State(before, vb), env);
       && (ok <==> a.0.Ok?)
       && State(Remeta(after, parent, pm), va) == a.1
  }

  /** Setting the parent's meta after `add_non_project_instances` keeps what that call did. */
  lemma NonProjectAtFrom(parent: Ref, pm: NodeMeta, path: Path, s: Snap, env: Env,
                         before: Nodes, added: Nodes, vb: V.Entries, va: V.Entries, r: Result<Source>, meta: NodeMeta)
    requires parent in before && Distinct(s) && RefSet(s) !! before.Keys
    requires Grown(before, added, parent, s) && added[parent].meta == pm
    requires (r, State(added, va)) == AddingNonProject(parent, path, s, pm, State(before, vb), env)
    ensures NonProjectAt(parent, pm, path, s, env, before, Remeta(added, parent, meta), vb, va, r.Ok?, meta)
  {
    assert Remeta(Remeta(added, parent, meta), parent, pm) == added;
    GrownRemeta(before, added, parent, s, meta);
  }

  /**
   * What adding `s` below a parent whose source is `path` did to the tree and the file system:
   * `add_non_project_instances` at `path`, then the parent's source replaced by the one it
   * returned.
   */
  predicate PathAdded(parent: Ref, pm: NodeMeta, path: Path, s: Snap, env: Env,
                      before: Nodes, after: Nodes, vb: V.Entries, va: V.Entries, r: Result<()>)
  {
    NonProjectAt(parent, pm, path, s, env, before, after, vb, va, r.Ok?,
                 if r.Ok? then pm.(source := ParentSourceAfter(path, pm, vb, env)) else pm)
  }

  /** The `Path` arm of `apply_addition`. */
  method AddToPath(parent: Ref, pm: NodeMeta, path: Path, s: Snap, tree: Tree, vfs: V.Vfs, env: Env)
    returns (r: Result<()>)
    requires parent in tree.nodes && tree.nodes[parent].meta == pm
    requires Distinct(s) && RefSet(s) !! tree.nodes.Keys
    modifies tree, vfs
    ensures PathAdded(parent, pm, path, s, env, old(tree.nodes), tree.nodes, old(vfs.entries), vfs.entries, r)
  {
    ghost var before := tree.nodes;
    ghost var vb := vfs.entries;
    var ps := AddNonProject(parent, path, s, pm, tree, vfs, env);
    ghost var meta := if ps.Ok? then pm.(source := ps.value) else pm;
    NonProjectAtFrom(parent, pm, path, s, env, before, tree.nodes, vb, vfs.entries, ps, meta);
    if ps.Err? {
      assert Remeta(tree.nodes, parent, pm) == tree.nodes;
      return Err(ps.error);
    }
    tree.UpdateMeta(parent, pm.(source := ps.value));
    r := Ok(());
  }

  /** The source a project node with a `$path` takes: its own, with the relevant paths `folder` returned. */
  function RedirectSource(kind: SourceKind, folder: Source): (r: Source)
    requires kind.ProjectKind?
    ensures r.kind == kind && r.relevant == folder.relevant
  {
    WithRelevants(ProjectSource(kind.name, kind.projectPath, kind.node, kind.nodePath), folder.relevant)
  }

  /**
   * What adding `s` below a project node with a `$path` did to the tree and the file system:
   * `add_non_project_instances` at that path, then the parent keeps its project source and
   * takes the relevant paths that call returned.
   */
  predicate RedirectAdded(parent: Ref, pm: NodeMeta, s: Snap, env: Env,
                          before: Nodes, after: Nodes, vb: V.Entries, va: V.Entries, r: Result<()>)
    requires pm.source.kind.ProjectKind? && pm.source.kind.node.path.Some?
  {
    var kind := pm.source.kind;
    var path := Redirect(kind.projectPath, kind.node.path.value);
    NonProjectAt(parent, pm, path, s, env, before, after, vb, va, r.Ok?,
                 if r.Ok? then pm.(source := RedirectSource(kind, ParentSourceAfter(path, pm, vb, env))) else pm)
  }

  /** The `Project` arm of `apply_addition` for a node with a `$path`: the instances go to that path. */
  method AddToRedirect(parent: Ref, pm: NodeMeta, s: Snap, tree: Tree, vfs: V.Vfs, env: Env)
    returns (r: Result<()>)
    requires pm.source.kind.ProjectKind? && pm.source.kind.node.path.Some?
    requires parent in tree.nodes && tree.nodes[parent].meta == pm
    requires Distinct(s) && RefSet(s) !! tree.nodes.Keys
    modifies tree, vfs
    ensures RedirectAdded(parent, pm, s, env, old(tree.nodes), tree.nodes, old(vfs.entries), vfs.entries, r)
  {
    var kind := pm.source.kind;
    var path := Redirect(kind.projectPath, kind.node.path.value);
    ghost var before := tree.nodes;
    ghost var vb := vfs.entries;
    var ps := AddNonProject(parent, path, s, pm, tree, vfs, env);
    ghost var meta := if ps.Ok? then pm.(source := RedirectSource(kind, ps.value)) else pm;
    NonProjectAtFrom(parent, pm, path, s, env, before, tree.nodes, vb, vfs.entries, ps, meta);
    if ps.Err? {
      assert Remeta(tree.nodes, parent, pm) == tree.nodes;
      return Err(ps.error);
    }
    tree.UpdateMeta(parent, pm.(source := RedirectSource(kind, ps.value)));
    r := Ok(());
  }

  /** What adding `s` into the project file of its parent did to the tree and the project files. */
  predicate ProjectAdded(parent: Ref, pm: NodeMeta, s: Snap, env: Env, before: Nodes, after: Nodes,
                         fb: map<Path, ProjectNode>, fa: map<Path, ProjectNode>, saved: bool, r: Result<()>)
    requires pm.source.kind.ProjectKind?
  {
    var pp := pm.source.kind.projectPath;
    var np := pm.source.kind.nodePath;
    // it fails exactly when the project file or the parent's node in it is missing
    && (r.Ok? <==> pp in fb && Find(fb[pp], np).Some?)
    && (r.Ok? ==>
          && saved
          && fa == fb[pp := WithChild(fb[pp], np, s.name, NodeFor(s, pm.context.filter, env))]
          && Spread(before, after, parent, RefSet(s), Preorder(s)))
    && (r.Err? ==> !saved && fa == fb && after == before)
  }

  /** The `Project` arm of `apply_addition` for a node without a `$path`: the instances go into the project file. */
  method AddToProject(parent: Ref, pm: NodeMeta, s: Snap, tree: Tree, projects: Projects, env: Env)
    returns (r: Result<()>)
    requires pm.source.kind.ProjectKind?
    requires parent in tree.nodes
    requires Distinct(s) && RefSet(s) !! tree.nodes.Keys
    modifies tree, projects
    ensures projects.loads == old(projects.loads) + 1
    ensures ProjectAdded(parent, pm, s, env, old(tree.nodes), tree.nodes, old(projects.files), projects.files,
                         projects.saves == old(projects.saves) + 1, r)
    ensures r.Err? ==> projects.saves == old(projects.saves)
  {
    var kind := pm.source.kind;
    var loaded := projects.Load(kind.projectPath);
    if loaded.Err? {
      return Err(loaded.error);
    }
    var found := Find(loaded.value, kind.nodePath);
    if found.None? {
      return Err("failed to find project node");
    }
    var built := AddProjectInstances(parent, kind.projectPath, kind.nodePath, s, pm, tree, env);
    projects.Save(kind.projectPath, WithChild(loaded.value, kind.nodePath, s.name, built));
    r := Ok(());
  }

  /** `apply_addition`. */
  method ApplyAddition(a: Added, tree: Tree, vfs: V.Vfs, projects: Projects, env: Env) returns (r: Result<()>)
    requires Distinct(a.snapshot) && RefSet(a.snapshot) !! tree.nodes.Keys
    requires !Skipped(a, tree.nodes, env) ==> !tree.nodes[a.parent].meta.source.kind.NoSource?
    modifies tree, vfs, projects
    // a missing parent or a filtered name or class: nothing at all changes
    ensures Skipped(a, old(tree.nodes), env) ==> r == Ok(()) && unchanged(tree, vfs, projects)
    ensures !Skipped(a, old(tree.nodes), env) ==>
      var pm := old(tree.nodes[a.parent].meta);
      var s := Validated(a.snapshot, pm.context.filter, env);
      match pm.source.kind
      case PathKind(path) =>
        && unchanged(projects)
        && PathAdded(a.parent, pm, path, s, env, old(tree.nodes), tree.nodes, old(vfs.entries), vfs.entries, r)
      case ProjectKind(_, _, node, _) =>
        if node.path.Some? then
          unchanged(projects) &&
          RedirectAdded(a.parent, pm, s, env, old(tree.nodes), tree.nodes, old(vfs.entries), vfs.entries, r)
        else
          // the project file is loaded once, and saved once when the add succeeds
          && vfs.entries == old(vfs.entries)
          && projects.loads == old(projects.loads) + 1
          && ProjectAdded(a.parent, pm, s, env, old(tree.nodes), tree.nodes, old(projects.files), projects.files,
                          projects.saves == old(projects.saves) + 1, r)
          && (r.Err? ==> projects.saves == old(projects.saves))
      case NoSource => true
  {
    if a.parent !in tree.nodes {
      return Ok(());
    }
    var pm := tree.nodes[a.parent].meta;
    var f := pm.context.filter;
    if NameFiltered(env, f, a.snapshot.name) || ClassFiltered(env, f, a.snapshot.className) {
      return Ok(());
    }
    var s := Validated(a.snapshot, f, env);
    ValidatedRefs(a.snapshot, f, env);
    var kind := pm.source.kind;
    if kind.PathKind? {
      r := AddToPath(a.parent, pm, kind.path, s, tree, vfs, env);
    } else if kind.node.path.Some? {
      r := AddToRedirect(a.parent, pm, s, tree, vfs, env);
    } else {
      r := AddToProject(a.parent, pm, s, tree, projects, env);
    }
  }
}
