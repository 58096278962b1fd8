/**
 * `apply_update`: writes changed properties and a changed name of an existing instance back to
 * the file system (or to its project file) and to the tree.
 */
module Update {
  import opened Wrappers
  import opened Paths
  import opened Dom
  import M = Meta
  import opened Project
  import opened Sources
  import V = Vfs
  import opened Tree
  import opened Middleware
  import opened Addition

  /** `locate_instance_data`: the data file already listed, or else where the first InstanceData rule puts one. */
  function LocateInstanceData(env: Env, name: string, path: Path, meta: NodeMeta, isDir: bool): (r: Option<Path>)
    ensures Get(meta.source, DataEntry).Some? ==> r == Get(meta.source, DataEntry)
    ensures Get(meta.source, DataEntry).None? ==>
              (r.None? <==> forall rule | rule in meta.context.rules && rule.fileType == M.InstanceData ::
                              env.locate(rule, path, name, isDir).None?)
    ensures Get(meta.source, DataEntry).None? && r.Some? ==>
              exists i :: LocatedFirst(env, meta.context.rules, M.InstanceData, path, name, isDir, r.value, i)
  {
    var existing := Get(meta.source, DataEntry);
    if existing.Some? then existing
    else
      var rules := RulesOfType(meta.context.rules, M.InstanceData);
      var r := Locate(env, rules, path, name, isDir);
      assert forall rule | rule in rules :: exists i | 0 <= i < |rules| :: rules[i] == rule;
      LocateOfTypeFirst(env, meta.context.rules, M.InstanceData, path, name, isDir);
      r
  }

  /** A path is a directory in `m`. */
  predicate IsDirIn(m: V.Entries, p: Path)
  {
    p in m && m[p].Dir?
  }

  /**
   * Properties `ps` written for `inst` through its class's middleware of kind `ft`: the file
   * listed in the source (or else the located one, which the source then lists) takes what the
   * middleware encodes, and the data file what is left. The node's new meta and file system.
   */
  function MiddlewareWritten(ft: M.FileType, path: Path, ps: Properties, inst: Instance, meta: NodeMeta, m: V.Entries, env: Env)
    : (r: (NodeMeta, V.Entries))
    ensures r.0 == meta.(source := r.0.source) && r.0.source.kind == meta.source.kind
  {
    match Get(meta.source, FileEntry)
    case Some(fp) => FileWritten(ft, path, ps, inst, meta, fp, m, env)
    case None =>
      match FilePathOf(env, meta.context.rules, ft, path, inst.name, IsDirIn(m, path))
      case None => (meta, m)
      case Some(fp) => FileWritten(ft, path, ps, inst, meta.(source := AddFile(meta.source, fp)), fp, m, env)
  }

  /** The middleware's file at `fp` written, then the data file with what the file cannot hold. */
  function FileWritten(ft: M.FileType, path: Path, ps: Properties, inst: Instance, meta: NodeMeta, fp: Path, m: V.Entries, env: Env)
    : (r: (NodeMeta, V.Entries))
    ensures r.0 == meta.(source := r.0.source) && r.0.source.kind == meta.source.kind
  {
    var written := m[fp := V.File(Native(env, ft, ps))];
    var rest := Leftover(env, ft, ps);
    var dp := LocateInstanceData(env, inst.name, path, meta, IsDirIn(written, path));
    if dp.None? then (meta, written)
    else if env.keepsData(true, inst.className, rest) then
      (meta.(source := SetData(meta.source, Some(dp.value))), written[dp.value := V.File(rest)])
    else
      (meta.(source := SetData(meta.source, None)), written)
  }

  /** Properties `ps` of an instance without a middleware, written into its data file alone. */
  function DataWritten(path: Path, ps: Properties, inst: Instance, meta: NodeMeta, m: V.Entries, env: Env)
    : (r: (NodeMeta, V.Entries))
    ensures r.0 == meta.(source := r.0.source) && r.0.source.kind == meta.source.kind
  {
    var dp := LocateInstanceData(env, inst.name, path, meta, IsDirIn(m, path));
    if dp.None? then (meta, m)
    else if env.keepsData(false, inst.className, ps) then
      (meta.(source := SetData(meta.source, Some(dp.value))), m[dp.value := V.File(ps)])
    else
      (meta.(source := SetData(meta.source, None)), m)
  }

  /**
   * The outcome of `update_non_project_properties`: the node's new meta, the new tree and the new
   * file system. A filtered path changes nothing; otherwise the properties are validated, written
   * through the class's middleware (and its data file) or into a data file alone, and set on
   * the instance.
   */
  function PropertiesWritten(id: Ref, path: Path, props: Properties, meta: NodeMeta, nodes: Nodes, m: V.Entries, env: Env)
    : (r: (NodeMeta, Nodes, V.Entries))
    requires id in nodes
    ensures r.1.Keys == nodes.Keys
    ensures r.0 == meta.(source := r.0.source) && r.0.source.kind == meta.source.kind
    ensures PathFiltered(env, meta.context.filter, path) ==> r == (meta, nodes, m)
    ensures !PathFiltered(env, meta.context.filter, path) ==>
              r.1 == nodes[id := nodes[id].(instance := nodes[id].instance.(properties := env.validate(props, meta.context.filter)))]
  {
    var f := meta.context.filter;
    if PathFiltered(env, f, path) then (meta, nodes, m)
    else
      var ps := env.validate(props, f);
      var inst := nodes[id].instance;
      var after := nodes[id := nodes[id].(instance := inst.(properties := ps))];
      var w := match env.middleware(inst.className)
               case Some(ft) => MiddlewareWritten(ft, path, ps, inst, meta, m, env)
               case None => DataWritten(path, ps, inst, meta, m, env);
      (w.0, after, w.1)
  }

  /** Nothing is removed from `before`, and whatever is new or changed in `after` is a file. */
  predicate OnlyFilesWritten(before: V.Entries, after: V.Entries)
  {
    && before.Keys <= after.Keys
    && forall p | p in after && (p !in before || after[p] != before[p]) :: after[p].File?
  }

  /** Writing properties only creates or rewrites files: no entry is removed, no directory made. */
  lemma PropertiesWriteOnlyFiles(id: Ref, path: Path, props: Properties, meta: NodeMeta, nodes: Nodes, m: V.Entries, env: Env)
    requires id in nodes
    ensures OnlyFilesWritten(m, PropertiesWritten(id, path, props, meta, nodes, m, env).2)
  {
    var f := meta.context.filter;
    if !PathFiltered(env, f, path) {
      var ps := env.validate(props, f);
      var inst := nodes[id].instance;
      match env.middleware(inst.className)
      case Some(ft) => MiddlewareWritesFiles(ft, path, ps, inst, meta, m, env);
      case None => DataWritesFiles(path, ps, inst, meta, m, env);
    }
  }

  lemma MiddlewareWritesFiles(ft: M.FileType, path: Path, ps: Properties, inst: Instance, meta: NodeMeta, m: V.Entries, env: Env)
    ensures OnlyFilesWritten(m, MiddlewareWritten(ft, path, ps, inst, meta, m, env).1)
    // the file the source lists is (re)written
    ensures Get(meta.source, FileEntry).Some? ==>
              var fp := Get(meta.source, FileEntry).value;
              fp in MiddlewareWritten(ft, path, ps, inst, meta, m, env).1 && MiddlewareWritten(ft, path, ps, inst, meta, m, env).1[fp].File?
    // no file listed and none located: nothing is written
    ensures Get(meta.source, FileEntry).None? && FilePathOf(env, meta.context.rules, ft, path, inst.name, IsDirIn(m, path)).None? ==>
              MiddlewareWritten(ft, path, ps, inst, meta, m, env) == (meta, m)
  {
    match Get(meta.source, FileEntry)
    case Some(fp) => FileWritesFiles(ft, path, ps, inst, meta, fp, m, env);
    case None =>
      match FilePathOf(env, meta.context.rules, ft, path, inst.name, IsDirIn(m, path))
      case None =>
      case Some(fp) => FileWritesFiles(ft, path, ps, inst, meta.(source := AddFile(meta.source, fp)), fp, m, env);
  }

  lemma FileWritesFiles(ft: M.FileType, path: Path, ps: Properties, inst: Instance, meta: NodeMeta, fp: Path, m: V.Entries, env: Env)
    ensures OnlyFilesWritten(m, FileWritten(ft, path, ps, inst, meta, fp, m, env).1)
    ensures fp in FileWritten(ft, path, ps, inst, meta, fp, m, env).1 && FileWritten(ft, path, ps, inst, meta, fp, m, env).1[fp].File?
  {
  }

  lemma DataWritesFiles(path: Path, ps: Properties, inst: Instance, meta: NodeMeta, m: V.Entries, env: Env)
    ensures OnlyFilesWritten(m, DataWritten(path, ps, inst, meta, m, env).1)
    // no data file located: nothing is written
    ensures LocateInstanceData(env, inst.name, path, meta, IsDirIn(m, path)).None? ==>
              DataWritten(path, ps, inst, meta, m, env) == (meta, m)
  {
  }

  /** `update_non_project_properties`. */
  method UpdateProperties(id: Ref, path: Path, props: Properties, meta: NodeMeta, tree: Tree, vfs: V.Vfs, env: Env)
    returns (m: NodeMeta)
    requires id in tree.nodes
    modifies tree, vfs
    ensures (m, tree.nodes, vfs.entries) == PropertiesWritten(id, path, props, meta, old(tree.nodes), old(vfs.entries), env)
  {
    var f := meta.context.filter;
    if PathFiltered(env, f, path) {
      return meta;
    }
    var ps := env.validate(props, f);
    var inst := tree.nodes[id].instance;
    var mw := env.middleware(inst.className);
    if mw.Some? {
      m := WriteThroughMiddleware(mw.value, path, ps, inst, meta, vfs, env);
    } else {
      m := WriteDataOnly(path, ps, inst, meta, vfs, env);
    }
    tree.SetProperties(id, ps);
  }

  /** The middleware branch of `update_non_project_properties`. */
  method WriteThroughMiddleware(ft: M.FileType, path: Path, ps: Properties, inst: Instance, meta: NodeMeta, vfs: V.Vfs, env: Env)
    returns (m: NodeMeta)
    modifies vfs
    ensures (m, vfs.entries) == MiddlewareWritten(ft, path, ps, inst, meta, old(vfs.entries), env)
  {
    var listed := Get(meta.source, FileEntry);
    if listed.Some? {
      m := WriteFileAndData(ft, path, ps, inst, meta, listed.value, vfs, env);
    } else {
      var fp := FilePathOf(env, meta.context.rules, ft, path, inst.name, vfs.IsDir(path));
      if fp.None? {
        return meta;
      }
      m := WriteFileAndData(ft, path, ps, inst, meta.(source := AddFile(meta.source, fp.value)), fp.value, vfs, env);
    }
  }

  /** Writes the middleware's file at `fp`, then the data file. */
  method WriteFileAndData(ft: M.FileType, path: Path, ps: Properties, inst: Instance, meta: NodeMeta, fp: Path, vfs: V.Vfs, env: Env)
    returns (m: NodeMeta)
    modifies vfs
    ensures (m, vfs.entries) == FileWritten(ft, path, ps, inst, meta, fp, old(vfs.entries), env)
  {
    m := meta;
    var rest := WriteFile(env, ft, ps, fp, vfs);
    var dp := LocateInstanceData(env, inst.name, path, m, vfs.IsDir(path));
    if dp.Some? {
      var kept := WriteData(env, true, inst.className, rest, dp.value, vfs);
      m := m.(source := SetData(m.source, kept));
    }
  }

  /** The branch of `update_non_project_properties` for a class without a middleware. */
  method WriteDataOnly(path: Path, ps: Properties, inst: Instance, meta: NodeMeta, vfs: V.Vfs, env: Env)
    returns (m: NodeMeta)
    modifies vfs
    ensures (m, vfs.entries) == DataWritten(path, ps, inst, meta, old(vfs.entries), env)
  {
    m := meta;
    var dp := LocateInstanceData(env, inst.name, path, m, vfs.IsDir(path));
    if dp.Some? {
      var kept := WriteData(env, false, inst.className, ps, dp.value, vfs);
      m := m.(source := SetData(m.source, kept));
    }
  }

  /** Where an entry goes when the instance is renamed: every occurrence of the old name in its file name is replaced. */
  function Target(p: Path, oldName: string, newName: string): (r: Path)
    ensures Pop(r) == Pop(p) && FileName(r) == Replace(FileName(p), oldName, newName)
  {
    WithFileName(p, Replace(FileName(p), oldName, newName))
  }

  /** The cascade leaves an entry alone: it is not a file or data entry, or both its old and new path are filtered. */
  predicate Stays(e: SourceEntry, oldName: string, newName: string, f: Filter, env: Env)
  {
    !(e.File? || e.Data?) ||
    (PathFiltered(env, f, e.path) && PathFiltered(env, f, Target(e.path, oldName, newName)))
  }

  /** An entry after the cascade. */
  function RenamedEntry(e: SourceEntry, oldName: string, newName: string, f: Filter, env: Env): (r: SourceEntry)
    ensures IsKind(r, FileEntry) == IsKind(e, FileEntry) && IsKind(r, DataEntry) == IsKind(e, DataEntry)
    ensures Stays(e, oldName, newName, f, env) ==> r == e
    ensures !Stays(e, oldName, newName, f, env) ==>
              Pop(r.path) == Pop(e.path) && FileName(r.path) == Replace(FileName(e.path), oldName, newName)
  {
    if Stays(e, oldName, newName, f, env) then e else e.(path := Target(e.path, oldName, newName))
  }

  /**
   * The cascade over `rel` on the file system `m`, entry by entry in order: whether it finished,
   * and the file system it left. A rename of a path that is not there stops it.
   */
  function Cascade(m: V.Entries, rel: seq<SourceEntry>, oldName: string, newName: string, f: Filter, env: Env)
    : (bool, V.Entries)
    decreases |rel|
  {
    if rel == [] then (true, m)
    else if Stays(rel[0], oldName, newName, f, env) then Cascade(m, rel[1..], oldName, newName, f, env)
    else if rel[0].path !in m then (false, m)
    else Cascade(V.Moved(m, rel[0].path, Target(rel[0].path, oldName, newName)), rel[1..], oldName, newName, f, env)
  }

  /** The entries after a cascade that finished. */
  function RenamedEntries(rel: seq<SourceEntry>, oldName: string, newName: string, f: Filter, env: Env)
    : (r: seq<SourceEntry>)
    ensures |r| == |rel|
    ensures forall i | 0 <= i < |rel| :: r[i] == RenamedEntry(rel[i], oldName, newName, f, env)
  {
    seq(|rel|, i requires 0 <= i < |rel| => RenamedEntry(rel[i], oldName, newName, f, env))
  }

  /** Renaming entry `i` extends the renamed prefix by one. */
  lemma RenamedEntriesStep(rel: seq<SourceEntry>, i: nat, oldName: string, newName: string, f: Filter, env: Env)
    requires i < |rel|
    ensures (RenamedEntries(rel[..i], oldName, newName, f, env) + rel[i..])[i := RenamedEntry(rel[i], oldName, newName, f, env)]
         == RenamedEntries(rel[..i + 1], oldName, newName, f, env) + rel[i + 1..]
  {
  }

  /** One step of the cascade, taken at position `i`. */
  lemma CascadeAt(m: V.Entries, rel: seq<SourceEntry>, i: nat, oldName: string, newName: string, f: Filter, env: Env)
    requires i < |rel|
    ensures Cascade(m, rel[i..], oldName, newName, f, env) ==
      if Stays(rel[i], oldName, newName, f, env) then Cascade(m, rel[i + 1..], oldName, newName, f, env)
      else if rel[i].path !in m then (false, m)
      else Cascade(V.Moved(m, rel[i].path, Target(rel[i].path, oldName, newName)), rel[i + 1..], oldName, newName, f, env)
  {
    assert rel[i..][0] == rel[i] && rel[i..][1..] == rel[i + 1..];
  }

  /** One pass of the `relevant_mut` loop: renames the entry's path unless it stays. */
  method RenameEntry(e: SourceEntry, oldName: string, newName: string, f: Filter, vfs: V.Vfs, env: Env)
    returns (r: Result<()>)
    modifies vfs
    ensures Stays(e, oldName, newName, f, env) ==> r.Ok? && vfs.entries == old(vfs.entries)
    ensures !Stays(e, oldName, newName, f, env) ==>
      && (r.Ok? <==> e.path in old(vfs.entries))
      && vfs.entries == (if r.Ok? then V.Moved(old(vfs.entries), e.path, Target(e.path, oldName, newName)) else old(vfs.entries))
  {
    if Stays(e, oldName, newName, f, env) {
      return Ok(());
    }
    r := vfs.Rename(e.path, Target(e.path, oldName, newName));
  }

  /** The `relevant_mut` loop of `apply_update`: renames each file and data entry, in order. */
  method RenameEntries(rel: seq<SourceEntry>, oldName: string, newName: string, f: Filter, vfs: V.Vfs, env: Env)
    returns (r: Result<seq<SourceEntry>>)
    modifies vfs
    ensures (r.Ok?, vfs.entries) == Cascade(old(vfs.entries), rel, oldName, newName, f, env)
    ensures r.Ok? ==> r.value == RenamedEntries(rel, oldName, newName, f, env)
  {
    var out := rel;
    var i := 0;
    while i < |rel|
      invariant 0 <= i <= |rel| && |out| == |rel|
      invariant Cascade(vfs.entries, rel[i..], oldName, newName, f, env) == Cascade(old(vfs.entries), rel, oldName, newName, f, env)
      invariant out == RenamedEntries(rel[..i], oldName, newName, f, env) + rel[i..]
    {
      var e := rel[i];
      CascadeAt(vfs.entries, rel, i, oldName, newName, f, env);
      var moved := RenameEntry(e, oldName, newName, f, vfs, env);
      if moved.Err? {
        return Err(moved.error);
      }
      RenamedEntriesStep(rel, i, oldName, newName, f, env);
      out := out[i := RenamedEntry(e, oldName, newName, f, env)];
      i := i + 1;
    }
    assert rel[i..] == [] && rel[..i] == rel;
    r := Ok(out);
  }

  /**
   * The rename step of the `Path` arm, on a source whose kind already names the new path:
   * whether it finished, the new source and the new file system. A folder source renames the
   * folder alone (to the new name itself); any other source renames its file and data entries.
   */
  function SourceRenamed(src: Source, oldName: string, newName: string, m: V.Entries, f: Filter, env: Env)
    : (r: (bool, Source, V.Entries))
    ensures r.1.kind == src.kind && |r.1.relevant| == |src.relevant|
    // a folder rename does not touch the file and data entries inside it
    ensures FirstOf(src.relevant, FolderEntry).Some? ==>
              forall i | 0 <= i < |src.relevant| && i != FirstOf(src.relevant, FolderEntry).value ::
                r.1.relevant[i] == src.relevant[i]
    ensures FirstOf(src.relevant, FolderEntry).Some? && r.0 && r.2 != m ==>
              var j := FirstOf(src.relevant, FolderEntry).value;
              r.1.relevant[j] == Folder(WithFileName(src.relevant[j].path, newName))
  {
    match FirstOf(src.relevant, FolderEntry)
    case Some(j) =>
      var p := src.relevant[j].path;
      var np := WithFileName(p, newName);
      if PathFiltered(env, f, p) && PathFiltered(env, f, np) then (true, src, m)
      else if p !in m then (false, src, m)
      else (true, src.(relevant := src.relevant[j := Folder(np)]), V.Moved(m, p, np))
    case None =>
      var c := Cascade(m, src.relevant, oldName, newName, f, env);
      (c.0, if c.0 then src.(relevant := RenamedEntries(src.relevant, oldName, newName, f, env)) else src, c.1)
  }

  /** Renaming an instance to its own name moves nothing, and fails only on a listed file that is missing. */
  lemma {:induction false} CascadeSameName(m: V.Entries, rel: seq<SourceEntry>, name: string, f: Filter, env: Env)
    requires forall i | 0 <= i < |rel| :: rel[i].path != []
    ensures Cascade(m, rel, name, name, f, env).1 == m
    ensures Cascade(m, rel, name, name, f, env).0 <==>
              forall i | 0 <= i < |rel| && !Stays(rel[i], name, name, f, env) :: rel[i].path in m
    decreases |rel|
  {
    if rel != [] {
      CascadeSameName(m, rel[1..], name, f, env);
      assert forall i | 1 <= i < |rel| :: rel[i] == rel[1..][i - 1];
      if !Stays(rel[0], name, name, f, env) && rel[0].path in m {
        var p := rel[0].path;
        ReplaceIdentity(FileName(p), name);
        assert Target(p, name, name) == p by {
          assert Pop(p) + [FileName(p)] == p;
        }
        MovedSelf(m, p);
      }
    }
  }

  /** Renaming a path onto itself leaves the file system as it was. */
  lemma MovedSelf(m: V.Entries, p: Path)
    ensures V.Moved(m, p, p) == m
  {
    var r := V.Moved(m, p, p);
    forall q | q in m && Under(p, q)
      ensures q in r && r[q] == m[q]
    {
      V.MovedBelow(m, p, p, q);
      assert V.Rebase(q, p, p) == q by {
        assert q == p + q[|p|..];
      }
    }
    forall q | q in r
      ensures q in m
    {
      if Under(p, q) {
        V.MovedFrom(m, p, p, q);
        assert q == p + q[|p|..];
      }
    }
  }

  /** The properties step of an update: `props` written at `path`, or nothing when none came. */
  function PropertiesStep(id: Ref, path: Path, props: Option<Properties>, meta: NodeMeta, nodes: Nodes, m: V.Entries, env: Env)
    : (r: (NodeMeta, Nodes, V.Entries))
    requires id in nodes
    ensures r.1.Keys == nodes.Keys && r.1[id].instance.name == nodes[id].instance.name
    ensures r.0 == meta.(source := r.0.source) && r.0.source.kind == meta.source.kind
  {
    if props.Some? then PropertiesWritten(id, path, props.value, meta, nodes, m, env) else (meta, nodes, m)
  }

  /** The path a renamed path-backed instance moves to. */
  function NewPath(path: Path, oldName: string, newName: string): Path
  {
    Target(path, oldName, newName)
  }

  /**
   * What the `Path` arm of `apply_update` did. The properties are written first; a bad new name
   * or a taken new path then ends the update without saving the node's meta; otherwise the
   * rename step runs, the instance takes the new name and its meta is saved.
   */
  predicate PathUpdated(u: Updated, meta: NodeMeta, path: Path, before: Nodes, after: Nodes,
                        vb: V.Entries, va: V.Entries, env: Env, r: Result<()>)
    requires u.id in before
  {
    var w := PropertiesStep(u.id, path, u.properties, meta, before, vb, env);
    var oldName := before[u.id].instance.name;
    match u.name
    case None => r == Ok(()) && va == w.2 && after == w.1[u.id := w.1[u.id].(meta := w.0)]
    case Some(name) =>
      var newPath := NewPath(path, oldName, name);
      if !env.verifyName(name) || newPath in w.2 then r == Ok(()) && va == w.2 && after == w.1
      else
        var rn := SourceRenamed(w.0.source.(kind := PathKind(newPath)), oldName, name, w.2, meta.context.filter, env);
        && va == rn.2
        && (r.Ok? <==> rn.0)
        && (r.Ok? ==> after == w.1[u.id := w.1[u.id].(instance := w.1[u.id].instance.(name := name), meta := w.0.(source := rn.1))])
        && (r.Err? ==> after == w.1)
  }

  /** The `Path` arm of `apply_update`. */
  method UpdateAtPath(u: Updated, meta: NodeMeta, path: Path, tree: Tree, vfs: V.Vfs, env: Env) returns (r: Result<()>)
    requires u.id in tree.nodes
    modifies tree, vfs
    ensures PathUpdated(u, meta, path, old(tree.nodes), tree.nodes, old(vfs.entries), vfs.entries, env, r)
  {
    ghost var w := PropertiesStep(u.id, path, u.properties, meta, tree.nodes, vfs.entries, env);
    var m := meta;
    var oldName := tree.nodes[u.id].instance.name;
    if u.properties.Some? {
      m := UpdateProperties(u.id, path, u.properties.value, m, tree, vfs, env);
    }
    assert (m, tree.nodes, vfs.entries) == w;
    if u.name.None? {
      tree.UpdateMeta(u.id, m);
      return Ok(());
    }
    r := RenameAtPath(u.id, oldName, u.name.value, path, m, tree, vfs, env);
  }

  /** The name step of the `Path` arm, after the properties step left the meta `m`. */
  method RenameAtPath(id: Ref, oldName: string, name: string, path: Path, m: NodeMeta, tree: Tree, vfs: V.Vfs, env: Env)
    returns (r: Result<()>)
    requires id in tree.nodes
    modifies tree, vfs
    ensures var newPath := NewPath(path, oldName, name);
      if !env.verifyName(name) || newPath in old(vfs.entries) then
        r == Ok(()) && vfs.entries == old(vfs.entries) && tree.nodes == old(tree.nodes)
      else
        var rn := SourceRenamed(m.source.(kind := PathKind(newPath)), oldName, name, old(vfs.entries), m.context.filter, env);
        && vfs.entries == rn.2
        && (r.Ok? <==> rn.0)
        && (r.Ok? ==> tree.nodes == old(tree.nodes)[id := old(tree.nodes)[id].(instance := old(tree.nodes)[id].instance.(name := name), meta := m.(source := rn.1))])
        && (r.Err? ==> tree.nodes == old(tree.nodes))
  {
    if !env.verifyName(name) {
      return Ok(());
    }
    var newPath := NewPath(path, oldName, name);
    var source := m.source.(kind := PathKind(newPath));
    if vfs.Exists(newPath) {
      return Ok(());
    }
    var rn := RenameSource(source, oldName, name, m.context.filter, vfs, env);
    if rn.Err? {
      return Err(rn.error);
    }
    tree.SetName(id, name);
    tree.UpdateMeta(id, m.(source := rn.value));
    r := Ok(());
  }

  /** The rename step of the `Path` arm: the folder alone, or else the cascade over the entries. */
  method RenameSource(src: Source, oldName: string, newName: string, f: Filter, vfs: V.Vfs, env: Env)
    returns (r: Result<Source>)
    modifies vfs
    ensures var rn := SourceRenamed(src, oldName, newName, old(vfs.entries), f, env);
      && vfs.entries == rn.2 && (r.Ok? <==> rn.0) && (r.Ok? ==> r.value == rn.1)
  {
    var folder := FirstOf(src.relevant, FolderEntry);
    if folder.Some? {
      var p := src.relevant[folder.value].path;
      var np := WithFileName(p, newName);
      if PathFiltered(env, f, p) && PathFiltered(env, f, np) {
        return Ok(src);
      }
      var moved := vfs.Rename(p, np);
      if moved.Err? {
        return Err(moved.error);
      }
      return Ok(src.(relevant := src.relevant[folder.value := Folder(np)]));
    }
    var rel := RenameEntries(src.relevant, oldName, newName, f, vfs, env);
    if rel.Err? {
      return Err(rel.error);
    }
    r := Ok(src.(relevant := rel.value));
  }

  /** A `$path` node whose instance took new properties: its own property fields are emptied. */
  function Cleared(n: ProjectNode): (r: ProjectNode)
    ensures r.properties == map[] && r.attributes.None? && r.tags == [] && r.keepUnknowns.None?
    ensures r.className == n.className && r.path == n.path && r.tree == n.tree
  {
    n.(properties := map[], attributes := None, tags := [], keepUnknowns := None)
  }

  /** A project node that took the properties `ps`, serialized for its class (or, without one, its name). */
  function Serialized(n: ProjectNode, name: string, ps: Properties, env: Env): (r: ProjectNode)
    ensures r.properties == env.serialize(if n.className.Some? then n.className.value else name, ps)
    ensures r.tags == [] && r.keepUnknowns.None?
    ensures r.className == n.className && r.attributes == n.attributes && r.path == n.path && r.tree == n.tree
  {
    n.(properties := env.serialize(if n.className.Some? then n.className.value else name, ps), tags := [], keepUnknowns := None)
  }

  /** The node at `parent` has a child called `key`. */
  predicate Renamable(root: ProjectNode, parent: NodePath, key: string)
  {
    Find(root, parent).Some? && key in Find(root, parent).value.tree
  }

  /** The project after the child `oldKey` of the node at `parent` is moved to `newKey`. */
  function RenamedChild(root: ProjectNode, parent: NodePath, oldKey: string, newKey: string): (r: ProjectNode)
    requires Renamable(root, parent, oldKey)
    ensures Find(r, parent + [newKey]) == Some(Find(root, parent).value.tree[oldKey])
    ensures oldKey != newKey ==> Find(r, parent + [oldKey]).None?
    ensures forall q | Apart(parent, q) :: Find(r, q) == Find(root, q)
  {
    var n := Find(root, parent).value;
    var moved := n.(tree := (n.tree - {oldKey})[newKey := n.tree[oldKey]]);
    var r := Put(root, parent, moved);
    FindAppend(r, parent, newKey);
    FindAppend(r, parent, oldKey);
    forall q | Apart(parent, q)
      ensures Find(r, q) == Find(root, q)
    {
      PutKeepsApart(root, parent, moved, q);
    }
    r
  }

  /**
   * The properties step of the `Project` arm on the loaded project `root`: whether it went on,
   * the project, the node's meta, the tree and the file system after it. A node with a `$path`
   * writes the properties there and empties its own property fields; any other node stores them
   * serialized. Both fail when the node is missing from the project.
   */
  function ProjectPropsStep(u: Updated, meta: NodeMeta, root: ProjectNode, nodes: Nodes, m: V.Entries, env: Env)
    : (r: (bool, ProjectNode, NodeMeta, Nodes, V.Entries))
    requires meta.source.kind.ProjectKind? && u.id in nodes
    ensures r.3.Keys == nodes.Keys && r.3[u.id].instance.name == nodes[u.id].instance.name
    ensures r.2.source.kind == meta.source.kind && r.2.context == meta.context
    ensures !r.0 ==> r.1 == root
    ensures meta.source.kind.node.path.None? ==> r.4 == m && r.2 == meta
  {
    var k := meta.source.kind;
    var np := k.nodePath;
    if u.properties.None? then (true, root, meta, nodes, m)
    else if k.node.path.Some? then
      var w := PropertiesWritten(u.id, Redirect(k.projectPath, k.node.path.value), u.properties.value, meta, nodes, m, env);
      match Find(root, np)
      case None => (false, root, w.0, w.1, w.2)
      case Some(n) => (true, Put(root, np, Cleared(n)), w.0, w.1, w.2)
    else
      match Find(root, np)
      case None => (false, root, meta, nodes, m)
      case Some(n) =>
        var ps := env.validate(u.properties.value, meta.context.filter);
        (true, Put(root, np, Serialized(n, k.name, ps, env)), meta,
         nodes[u.id := nodes[u.id].(instance := nodes[u.id].instance.(properties := ps))], m)
  }

  /** The properties step of the `Project` arm. */
  method UpdateProjectProps(u: Updated, meta: NodeMeta, root: ProjectNode, tree: Tree, vfs: V.Vfs, env: Env)
    returns (ok: bool, root1: ProjectNode, m: NodeMeta)
    requires meta.source.kind.ProjectKind? && u.id in tree.nodes
    modifies tree, vfs
    ensures (ok, root1, m, tree.nodes, vfs.entries) == ProjectPropsStep(u, meta, root, old(tree.nodes), old(vfs.entries), env)
  {
    var k := meta.source.kind;
    var np := k.nodePath;
    if u.properties.None? {
      return true, root, meta;
    }
    if k.node.path.Some? {
      m := UpdateProperties(u.id, Redirect(k.projectPath, k.node.path.value), u.properties.value, meta, tree, vfs, env);
      var found := Find(root, np);
      if found.None? {
        return false, root, m;
      }
      return true, Put(root, np, Cleared(found.value)), m;
    }
    var found := Find(root, np);
    if found.None? {
      return false, root, meta;
    }
    var ps := env.validate(u.properties.value, meta.context.filter);
    tree.SetProperties(u.id, ps);
    return true, Put(root, np, Serialized(found.value, k.name, ps, env)), meta;
  }

  /**
   * What the `Project` arm of `apply_update` did. The project is loaded first; after the
   * properties step a new name moves the node under its parent to the new key and points the
   * source at it; the meta and the project are saved only when both steps went on.
   */
  predicate ProjectUpdated(u: Updated, meta: NodeMeta, before: Nodes, after: Nodes, vb: V.Entries, va: V.Entries,
                           fb: map<Path, ProjectNode>, fa: map<Path, ProjectNode>, saved: bool, env: Env, r: Result<()>)
    requires meta.source.kind.ProjectKind? && u.id in before
  {
    var k := meta.source.kind;
    var pp := k.projectPath;
    if pp !in fb then r.Err? && !saved && fa == fb && after == before && va == vb
    else
      var w := ProjectPropsStep(u, meta, fb[pp], before, vb, env);
      && va == w.4
      && (if !w.0 then r.Err? && !saved && fa == fb && after == w.3
          else ProjectSaved(u, k, w.1, w.2, w.3, after, fb, fa, saved, r))
  }

  /**
   * The end of the `Project` arm, once the properties step went on with the project `root`, the
   * meta `m` and the nodes `mid`: an optional rename of the node under its parent, then the meta
   * and the project are saved.
   */
  predicate ProjectSaved(u: Updated, k: SourceKind, root: ProjectNode, m: NodeMeta, mid: Nodes, after: Nodes,
                         fb: map<Path, ProjectNode>, fa: map<Path, ProjectNode>, saved: bool, r: Result<()>)
    requires k.ProjectKind? && u.id in mid
  {
    var pp := k.projectPath;
    var parent := Pop(k.nodePath);
    match u.name
    case None =>
      r == Ok(()) && saved && fa == fb[pp := root] && after == mid[u.id := mid[u.id].(meta := m)]
    case Some(name) =>
      if !Renamable(root, parent, k.name) then r.Err? && !saved && fa == fb && after == mid
      else
        var node := Find(root, parent).value.tree[k.name];
        var source := m.source.(kind := ProjectKind(name, pp, node, parent + [name]));
        && r == Ok(())
        && saved
        && fa == fb[pp := RenamedChild(root, parent, k.name, name)]
        && after == mid[u.id := mid[u.id].(instance := mid[u.id].instance.(name := name), meta := m.(source := source))]
  }

  /** The `Project` arm of `apply_update`. */
  method UpdateInProject(u: Updated, meta: NodeMeta, tree: Tree, vfs: V.Vfs, projects: Projects, env: Env)
    returns (r: Result<()>)
    requires meta.source.kind.ProjectKind? && u.id in tree.nodes
    modifies tree, vfs, projects
    ensures projects.loads == old(projects.loads) + 1
    ensures ProjectUpdated(u, meta, old(tree.nodes), tree.nodes, old(vfs.entries), vfs.entries,
                           old(projects.files), projects.files, projects.saves == old(projects.saves) + 1, env, r)
    ensures projects.saves == old(projects.saves) || projects.saves == old(projects.saves) + 1
  {
    var k := meta.source.kind;
    var pp := k.projectPath;
    var loaded := projects.Load(pp);
    if loaded.Err? {
      return Err(loaded.error);
    }
    var ok, root, m := UpdateProjectProps(u, meta, loaded.value, tree, vfs, env);
    if !ok {
      return Err("failed to find project node");
    }
    r := SaveProjectUpdate(u, k, root, m, tree, projects);
  }

  /** The rename and save at the end of the `Project` arm. */
  method SaveProjectUpdate(u: Updated, k: SourceKind, root: ProjectNode, m: NodeMeta, tree: Tree, projects: Projects)
    returns (r: Result<()>)
    requires k.ProjectKind? && u.id in tree.nodes
    modifies tree, projects`files, projects`saves
    ensures ProjectSaved(u, k, root, m, old(tree.nodes), tree.nodes, old(projects.files), projects.files,
                         projects.saves == old(projects.saves) + 1, r)
    ensures projects.saves == old(projects.saves) || projects.saves == old(projects.saves) + 1
  {
    var pp := k.projectPath;
    var parent := Pop(k.nodePath);
    var root1, m1 := root, m;
    if u.name.Some? {
      var name := u.name.value;
      var found := Find(root, parent);
      if found.None? || k.name !in found.value.tree {
        return Err("failed to find parent project node");
      }
      var node := found.value.tree[k.name];
      root1 := RenamedChild(root, parent, k.name, name);
      m1 := m.(source := m.source.(kind := ProjectKind(name, pp, node, parent + [name])));
      tree.SetName(u.id, name);
    }
    tree.UpdateMeta(u.id, m1);
    projects.Save(pp, root1);
    r := Ok(());
  }

  /** The update is dropped: the instance is gone, or the filter rejects its current or its new name or class. */
  predicate UpdateSkipped(u: Updated, nodes: Nodes, env: Env)
  {
    u.id !in nodes ||
    var f := nodes[u.id].meta.context.filter;
    var inst := nodes[u.id].instance;
    || NameFiltered(env, f, inst.name) || ClassFiltered(env, f, inst.className)
    || (u.name.Some? && NameFiltered(env, f, u.name.value))
    || (u.className.Some? && ClassFiltered(env, f, u.className.value))
  }

  /**
   * `apply_update`. A class or meta change, and an instance without a source, stop the program
   * in the source; here they are excluded by the precondition.
   */
  method ApplyUpdate(u: Updated, tree: Tree, vfs: V.Vfs, projects: Projects, env: Env) returns (r: Result<()>)
    requires !UpdateSkipped(u, tree.nodes, env) ==>
      u.className.None? && u.meta.None? && !tree.nodes[u.id].meta.source.kind.NoSource?
    modifies tree, vfs, projects
    ensures UpdateSkipped(u, old(tree.nodes), env) ==> r == Ok(()) && unchanged(tree, vfs, projects)
    ensures !UpdateSkipped(u, old(tree.nodes), env) ==>
      var meta := old(tree.nodes[u.id].meta);
      match meta.source.kind
      case PathKind(path) =>
        && unchanged(projects)
        && PathUpdated(u, meta, path, old(tree.nodes), tree.nodes, old(vfs.entries), vfs.entries, env, r)
      case ProjectKind(_, _, _, _) =>
        && projects.loads == old(projects.loads) + 1
        && ProjectUpdated(u, meta, old(tree.nodes), tree.nodes, old(vfs.entries), vfs.entries,
                          old(projects.files), projects.files, projects.saves == old(projects.saves) + 1, env, r)
      case NoSource => true
  {
    if UpdateSkipped(u, tree.nodes, env) {
      return Ok(());
    }
    var meta := tree.nodes[u.id].meta;
    if meta.source.kind.PathKind? {
      r := UpdateAtPath(u, meta, meta.source.kind.path, tree, vfs, env);
    } else {
      r := UpdateInProject(u, meta, tree, vfs, projects, env);
    }
  }

  /** Properties are written before the rename is tried, so they stay written however the rename ends. */
  lemma PropertiesBeforeRename(u: Updated, meta: NodeMeta, path: Path, before: Nodes, after: Nodes,
                               vb: V.Entries, va: V.Entries, env: Env, r: Result<()>)
    requires u.id in before && u.properties.Some? && !PathFiltered(env, meta.context.filter, path)
    requires PathUpdated(u, meta, path, before, after, vb, va, env, r)
    ensures u.id in after && after[u.id].instance.properties == env.validate(u.properties.value, meta.context.filter)
  {
  }

  /**
   * A bad new name, or a new path that is taken, ends the update before the meta is stored: the
   * node keeps its old meta and name even though its properties, and any file or data file they
   * needed, were already written.
   */
  lemma EarlyReturnKeepsMeta(u: Updated, path: Path, before: Nodes, after: Nodes,
                             vb: V.Entries, va: V.Entries, env: Env, r: Result<()>)
    requires u.id in before && u.name.Some?
    requires var meta := before[u.id].meta;
      var w := PropertiesStep(u.id, path, u.properties, meta, before, vb, env);
      !env.verifyName(u.name.value) || NewPath(path, before[u.id].instance.name, u.name.value) in w.2
    requires PathUpdated(u, before[u.id].meta, path, before, after, vb, va, env, r)
    ensures r == Ok(()) && u.id in after
    ensures after[u.id].meta == before[u.id].meta && after[u.id].instance.name == before[u.id].instance.name
    ensures after.Keys == before.Keys && forall k | k in before && k != u.id :: after[k] == before[k]
  {
    var w := PropertiesStep(u.id, path, u.properties, before[u.id].meta, before, vb, env);
    assert after == w.1;
  }

  /** `str::replace` changes every occurrence: renaming `Foo` to `Bar` turns `Foo.Foo.lua` into `Bar.Bar.lua`. */
  lemma ReplaceEveryOccurrence()
    ensures Replace("Foo.Foo.lua", "Foo", "Bar") == "Bar.Bar.lua"
  {
    assert Replace("ua", "Foo", "Bar") == "ua";
    assert Replace("lua", "Foo", "Bar") == "lua" by {
      assert "lua"[..3][0] != "Foo"[0] && "lua"[1..] == "ua";
    }
    assert Replace(".lua", "Foo", "Bar") == ".lua" by {
      assert ".lua"[..3][0] != "Foo"[0] && ".lua"[1..] == "lua";
    }
    assert Replace("Foo.lua", "Foo", "Bar") == "Bar.lua" by {
      assert "Foo.lua"[..3] == "Foo" && "Foo.lua"[3..] == ".lua";
    }
    assert Replace(".Foo.lua", "Foo", "Bar") == ".Bar.lua" by {
      assert ".Foo.lua"[..3][0] != "Foo"[0] && ".Foo.lua"[1..] == "Foo.lua";
    }
    assert "Foo.Foo.lua"[..3] == "Foo" && "Foo.Foo.lua"[3..] == ".Foo.lua";
  }

  /**
   * Renaming a project node moves it, unchanged, to the new key under the same parent; the old
   * key is gone.
   */
  lemma {:induction false} ProjectRenameMovesNode(u: Updated, meta: NodeMeta, before: Nodes, after: Nodes,
                                                  vb: V.Entries, va: V.Entries, fb: map<Path, ProjectNode>,
                                                  fa: map<Path, ProjectNode>, saved: bool, env: Env, r: Result<()>)
    requires meta.source.kind.ProjectKind? && u.id in before
    requires u.properties.None? && u.name.Some? && r.Ok?
    requires var np := meta.source.kind.nodePath; np != [] && np[|np| - 1] == meta.source.kind.name
    requires ProjectUpdated(u, meta, before, after, vb, va, fb, fa, saved, env, r)
    ensures var k := meta.source.kind;
      && k.projectPath in fa
      && Find(fa[k.projectPath], Pop(k.nodePath) + [u.name.value]) == Find(fb[k.projectPath], k.nodePath)
      && (u.name.value != k.name ==> Find(fa[k.projectPath], k.nodePath).None?)
  {
    var k := meta.source.kind;
    var np := k.nodePath;
    var root := fb[k.projectPath];
    assert Pop(np) + [k.name] == np;
    FindAppend(root, Pop(np), k.name);
  }
}
