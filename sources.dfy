/**
 * What the write-back processor knows about each tree node: the sync context it inherited, the
 * file-system entries that make up the instance on disk (its `Source`), and the snapshots it
 * receives from the client. The collaborators whose code is not part of this model (glob
 * matching, `SyncRule::locate`, `verify_name`, property validation and serialization, the
 * middleware encoders) are the fields of an `Env`.
 */
module Sources {
  import opened Wrappers
  import opened Paths
  import opened Dom
  import M = Meta
  import opened Project

  /** One file-system entry backing an instance. */
  datatype SourceEntry = File(path: Path) | Folder(path: Path) | Data(path: Path) | ProjectFile(path: Path)

  datatype EntryKind = FileEntry | FolderEntry | DataEntry | ProjectEntry

  predicate IsKind(e: SourceEntry, k: EntryKind)
  {
    match k
    case FileEntry => e.File?
    case FolderEntry => e.Folder?
    case DataEntry => e.Data?
    case ProjectEntry => e.ProjectFile?
  }

  /** Where an instance comes from: plain paths, a node of a project file, or nowhere. */
  datatype SourceKind =
    | PathKind(path: Path)
    | ProjectKind(name: string, projectPath: Path, node: ProjectNode, nodePath: NodePath)
    | NoSource

  /** `Source`: the kind plus the "relevant" entries renamed and removed together. */
  datatype Source = Source(kind: SourceKind, relevant: seq<SourceEntry>)

  /** `Source::file`. */
  function FileSource(p: Path): Source
  {
    Source(PathKind(p), [File(p)])
  }

  /** `Source::directory`. */
  function DirectorySource(p: Path): Source
  {
    Source(PathKind(p), [Folder(p)])
  }

  /** `Source::child_file`: a folder whose body is a file inside it. */
  function ChildFileSource(folder: Path, file: Path): Source
  {
    Source(PathKind(folder), [Folder(folder), File(file)])
  }

  /** `Source::project`. */
  function ProjectSource(name: string, path: Path, node: ProjectNode, np: NodePath): Source
  {
    Source(ProjectKind(name, path, node, np), [ProjectFile(path)])
  }

  /** The index of the first entry of kind `k`. */
  function FirstOf(rel: seq<SourceEntry>, k: EntryKind): (r: Option<nat>)
    ensures r.Some? ==> r.value < |rel| && IsKind(rel[r.value], k)
    ensures r.Some? ==> forall j | 0 <= j < r.value :: !IsKind(rel[j], k)
    ensures r.None? ==> forall j | 0 <= j < |rel| :: !IsKind(rel[j], k)
  {
    if rel == [] then None
    else if IsKind(rel[0], k) then Some(0)
    else match FirstOf(rel[1..], k)
      case None => None
      case Some(i) => Some(i + 1)
  }

  /** `get_file`, `get_data`, `get_folder`: the path of the first entry of kind `k`. */
  function Get(s: Source, k: EntryKind): (r: Option<Path>)
    ensures r.Some? <==> exists j | 0 <= j < |s.relevant| :: IsKind(s.relevant[j], k)
    ensures r.Some? ==> exists j | 0 <= j < |s.relevant| :: IsKind(s.relevant[j], k) && s.relevant[j].path == r.value
  {
    match FirstOf(s.relevant, k)
    case None => None
    case Some(i) => Some(s.relevant[i].path)
  }

  /** `add_file`. */
  function AddFile(s: Source, p: Path): Source
  {
    s.(relevant := s.relevant + [File(p)])
  }

  /** `add_data`. */
  function AddData(s: Source, p: Path): Source
  {
    s.(relevant := s.relevant + [Data(p)])
  }

  /** The entries other than data files, in order. */
  function WithoutData(rel: seq<SourceEntry>): (r: seq<SourceEntry>)
    ensures forall e :: e in r <==> e in rel && !e.Data?
    ensures |r| <= |rel|
  {
    if rel == [] then []
    else (if rel[0].Data? then [] else [rel[0]]) + WithoutData(rel[1..])
  }

  /** `set_data`: the data entry becomes `d` (or disappears); every other entry stays. */
  function SetData(s: Source, d: Option<Path>): (r: Source)
    ensures r.kind == s.kind
    ensures Get(r, DataEntry) == d
    ensures forall e: SourceEntry | !e.Data? :: e in r.relevant <==> e in s.relevant
  {
    var rest := WithoutData(s.relevant);
    assert forall j | 0 <= j < |rest| :: !rest[j].Data? by {
      forall j | 0 <= j < |rest| ensures !rest[j].Data? {
        assert rest[j] in rest;
      }
    }
    match d
    case None => s.(relevant := rest)
    case Some(p) =>
      var r := s.(relevant := rest + [Data(p)]);
      assert FirstOf(r.relevant, DataEntry) == Some(|rest|) by {
        assert IsKind(r.relevant[|rest|], DataEntry);
      }
      r
  }

  /** `with_relevants`. */
  function WithRelevants(s: Source, rel: seq<SourceEntry>): Source
  {
    s.(relevant := rel)
  }

  /** The syncback filter: globs over names, classes and paths that the client may not write. */
  datatype Filter = Filter(names: seq<M.Glob>, classes: seq<M.Glob>, paths: seq<M.Glob>)

  /** The sync context a node inherits: its sync rules and its syncback filter. */
  datatype Context = Context(rules: seq<M.SyncRule>, filter: Filter)

  /** A tree node's metadata, as the processor uses it. */
  datatype NodeMeta = NodeMeta(context: Context, source: Source, keepUnknowns: bool)

  /** The collaborators the processor calls but whose code is not part of this model. */
  datatype Env = Env(
    /** Glob matching against a path. */
    glob: M.GlobMatcher,
    /** Glob matching against a name or class. */
    text: (M.Glob, string) -> bool,
    /** `SyncRule::locate(path, name, has_children)`. */
    locate: (M.SyncRule, Path, string, bool) -> Option<Path>,
    /** `Middleware::from_class`. */
    middleware: string -> Option<M.FileType>,
    /** `verify_name` succeeds. */
    verifyName: string -> bool,
    /** `validate_properties`. */
    validate: (Properties, Filter) -> Properties,
    /** `serialize_properties`. */
    serialize: (string, Properties) -> Properties,
    /** The middleware of this kind encodes this property in its own file. */
    native: (M.FileType, string) -> bool,
    /** `data::write_data(is_file, class, properties)` decides to keep a data file. */
    keepsData: (bool, string, Properties) -> bool)

  predicate NameFiltered(env: Env, f: Filter, name: string)
  {
    exists i | 0 <= i < |f.names| :: env.text(f.names[i], name)
  }

  predicate ClassFiltered(env: Env, f: Filter, className: string)
  {
    exists i | 0 <= i < |f.classes| :: env.text(f.classes[i], className)
  }

  predicate PathFiltered(env: Env, f: Filter, p: Path)
  {
    exists i | 0 <= i < |f.paths| :: env.glob(f.paths[i], p)
  }

  /** `sync_rules_of_type`: the rules of one kind, in order. */
  function RulesOfType(rules: seq<M.SyncRule>, ft: M.FileType): (r: seq<M.SyncRule>)
    ensures forall x :: x in r <==> x in rules && x.fileType == ft
  {
    if rules == [] then []
    else (if rules[0].fileType == ft then [rules[0]] else []) + RulesOfType(rules[1..], ft)
  }

  /** `find_map` of `locate` over `rules`: the first location any rule gives. */
  function Locate(env: Env, rules: seq<M.SyncRule>, p: Path, name: string, hasChildren: bool): (r: Option<Path>)
    ensures r.None? <==> forall i | 0 <= i < |rules| :: env.locate(rules[i], p, name, hasChildren).None?
    ensures r.Some? ==> exists i | 0 <= i < |rules| ::
              && env.locate(rules[i], p, name, hasChildren) == r
              && forall j | 0 <= j < i :: env.locate(rules[j], p, name, hasChildren).None?
  {
    if rules == [] then None
    else match env.locate(rules[0], p, name, hasChildren)
      case Some(q) => Some(q)
      case None =>
        var r := Locate(env, rules[1..], p, name, hasChildren);
        assert forall i | 1 <= i < |rules| :: rules[i] == rules[1..][i - 1];
        r
  }

  /** `sync_rules_of_type` keeps the order: filtering a concatenation concatenates the filtered parts. */
  lemma {:induction false} RulesOfTypeAppend(a: seq<M.SyncRule>, b: seq<M.SyncRule>, ft: M.FileType)
    ensures RulesOfType(a + b, ft) == RulesOfType(a, ft) + RulesOfType(b, ft)
  {
    if a != [] {
      assert (a + b)[1..] == a[1..] + b;
      RulesOfTypeAppend(a[1..], b, ft);
    } else {
      assert a + b == b;
    }
  }

  /** Rule `i` is the first rule of kind `ft` that locates anything, and it locates `q`. */
  predicate LocatedFirst(env: Env, rules: seq<M.SyncRule>, ft: M.FileType, p: Path, name: string, hasChildren: bool, q: Path, i: int)
  {
    && 0 <= i < |rules|
    && rules[i].fileType == ft
    && env.locate(rules[i], p, name, hasChildren) == Some(q)
    && forall j | 0 <= j < i && rules[j].fileType == ft :: env.locate(rules[j], p, name, hasChildren).None?
  }

  /** A first rule of the tail stays the first one when the head rule locates nothing of that kind. */
  lemma LocatedFirstShift(env: Env, rules: seq<M.SyncRule>, ft: M.FileType, p: Path, name: string, hasChildren: bool, q: Path, i: int)
    requires rules != [] && LocatedFirst(env, rules[1..], ft, p, name, hasChildren, q, i)
    requires rules[0].fileType == ft ==> env.locate(rules[0], p, name, hasChildren).None?
    ensures LocatedFirst(env, rules, ft, p, name, hasChildren, q, i + 1)
  {
    forall j | 0 <= j < i + 1 && rules[j].fileType == ft
      ensures env.locate(rules[j], p, name, hasChildren).None?
    {
      if j > 0 { assert rules[j] == rules[1..][j - 1]; }
    }
  }

  /** The kept rules minus a head that locates nothing are the tail's kept rules, with the same location. */
  lemma LocateOfTypeTail(env: Env, rules: seq<M.SyncRule>, ft: M.FileType, p: Path, name: string, hasChildren: bool)
    requires rules != []
    requires rules[0].fileType == ft ==> env.locate(rules[0], p, name, hasChildren).None?
    ensures Locate(env, RulesOfType(rules, ft), p, name, hasChildren) == Locate(env, RulesOfType(rules[1..], ft), p, name, hasChildren)
  {
    var rest := RulesOfType(rules[1..], ft);
    if rules[0].fileType == ft {
      assert RulesOfType(rules, ft) == [rules[0]] + rest;
      assert RulesOfType(rules, ft)[1..] == rest;
    } else {
      assert RulesOfType(rules, ft) == rest;
    }
  }

  /**
   * `find_map` of `locate` over the rules of one kind: the location given by the first rule of
   * that kind that gives one, every earlier rule of that kind giving none.
   */
  lemma {:induction false} LocateOfTypeFirst(env: Env, rules: seq<M.SyncRule>, ft: M.FileType, p: Path, name: string, hasChildren: bool)
    ensures var r := Locate(env, RulesOfType(rules, ft), p, name, hasChildren);
      r.Some? ==> exists i :: LocatedFirst(env, rules, ft, p, name, hasChildren, r.value, i)
  {
    if rules != [] {
      var r := Locate(env, RulesOfType(rules, ft), p, name, hasChildren);
      if rules[0].fileType == ft && env.locate(rules[0], p, name, hasChildren).Some? {
        assert RulesOfType(rules, ft) == [rules[0]] + RulesOfType(rules[1..], ft);
        assert LocatedFirst(env, rules, ft, p, name, hasChildren, r.value, 0);
      } else {
        LocateOfTypeTail(env, rules, ft, p, name, hasChildren);
        LocateOfTypeFirst(env, rules[1..], ft, p, name, hasChildren);
        if r.Some? {
          var i :| LocatedFirst(env, rules[1..], ft, p, name, hasChildren, r.value, i);
          LocatedFirstShift(env, rules, ft, p, name, hasChildren, r.value, i);
        }
      }
    }
  }

  /** The properties a middleware of kind `ft` encodes in its own file. */
  function Native(env: Env, ft: M.FileType, ps: Properties): Properties
  {
    map k | k in ps && env.native(ft, k) :: ps[k]
  }

  /** The properties it hands back for the data file. */
  function Leftover(env: Env, ft: M.FileType, ps: Properties): Properties
  {
    map k | k in ps && !env.native(ft, k) :: ps[k]
  }

  /** Every property ends up in exactly one of the two files. */
  lemma PropertySplit(env: Env, ft: M.FileType, ps: Properties)
    ensures Native(env, ft, ps) + Leftover(env, ft, ps) == ps
    ensures Native(env, ft, ps).Keys !! Leftover(env, ft, ps).Keys
  {
    var n, l := Native(env, ft, ps), Leftover(env, ft, ps);
    assert (n + l).Keys == ps.Keys;
  }

  /** A snapshot sent by the client: an instance with its meta and children. */
  datatype Snap = Snap(
    id: Ref, name: string, className: string, properties: Properties, meta: NodeMeta, children: seq<Snap>)

  /** An added snapshot: the new subtree and the parent it goes under. */
  datatype Added = Added(parent: Ref, snapshot: Snap)

  /** An updated snapshot: `None` means unchanged. */
  datatype Updated = Updated(
    id: Ref, name: Option<string>, className: Option<string>, properties: Option<Properties>, meta: Option<NodeMeta>)

  /** The snapshot with its properties passed through `validate_properties`. */
  function Validated(s: Snap, f: Filter, env: Env): Snap
  {
    s.(properties := env.validate(s.properties, f))
  }

  /** Every reference in a snapshot tree. */
  function RefSet(s: Snap): set<Ref>
    decreases s.children, 1
  {
    {s.id} + RefsOf(s.children)
  }

  function RefsOf(cs: seq<Snap>): set<Ref>
    decreases cs, 0
  {
    if cs == [] then {} else RefsOf(cs[..|cs| - 1]) + RefSet(cs[|cs| - 1])
  }

  /** No reference occurs twice in the snapshot tree. */
  predicate Distinct(s: Snap)
    decreases s.children, 1
  {
    && s.id !in RefsOf(s.children)
    && DistinctAll(s.children)
  }

  predicate DistinctAll(cs: seq<Snap>)
    decreases cs, 0
  {
    if cs == [] then true
    else DistinctAll(cs[..|cs| - 1]) && Distinct(cs[|cs| - 1]) && RefsOf(cs[..|cs| - 1]) !! RefSet(cs[|cs| - 1])
  }

  /** The references of a snapshot tree in the order the tree receives them: pre-order. */
  function Preorder(s: Snap): (r: seq<Ref>)
    decreases s.children, 1
  {
    [s.id] + PreorderOf(s.children)
  }

  function PreorderOf(cs: seq<Snap>): (r: seq<Ref>)
    decreases cs, 0
  {
    if cs == [] then [] else PreorderOf(cs[..|cs| - 1]) + Preorder(cs[|cs| - 1])
  }

  lemma RefsOfStep(cs: seq<Snap>, i: nat)
    requires i < |cs|
    ensures RefsOf(cs[..i + 1]) == RefsOf(cs[..i]) + RefSet(cs[i])
    ensures PreorderOf(cs[..i + 1]) == PreorderOf(cs[..i]) + Preorder(cs[i])
  {
    assert cs[..i + 1][..i] == cs[..i];
  }

  lemma {:induction false} RefsOfGrow(cs: seq<Snap>, i: nat)
    requires i <= |cs|
    ensures RefsOf(cs[..i]) <= RefsOf(cs)
    decreases |cs| - i
  {
    if i < |cs| {
      RefsOfStep(cs, i);
      RefsOfGrow(cs, i + 1);
    } else {
      assert cs[..i] == cs;
    }
  }

  lemma {:induction false} DistinctPrefix(cs: seq<Snap>, i: nat)
    requires DistinctAll(cs) && i <= |cs|
    ensures DistinctAll(cs[..i])
    decreases |cs| - i
  {
    if i < |cs| {
      DistinctPrefix(cs, i + 1);
      assert cs[..i + 1][..i] == cs[..i];
    } else {
      assert cs[..i] == cs;
    }
  }

  /**
   * The `i`-th child of a snapshot whose references are all new is itself new, and shares no
   * reference with the snapshot or with its earlier siblings.
   */
  lemma ChildFresh(s: Snap, i: nat, used: set<Ref>)
    requires Distinct(s) && i < |s.children| && RefSet(s) !! used
    ensures Distinct(s.children[i])
    ensures RefSet(s.children[i]) !! used + {s.id} + RefsOf(s.children[..i])
  {
    var cs := s.children;
    DistinctPrefix(cs, i + 1);
    assert cs[..i + 1][..i] == cs[..i];
    assert cs[..i + 1][i] == cs[i];
    RefsOfStep(cs, i);
    RefsOfGrow(cs, i + 1);
  }

  /** Validating properties leaves the references alone. */
  lemma ValidatedRefs(s: Snap, f: Filter, env: Env)
    ensures RefSet(Validated(s, f, env)) == RefSet(s) && Preorder(Validated(s, f, env)) == Preorder(s)
    ensures Distinct(Validated(s, f, env)) == Distinct(s)
  {
  }
}
