/**
 * Sync rules and the per-subtree Meta of src/core/meta.rs: matching a path against a rule,
 * deriving an instance name from a path, the built-in rule table, and Meta composition.
 */
module Meta {
  import opened Wrappers
  import opened Paths
  import opened Dom

  /** The instance kind a rule maps files to. */
  datatype FileType =
    | Project | InstanceData
    | ServerScript | ClientScript | ModuleScript
    | StringValue | LocalizationTable | JsonModule | TomlModule
    | RbxmModel | RbxmxModel

  /** A glob, kept as its pattern text. */
  datatype Glob = Glob(pattern: string)

  /** `Glob::matches_path`: the glob engine is not part of this model, so matching is a parameter. */
  type GlobMatcher = (Glob, Path) -> bool

  /**
   * A concrete matcher for the two pattern shapes of the default table:
   * `*<suffix>` matches a file name ending in `<suffix>`, anything else matches the file name literally.
   */
  predicate NameGlob(g: Glob, p: Path)
  {
    if |g.pattern| > 0 && g.pattern[0] == '*' then EndsWith(FileName(p), g.pattern[1..])
    else FileName(p) == g.pattern
  }

  /** The outcome of matching: which kind of instance a path is, and under what name. */
  datatype ResolvedSyncRule = ResolvedSyncRule(fileType: FileType, path: Path, name: string)

  datatype SyncRule = SyncRule(
    fileType: FileType,
    pattern: Option<Glob>,
    childPattern: Option<Glob>,
    exclude: Option<Glob>,
    suffix: Option<string>)
  {
    /** The `exclude` glob is present and matches. */
    predicate IsExcluded(m: GlobMatcher, p: Path)
    {
      match exclude
      case Some(e) => m(e, p)
      case None => false
    }

    /** `p` is a leaf file of this rule's kind. */
    predicate Matches(m: GlobMatcher, p: Path)
    {
      if pattern.Some? && m(pattern.value, p) then !IsExcluded(m, p) else false
    }

    /** `p` is a folder whose body file, `p` joined with the child pattern, is of this rule's kind. */
    predicate MatchesChild(m: GlobMatcher, p: Path)
    {
      match childPattern
      case Some(c) =>
        var body := Join(p, c.pattern);
        if m(c, body) then !IsExcluded(m, body) else false
      case None => false
    }

    /** The instance name of `p`: its file name with the rule's suffix stripped, or else its stem. */
    function GetName(p: Path): (r: string)
      ensures suffix.Some? && EndsWith(FileName(p), suffix.value) ==> r + suffix.value == FileName(p)
      ensures suffix.Some? && !EndsWith(FileName(p), suffix.value) ==> r == FileName(p)
      ensures suffix.None? ==> r == Stem(FileName(p))
    {
      match suffix
      case Some(s) =>
        var name := FileName(p);
        (match StripSuffix(name, s) case Some(n) => n case None => name)
      case None => Stem(FileName(p))
    }

    /** Resolves a leaf path; `Some` exactly when the rule matches it. */
    function Resolve(m: GlobMatcher, p: Path): (r: Option<ResolvedSyncRule>)
      ensures r.Some? <==> Matches(m, p)
      ensures r.Some? ==> r.value.fileType == fileType && r.value.path == p && r.value.name == GetName(p)
    {
      if pattern.Some? && m(pattern.value, p) && !IsExcluded(m, p) then
        Some(ResolvedSyncRule(fileType, p, GetName(p)))
      else
        None
    }

    /**
     * Resolves a folder through its body file. `first` gives the first file on disk matching a
     * glob path (the glob walk of the file system is not part of this model); the instance is
     * named after the folder holding that file, not after the file.
     */
    function ResolveChild(m: GlobMatcher, folder: Path, first: Path -> Option<Path>): (r: Option<ResolvedSyncRule>)
      requires childPattern.Some? && first(Join(folder, childPattern.value.pattern)).Some? ==>
                 first(Join(folder, childPattern.value.pattern)).value != []
      ensures r.Some? <==>
        && childPattern.Some?
        && first(Join(folder, childPattern.value.pattern)).Some?
        && !IsExcluded(m, first(Join(folder, childPattern.value.pattern)).value)
      ensures r.Some? ==>
        var body := first(Join(folder, childPattern.value.pattern)).value;
        r.value.fileType == fileType && r.value.path == body && r.value.name == FileName(body[..|body| - 1])
    {
      match childPattern
      case None => None
      case Some(c) =>
        match first(Join(folder, c.pattern))
        case None => None
        case Some(body) =>
          if IsExcluded(m, body) then None
          else Some(ResolvedSyncRule(fileType, body, FileName(Pop(body))))
    }
  }

  /**
   * The index of the first rule satisfying `q`: the `iter().find(...)` over an ordered rule list,
   * so that earlier rules win.
   */
  function FindRule(rules: seq<SyncRule>, q: SyncRule -> bool): (r: Option<nat>)
    ensures r.Some? ==> r.value < |rules| && q(rules[r.value])
    ensures r.Some? ==> forall j | 0 <= j < r.value :: !q(rules[j])
    ensures r.None? ==> forall j | 0 <= j < |rules| :: !q(rules[j])
  {
    if rules == [] then None
    else if q(rules[0]) then Some(0)
    else
      match FindRule(rules[1..], q)
      case None => None
      case Some(i) => Some(i + 1)
  }

  /** Overrides a project file injects for exactly one file-system path. */
  datatype ProjectData = ProjectData(
    name: string,
    appliesTo: Path,
    className: Option<string>,
    properties: Option<Properties>)

  function Rule(pattern: string, child: string, fileType: FileType): SyncRule
  {
    SyncRule(fileType, Some(Glob(pattern)), Some(Glob(child)), None, None)
  }

  function SuffixRule(pattern: string, child: string, fileType: FileType, suffix: string): SyncRule
  {
    SyncRule(fileType, Some(Glob(pattern)), Some(Glob(child)), None, Some(suffix))
  }

  function FolderRule(child: string, fileType: FileType): SyncRule
  {
    SyncRule(fileType, None, Some(Glob(child)), None, None)
  }

  /** The built-in rule table that `Meta::default()` carries. */
  function DefaultRules(): (r: seq<SyncRule>)
    ensures |r| == 14
    ensures r[0].fileType == Project && r[1].fileType == InstanceData
    ensures forall m, p :: !r[0].Matches(m, p) && !r[1].Matches(m, p)
    ensures forall i | 2 <= i < |r| :: r[i].pattern.Some? && r[i].exclude.None?
    ensures forall i | 0 <= i < |r| :: r[i].childPattern.Some?
  {
    [
      FolderRule("*.project.json", Project),
      FolderRule(".data.json", InstanceData),
      SuffixRule("*.server.lua", ".src.server.lua", ServerScript, ".server.lua"),
      SuffixRule("*.client.lua", ".src.client.lua", ClientScript, ".client.lua"),
      Rule("*.lua", ".src.lua", ModuleScript),
      SuffixRule("*.server.luau", ".src.server.luau", ServerScript, ".server.luau"),
      SuffixRule("*.client.luau", ".src.client.luau", ClientScript, ".client.luau"),
      Rule("*.luau", ".src.luau", ModuleScript),
      Rule("*.txt", ".src.txt", StringValue),
      Rule("*.csv", ".src.csv", LocalizationTable),
      SuffixRule("*.json", ".src.json", JsonModule, ".data.json"),
      Rule("*.toml", ".src.toml", TomlModule),
      Rule("*.rbxm", ".src.rbxm", RbxmModel),
      Rule("*.rbxmx", ".src.rbxmx", RbxmxModel)
    ]
  }

  /**
   * With the default table, a `*.server.lua` file is also matched by the later `*.lua` rule,
   * so it is the order of the table that makes it a server script, named without the suffix.
   */
  lemma ServerScriptRuleWins(p: Path)
    requires EndsWith(FileName(p), ".server.lua")
    ensures DefaultRules()[4].Matches(NameGlob, p)
    ensures FindRule(DefaultRules(), (r: SyncRule) => r.Matches(NameGlob, p)) == Some(2)
    ensures DefaultRules()[2].fileType == ServerScript
    ensures DefaultRules()[2].GetName(p) + ".server.lua" == FileName(p)
  {
    var rules := DefaultRules();
    assert rules[2] == SuffixRule("*.server.lua", ".src.server.lua", ServerScript, ".server.lua");
    assert rules[4] == Rule("*.lua", ".src.lua", ModuleScript);
    assert ".server" + ".lua" == ".server.lua";
    EndsWithTail(FileName(p), ".server", ".lua");
    assert "*.lua"[1..] == ".lua";
    assert "*.server.lua"[1..] == ".server.lua";
    assert rules[2].Matches(NameGlob, p);
    FindThird(rules, (r: SyncRule) => r.Matches(NameGlob, p));
  }

  /** The first match is at index 2 when the first two entries do not match and the third does. */
  lemma FindThird(rules: seq<SyncRule>, q: SyncRule -> bool)
    requires |rules| > 2 && !q(rules[0]) && !q(rules[1]) && q(rules[2])
    ensures FindRule(rules, q) == Some(2)
  {
    assert rules[1..][1..][0] == rules[2];
  }

  /** The `*.json` rule strips `.data.json`, so a plain `Config.json` keeps its whole file name. */
  lemma JsonRuleKeepsName()
    ensures DefaultRules()[10].Matches(NameGlob, ["Config.json"])
    ensures DefaultRules()[10].Resolve(NameGlob, ["Config.json"])
            == Some(ResolvedSyncRule(JsonModule, ["Config.json"], "Config.json"))
    ensures DefaultRules()[10].GetName(["Foo.data.json"]) == "Foo"
  {
    var rule := SuffixRule("*.json", ".src.json", JsonModule, ".data.json");
    assert DefaultRules()[10] == rule;
    assert rule.Matches(NameGlob, ["Config.json"]) by {
      assert "*.json"[1..] == ".json";
      assert "Config.json"[6..] == ".json";
    }
    assert rule.GetName(["Config.json"]) == "Config.json" by {
      assert "Config.json"[1..][0] == 'o';
      assert !EndsWith("Config.json", ".data.json");
    }
    assert rule.GetName(["Foo.data.json"]) == "Foo" by {
      assert "Foo.data.json"[3..] == ".data.json";
      assert "Foo.data.json"[..3] == "Foo";
    }
  }

  /**
   * A subtree's context: its sync rules, ignore globs, and an optional pinpoint override.
   * Cloned and extended from parent to child.
   */
  class Meta {
    var syncRules: seq<SyncRule>
    var ignoreGlobs: seq<Glob>
    var projectData: Option<ProjectData>

    /** `Meta::new`: an empty Meta. */
    constructor ()
      ensures syncRules == [] && ignoreGlobs == [] && projectData == None
      ensures IsEmpty()
    {
      syncRules := [];
      ignoreGlobs := [];
      projectData := None;
    }

    /** `Meta::default`: the built-in rules, no globs, no project data. */
    constructor Default()
      ensures syncRules == DefaultRules() && ignoreGlobs == [] && projectData == None
      ensures !IsEmpty()
    {
      syncRules := DefaultRules();
      ignoreGlobs := [];
      projectData := None;
    }

    /** `Meta::from_project`, given the project's optional rules and globs. */
    constructor FromProject(projectRules: Option<seq<SyncRule>>, projectGlobs: Option<seq<Glob>>)
      ensures syncRules == (match projectRules case Some(rules) => rules case None => DefaultRules())
      ensures ignoreGlobs == (match projectGlobs case Some(globs) => globs case None => [])
      ensures projectData == None
    {
      syncRules := match projectRules case Some(rules) => rules case None => DefaultRules();
      ignoreGlobs := match projectGlobs case Some(globs) => globs case None => [];
      projectData := None;
    }

    /** No rules, no globs, no project data. */
    predicate IsEmpty()
      reads this
    {
      syncRules == [] && ignoreGlobs == [] && projectData.None?
    }

    method SetSyncRules(rules: seq<SyncRule>)
      modifies this`syncRules
      ensures syncRules == rules
    {
      syncRules := rules;
    }

    method SetIgnoreGlobs(globs: seq<Glob>)
      modifies this`ignoreGlobs
      ensures ignoreGlobs == globs
    {
      ignoreGlobs := globs;
    }

    method SetProjectData(data: ProjectData)
      modifies this`projectData
      ensures projectData == Some(data)
    {
      projectData := Some(data);
    }

    /** `with_sync_rules`: the builder form of `set_sync_rules`, handing back the same Meta. */
    method WithSyncRules(rules: seq<SyncRule>) returns (r: Meta)
      modifies this`syncRules
      ensures r == this && syncRules == rules
    {
      SetSyncRules(rules);
      r := this;
    }

    method WithIgnoreGlobs(globs: seq<Glob>) returns (r: Meta)
      modifies this`ignoreGlobs
      ensures r == this && ignoreGlobs == globs
    {
      SetIgnoreGlobs(globs);
      r := this;
    }

    method WithProjectData(data: ProjectData) returns (r: Meta)
      modifies this`projectData
      ensures r == this && projectData == Some(data)
    {
      SetProjectData(data);
      r := this;
    }

    method AddSyncRule(rule: SyncRule)
      modifies this`syncRules
      ensures syncRules == old(syncRules) + [rule]
    {
      syncRules := syncRules + [rule];
    }

    method AddIgnoreGlob(glob: Glob)
      modifies this`ignoreGlobs
      ensures ignoreGlobs == old(ignoreGlobs) + [glob]
    {
      ignoreGlobs := ignoreGlobs + [glob];
    }

    method ExtendSyncRules(rules: seq<SyncRule>)
      modifies this`syncRules
      ensures syncRules == old(syncRules) + rules
    {
      syncRules := syncRules + rules;
    }

    method ExtendIgnoreGlobs(globs: seq<Glob>)
      modifies this`ignoreGlobs
      ensures ignoreGlobs == old(ignoreGlobs) + globs
    {
      ignoreGlobs := ignoreGlobs + globs;
    }

    /**
     * `extend`: the other Meta's rules and globs go after this one's, in order; its project
     * data replaces this one's only when it has some.
     */
    method Extend(other: Meta)
      modifies this`syncRules, this`ignoreGlobs, this`projectData
      ensures syncRules == old(syncRules) + old(other.syncRules)
      ensures ignoreGlobs == old(ignoreGlobs) + old(other.ignoreGlobs)
      ensures projectData == if old(other.projectData).Some? then old(other.projectData) else old(projectData)
    {
      var rules, globs, data := other.syncRules, other.ignoreGlobs, other.projectData;
      ExtendSyncRules(rules);
      ExtendIgnoreGlobs(globs);
      if data.Some? {
        projectData := data;
      }
    }
  }
}
