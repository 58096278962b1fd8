/**
 * Workspace helpers of src/workspace.rs: the workspace folder and project name derived from a
 * project file path, and `init`, which instantiates a project template into the workspace.
 */
module Workspace {
  import opened Wrappers
  import opened Paths

  /** `get_dir`: the project path with its final component removed. */
  function GetDir(project: Path): (r: Path)
    ensures project != [] ==> r + [FileName(project)] == project
    ensures project == [] ==> r == []
  {
    Pop(project)
  }

  /** `get_name`: the name of the workspace folder; the project path must have one. */
  function GetName(project: Path): (r: string)
    requires |project| >= 2
    ensures r == project[|project| - 2]
  {
    FileName(GetDir(project))
  }

  /** One file of the template folder: its file name and text. */
  datatype TemplateEntry = TemplateEntry(name: string, content: string)

  /** The substitution inputs of `init`; the author and the year come from the environment. */
  datatype Settings = Settings(projectName: string, source: string, author: string, year: string, git: bool, docs: bool)

  /** The file system `init` writes to (std::fs): files with their text, and directories. */
  class Disk {
    var files: map<Path, string>
    var dirs: set<Path>

    predicate Exists(p: Path)
      reads this
    {
      p in files || p in dirs
    }

    method Write(p: Path, content: string)
      modifies this`files
      ensures files == old(files)[p := content]
    {
      files := files[p := content];
    }

    method CreateDir(p: Path)
      modifies this`dirs
      ensures dirs == old(dirs) + {p}
    {
      dirs := dirs + {p};
    }
  }

  /** Where a template entry goes: `project.json` becomes the project file itself. */
  function Destination(project: Path, workspace: Path, name: string): Path
  {
    if name == "project.json" then project else Join(workspace, name)
  }

  /** The entries `init` treats by name rather than copying as they are. */
  predicate Named(name: string)
  {
    name == "project.json" || name == ".gitignore" || name == "wally.toml"
  }

  /** The entries treated by stem, which are documentation. */
  predicate Doc(name: string)
  {
    var stem := Stem(name);
    stem == "README" || stem == "CHANGELOG" || stem == "LICENSE"
  }

  /** The text `init` writes for an entry, or `None` when the entry is not written at all. */
  function Render(e: TemplateEntry, s: Settings): (r: Option<string>)
    ensures e.name == "project.json" ==>
      r == Some(Replace(Replace(e.content, "$name", s.projectName), "$src", s.source))
    ensures e.name == "wally.toml" ==>
      r == Some(Replace(Replace(e.content, "$name", s.projectName), "$author", s.author))
    ensures e.name == ".gitignore" ==> r == (if s.git then Some(e.content) else None)
    ensures !Named(e.name) && Doc(e.name) ==> (r.Some? <==> s.docs)
    ensures !Named(e.name) && (Stem(e.name) == "README" || Stem(e.name) == "CHANGELOG") && s.docs ==>
      r == Some(Replace(e.content, "$name", s.projectName))
    ensures !Named(e.name) && Stem(e.name) == "LICENSE" && s.docs ==>
      r == Some(Replace(Replace(e.content, "[yyyy]", s.year), "[owner]", s.author))
    ensures !Named(e.name) && !Doc(e.name) ==> r == Some(e.content)
  {
    match e.name
    case "project.json" => Some(Replace(Replace(e.content, "$name", s.projectName), "$src", s.source))
    case ".gitignore" => if s.git then Some(e.content) else None
    case "wally.toml" => Some(Replace(Replace(e.content, "$name", s.projectName), "$author", s.author))
    case _ =>
      match Stem(e.name)
      case "README" => if s.docs then Some(Replace(e.content, "$name", s.projectName)) else None
      case "CHANGELOG" => if s.docs then Some(Replace(e.content, "$name", s.projectName)) else None
      case "LICENSE" =>
        if s.docs then Some(Replace(Replace(e.content, "[yyyy]", s.year), "[owner]", s.author)) else None
      case _ => Some(e.content)
  }

  /** The files after handling `entries` in order; an entry whose destination already exists is skipped. */
  function Planned(files: map<Path, string>, dirs: set<Path>, entries: seq<TemplateEntry>,
                   project: Path, workspace: Path, s: Settings): map<Path, string>
  {
    if entries == [] then files
    else
      var before := Planned(files, dirs, entries[..|entries| - 1], project, workspace, s);
      var e := entries[|entries| - 1];
      var dest := Destination(project, workspace, e.name);
      if dest in before || dest in dirs then before
      else
        match Render(e, s)
        case None => before
        case Some(text) => before[dest := text]
  }

  /** `init` never overwrites: every file that existed keeps its text. */
  lemma {:induction false} PlannedKeepsExisting(files: map<Path, string>, dirs: set<Path>, entries: seq<TemplateEntry>,
                                               project: Path, workspace: Path, s: Settings)
    ensures forall p | p in files :: p in Planned(files, dirs, entries, project, workspace, s)
                                     && Planned(files, dirs, entries, project, workspace, s)[p] == files[p]
  {
    if entries != [] {
      PlannedKeepsExisting(files, dirs, entries[..|entries| - 1], project, workspace, s);
    }
  }

  /** Every file `init` adds is the destination of some entry, holding that entry's rendered text. */
  lemma {:induction false} PlannedWritesDestinations(files: map<Path, string>, dirs: set<Path>, entries: seq<TemplateEntry>,
                                                    project: Path, workspace: Path, s: Settings)
    ensures forall p | p in Planned(files, dirs, entries, project, workspace, s) && p !in files ::
      p !in dirs &&
      exists i | 0 <= i < |entries| ::
        && Destination(project, workspace, entries[i].name) == p
        && Render(entries[i], s) == Some(Planned(files, dirs, entries, project, workspace, s)[p])
  {
    if entries != [] {
      var init := entries[..|entries| - 1];
      PlannedWritesDestinations(files, dirs, init, project, workspace, s);
      var after := Planned(files, dirs, entries, project, workspace, s);
      var before := Planned(files, dirs, init, project, workspace, s);
      forall p | p in after && p !in files
        ensures p !in dirs
        ensures exists i | 0 <= i < |entries| ::
          && Destination(project, workspace, entries[i].name) == p
          && Render(entries[i], s) == Some(after[p])
      {
        var e := entries[|entries| - 1];
        if p == Destination(project, workspace, e.name) && p !in before {
          assert Render(e, s) == Some(after[p]);
        } else {
          assert p in before && after[p] == before[p];
          var i :| 0 <= i < |init| && Destination(project, workspace, init[i].name) == p
                   && Render(init[i], s) == Some(before[p]);
          assert entries[i] == init[i];
        }
      }
    }
  }

  /** The loop of `init` over the template folder: writes each entry that is wanted and whose destination is free. */
  method CopyTemplate(disk: Disk, entries: seq<TemplateEntry>, project: Path, workspace: Path, s: Settings)
    modifies disk`files
    ensures disk.files == Planned(old(disk.files), disk.dirs, entries, project, workspace, s)
  {
    ghost var files0 := disk.files;
    var i := 0;
    while i < |entries|
      invariant 0 <= i <= |entries|
      invariant disk.files == Planned(files0, disk.dirs, entries[..i], project, workspace, s)
    {
      assert entries[..i + 1][..i] == entries[..i];
      var e := entries[i];
      var dest := Destination(project, workspace, e.name);
      if !disk.Exists(dest) {
        var text := Render(e, s);
        if text.Some? {
          disk.Write(dest, text.value);
        }
      }
      i := i + 1;
    }
    assert entries[..i] == entries;
  }

  /**
   * `init`: fails before any write when the template is missing; otherwise creates the
   * workspace folder if needed, writes each template entry that is wanted and whose
   * destination does not exist yet, and creates the source folder if it is absent.
   * The template folder's listing, the user name and the year are inputs.
   */
  method Init(disk: Disk, project: Path, templateExists: bool, entries: seq<TemplateEntry>,
              source: string, git: bool, docs: bool, author: string, year: string) returns (r: Result<()>)
    requires templateExists ==> |project| >= 2
    modifies disk
    ensures !templateExists ==> r.Err? && disk.files == old(disk.files) && disk.dirs == old(disk.dirs)
    ensures templateExists ==>
      var workspace := GetDir(project);
      var dirs := if old(disk.Exists(workspace)) then old(disk.dirs) else old(disk.dirs) + {workspace};
      var s := Settings(GetName(project), source, author, year, git, docs);
      var files := Planned(old(disk.files), dirs, entries, project, workspace, s);
      var sourceDir := Join(workspace, source);
      && r.Ok?
      && disk.files == files
      && disk.dirs == if sourceDir in files || sourceDir in dirs then dirs else dirs + {sourceDir}
  {
    if !templateExists {
      return Err("Template does not exist");
    }
    var name := GetName(project);
    var workspace := GetDir(project);
    if !disk.Exists(workspace) {
      disk.CreateDir(workspace);
    }
    var s := Settings(name, source, author, year, git, docs);
    CopyTemplate(disk, entries, project, workspace, s);
    var sourceDir := Join(workspace, source);
    if !disk.Exists(sourceDir) {
      disk.CreateDir(sourceDir);
    }
    r := Ok(());
  }
}
