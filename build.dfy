/**
 * Output-path and format resolution of `argon build` (src/cli/build.rs): where the built
 * place or model goes and whether it is written as XML.
 */
module Build {
  import opened Wrappers
  import opened Paths

  /** The `--output` argument, with whether it names an existing directory. */
  datatype Output = Output(path: Path, isDir: bool)

  /**
   * The resolved build: the file to write, the format, and the directories that are created
   * on the way (`fs::create_dir_all`).
   */
  datatype Target = Target(path: Path, xml: bool, createdDirs: seq<Path>)

  /** `get_default_file`: `<name>.rbxl[x]` for a place, `<name>.rbxm[x]` otherwise. */
  function DefaultFile(projectName: string, isPlace: bool, xml: bool): (r: string)
    ensures isPlace && xml ==> r == projectName + ".rbxlx"
    ensures isPlace && !xml ==> r == projectName + ".rbxl"
    ensures !isPlace && xml ==> r == projectName + ".rbxmx"
    ensures !isPlace && !xml ==> r == projectName + ".rbxm"
  {
    var ext := if isPlace then (if xml then "rbxlx" else "rbxl") else if xml then "rbxmx" else "rbxm";
    projectName + "." + ext
  }

  /** The format an explicit extension forces, or `None` when the extension is not allowed. */
  function XmlOf(ext: string): Option<bool>
  {
    if ext == "rbxlx" || ext == "rbxmx" then Some(true)
    else if ext == "rbxl" || ext == "rbxm" then Some(false)
    else None
  }

  /**
   * The output resolution of `Build::main`. `pluginsDir` stands for the Studio plugins folder
   * and `parentExists` for whether an explicit output file's folder already exists.
   */
  function ResolveTarget(
    plugin: bool, output: Option<Output>, xml: bool,
    projectName: string, isPlace: bool, pluginsDir: Path, parentExists: bool): (r: Result<Target>)
    // a plugin is built from a model project into the plugins folder
    ensures plugin ==> (r.Err? <==> isPlace)
    ensures plugin && r.Ok? ==>
      r.value == Target(pluginsDir + [projectName + (if xml then ".rbxmx" else ".rbxm")], xml, [])
    // an existing directory, or a path with no extension, gets the default file inside it
    ensures !plugin && output.Some? && (output.value.isDir || FileExt(output.value.path) == "") ==>
      r.Ok? && r.value.path == output.value.path + [DefaultFile(projectName, isPlace, xml)] && r.value.xml == xml
    // an explicit extension forces the format, whatever the flag
    ensures !plugin && output.Some? && !output.value.isDir && r.Ok? && FileExt(output.value.path) != "" ==>
      r.value.path == output.value.path && XmlOf(FileExt(output.value.path)) == Some(r.value.xml)
    // any other extension, and a place/model mismatch, is rejected
    ensures !plugin && output.Some? && !output.value.isDir && FileExt(output.value.path) != "" ==>
      (r.Err? <==>
        || XmlOf(FileExt(output.value.path)).None?
        || (StartsWith(FileExt(output.value.path), "rbxm") && isPlace)
        || (StartsWith(FileExt(output.value.path), "rbxl") && !isPlace))
    // neither plugin nor output: the default file name
    ensures !plugin && output.None? ==> r == Ok(Target([DefaultFile(projectName, isPlace, xml)], xml, []))
    // folders are created only for an output that is not an existing directory: the path itself
    // when it has no extension, otherwise its parent when that is missing
    ensures r.Ok? && (plugin || output.None? || output.value.isDir) ==> r.value.createdDirs == []
    ensures !plugin && output.Some? && !output.value.isDir && FileExt(output.value.path) == "" ==>
      r.value.createdDirs == [output.value.path]
    ensures !plugin && output.Some? && !output.value.isDir && FileExt(output.value.path) != "" && r.Ok? ==>
      r.value.createdDirs == if parentExists then [] else [Pop(output.value.path)]
    // whatever is created is the folder the built file goes in
    ensures r.Ok? ==> forall d <- r.value.createdDirs :: d == Pop(r.value.path)
  {
    if plugin then
      if isPlace then Err("Cannot build plugin from place project")
      else
        var ext := if xml then "rbxmx" else "rbxm";
        assert "." + ext == if xml then ".rbxmx" else ".rbxm";
        assert projectName + "." + ext == projectName + ("." + ext);
        Ok(Target(Join(pluginsDir, projectName + "." + ext), xml, []))
    else if output.Some? then
      var path := output.value.path;
      if output.value.isDir then
        Ok(Target(Join(path, DefaultFile(projectName, isPlace, xml)), xml, []))
      else
        var ext := FileExt(path);
        if ext == "" then
          assert Pop(Join(path, DefaultFile(projectName, isPlace, xml))) == path;
          Ok(Target(Join(path, DefaultFile(projectName, isPlace, xml)), xml, [path]))
        else
          match XmlOf(ext)
          case None => Err("Invalid file extension: " + ext)
          case Some(forced) =>
            if StartsWith(ext, "rbxm") && isPlace then Err("Cannot build model or plugin from place project")
            else if StartsWith(ext, "rbxl") && !isPlace then Err("Cannot build place from plugin or model project")
            else Ok(Target(path, forced, if parentExists then [] else [Pop(path)]))
    else
      Ok(Target([DefaultFile(projectName, isPlace, xml)], xml, []))
  }

  /** An accepted explicit extension always names a format consistent with the project kind. */
  lemma ExtensionMatchesProjectKind(ext: string, isPlace: bool)
    requires XmlOf(ext).Some?
    requires !(StartsWith(ext, "rbxm") && isPlace) && !(StartsWith(ext, "rbxl") && !isPlace)
    ensures isPlace <==> ext == "rbxl" || ext == "rbxlx"
  {
    assert "rbxlx"[..4] == "rbxl" && "rbxmx"[..4] == "rbxm";
    assert "rbxl"[..4] == "rbxl" && "rbxm"[..4] == "rbxm";
  }
}
