/**
 * The two writers the processor calls to put an instance on disk: a middleware encoder, which
 * writes the properties its file format holds and hands back the rest, and `data::write_data`,
 * which writes a data file when it decides one is needed.
 */
module Middleware {
  import opened Wrappers
  import opened Paths
  import opened Dom
  import M = Meta
  import opened Sources
  import V = Vfs

  /** `Middleware::write`: the returned properties are those its file cannot hold. */
  method WriteFile(env: Env, ft: M.FileType, ps: Properties, p: Path, vfs: V.Vfs) returns (leftover: Properties)
    modifies vfs
    ensures vfs.entries == old(vfs.entries)[p := V.File(Native(env, ft, ps))]
    ensures leftover == Leftover(env, ft, ps)
    ensures leftover.Keys <= ps.Keys && leftover.Keys + vfs.entries[p].content.Keys == ps.Keys
  {
    PropertySplit(env, ft, ps);
    vfs.Write(p, Native(env, ft, ps));
    leftover := Leftover(env, ft, ps);
  }

  /** `data::write_data`: the path written, or `None` when no data file is kept. */
  method WriteData(env: Env, isFile: bool, className: string, ps: Properties, p: Path, vfs: V.Vfs) returns (r: Option<Path>)
    modifies vfs
    ensures env.keepsData(isFile, className, ps) ==> r == Some(p) && vfs.entries == old(vfs.entries)[p := V.File(ps)]
    ensures !env.keepsData(isFile, className, ps) ==> r == None && vfs.entries == old(vfs.entries)
  {
    if env.keepsData(isFile, className, ps) {
      vfs.Write(p, ps);
      r := Some(p);
    } else {
      r := None;
    }
  }
}
