/**
 * Project files as the write-back processor sees them: a tree of `ProjectNode`s addressed by
 * node paths, loaded from and saved to a store of project files.
 */
module Project {
  import opened Wrappers
  import opened Paths
  import opened Dom

  /** One node of a project tree; `tree` holds its children by name. */
  datatype ProjectNode = ProjectNode(
    className: Option<string>,
    properties: Properties,
    tags: seq<string>,
    attributes: Option<Properties>,
    keepUnknowns: Option<bool>,
    path: Option<Path>,
    tree: map<string, ProjectNode>)

  /** `ProjectNode::default()`. */
  function EmptyNode(): (r: ProjectNode)
    ensures r.className.None? && r.properties == map[] && r.tags == []
    ensures r.attributes.None? && r.keepUnknowns.None? && r.path.None? && r.tree == map[]
  {
    ProjectNode(None, map[], [], None, None, None, map[])
  }

  /** A node's position: the names leading to it from the root. */
  type NodePath = seq<string>

  /** `find_node_by_path`: the node at `np`, if every name on the way exists. */
  function Find(root: ProjectNode, np: NodePath): (r: Option<ProjectNode>)
    ensures np == [] ==> r == Some(root)
    decreases np
  {
    if np == [] then Some(root)
    else if np[0] in root.tree then Find(root.tree[np[0]], np[1..])
    else None
  }

  /** The tree with the node at `np` replaced by `n`: the write-back of a `find_node_by_path` borrow. */
  function Put(root: ProjectNode, np: NodePath, n: ProjectNode): (r: ProjectNode)
    requires Find(root, np).Some?
    ensures Find(r, np) == Some(n)
    decreases np
  {
    if np == [] then n
    else root.(tree := root.tree[np[0] := Put(root.tree[np[0]], np[1..], n)])
  }

  /** Neither path extends the other. */
  predicate Apart(a: NodePath, b: NodePath)
  {
    exists i | 0 <= i < |a| && i < |b| :: a[i] != b[i]
  }

  /** Replacing one node leaves every node on a diverging path as it was. */
  lemma {:induction false} PutKeepsApart(root: ProjectNode, np: NodePath, n: ProjectNode, q: NodePath)
    requires Find(root, np).Some? && Apart(np, q)
    ensures Find(Put(root, np, n), q) == Find(root, q)
    decreases np
  {
    var i :| 0 <= i < |np| && i < |q| && np[i] != q[i];
    if np[0] != q[0] {
      assert q[0] in Put(root, np, n).tree <==> q[0] in root.tree;
      assert q[0] in root.tree ==> Put(root, np, n).tree[q[0]] == root.tree[q[0]];
    } else {
      assert i > 0;
      assert Apart(np[1..], q[1..]) by {
        assert np[1..][i - 1] != q[1..][i - 1];
      }
      PutKeepsApart(root.tree[np[0]], np[1..], n, q[1..]);
    }
  }

  /** Looking one name further down is a lookup in the children of the node found so far. */
  lemma {:induction false} FindAppend(root: ProjectNode, np: NodePath, k: string)
    ensures Find(root, np + [k]) ==
      match Find(root, np)
      case None => None
      case Some(n) => if k in n.tree then Some(n.tree[k]) else None
    decreases np
  {
    if np == [] {
      assert [] + [k] == [k];
      assert [k][1..] == [];
    } else {
      assert (np + [k])[0] == np[0];
      assert (np + [k])[1..] == np[1..] + [k];
      if np[0] in root.tree {
        FindAppend(root.tree[np[0]], np[1..], k);
      }
    }
  }

  /** Project files on disk, each holding the root of its node tree. */
  class Projects {
    var files: map<Path, ProjectNode>
    /** How many times a project file was read and written. */
    ghost var loads: nat
    ghost var saves: nat

    constructor (files: map<Path, ProjectNode>)
      ensures this.files == files && loads == 0 && saves == 0
    {
      this.files := files;
      loads := 0;
      saves := 0;
    }

    /** `Project::load`: fails when no project file exists at `p`. */
    method Load(p: Path) returns (r: Result<ProjectNode>)
      modifies this`loads
      ensures loads == old(loads) + 1
      ensures r.Ok? <==> p in files
      ensures r.Ok? ==> r.value == files[p]
    {
      loads := loads + 1;
      if p !in files {
        return Err("failed to load project");
      }
      r := Ok(files[p]);
    }

    /** `Project::save`. */
    method Save(p: Path, root: ProjectNode)
      modifies this`files, this`saves
      ensures files == old(files)[p := root] && saves == old(saves) + 1
    {
      files := files[p := root];
      saves := saves + 1;
    }
  }
}
