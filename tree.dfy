/**
 * The instance tree the processor keeps in step with the file system: an arena of nodes keyed
 * by reference, each with its instance (name, class, properties, parent, children) and its meta.
 */
module Tree {
  import opened Wrappers
  import opened Dom
  import opened Sources

  datatype Instance = Instance(
    name: string, className: string, properties: Properties, parent: Option<Ref>, children: seq<Ref>)

  datatype TreeNode = TreeNode(instance: Instance, meta: NodeMeta)

  type Nodes = map<Ref, TreeNode>

  /** The arena after `insert_instance_with_ref`: a childless node `id` appended to `parent`'s children. */
  function Inserted(nodes: Nodes, id: Ref, name: string, className: string, ps: Properties, meta: NodeMeta, parent: Ref): (r: Nodes)
    requires parent in nodes && id !in nodes
    ensures r.Keys == nodes.Keys + {id}
    ensures r[id] == TreeNode(Instance(name, className, ps, Some(parent), []), meta)
    ensures r[parent].instance.children == nodes[parent].instance.children + [id]
    ensures r[parent] == nodes[parent].(instance := r[parent].instance)
    ensures r[parent].instance == nodes[parent].instance.(children := r[parent].instance.children)
    ensures forall k | k in nodes && k != parent :: r[k] == nodes[k]
  {
    var p := nodes[parent];
    nodes[parent := p.(instance := p.instance.(children := p.instance.children + [id]))]
         [id := TreeNode(Instance(name, className, ps, Some(parent), []), meta)]
  }

  /** `children` without `id`. */
  function Without(children: seq<Ref>, id: Ref): (r: seq<Ref>)
    ensures forall k :: k in r <==> k in children && k != id
  {
    if children == [] then []
    else (if children[0] == id then [] else [children[0]]) + Without(children[1..], id)
  }

  /** The arena after `remove_instance`: `id` is gone and no longer listed by its parent. */
  function Detached(nodes: Nodes, id: Ref): (r: Nodes)
    requires id in nodes
    ensures r.Keys == nodes.Keys - {id}
    ensures forall k | k in r && Some(k) != nodes[id].instance.parent :: r[k] == nodes[k]
    // the parent loses `id` from its children, and nothing else of it changes
    ensures forall k | k in r && Some(k) == nodes[id].instance.parent ::
              r[k] == nodes[k].(instance := nodes[k].instance.(children := Without(nodes[k].instance.children, id)))
  {
    var rest := nodes - {id};
    match nodes[id].instance.parent
    case Some(q) =>
      if q in rest then
        rest[q := rest[q].(instance := rest[q].instance.(children := Without(rest[q].instance.children, id)))]
      else rest
    case None => rest
  }

  class Tree {
    var nodes: Nodes

    constructor (nodes: Nodes)
      ensures this.nodes == nodes
    {
      this.nodes := nodes;
    }

    /** `insert_instance_with_ref`: the reference must be new and the parent present. */
    method Insert(id: Ref, name: string, className: string, ps: Properties, meta: NodeMeta, parent: Ref)
      requires parent in nodes && id !in nodes
      modifies this
      ensures nodes == Inserted(old(nodes), id, name, className, ps, meta, parent)
    {
      nodes := Inserted(nodes, id, name, className, ps, meta, parent);
    }

    /** `update_meta`. */
    method UpdateMeta(id: Ref, meta: NodeMeta)
      requires id in nodes
      modifies this
      ensures nodes == old(nodes)[id := old(nodes)[id].(meta := meta)]
    {
      nodes := nodes[id := nodes[id].(meta := meta)];
    }

    /** Assigns `instance.name`. */
    method SetName(id: Ref, name: string)
      requires id in nodes
      modifies this
      ensures nodes == old(nodes)[id := old(nodes)[id].(instance := old(nodes)[id].instance.(name := name))]
    {
      nodes := nodes[id := nodes[id].(instance := nodes[id].instance.(name := name))];
    }

    /** Assigns `instance.properties`. */
    method SetProperties(id: Ref, ps: Properties)
      requires id in nodes
      modifies this
      ensures nodes == old(nodes)[id := old(nodes)[id].(instance := old(nodes)[id].instance.(properties := ps))]
    {
      nodes := nodes[id := nodes[id].(instance := nodes[id].instance.(properties := ps))];
    }

    /** `remove_instance`. */
    method RemoveInstance(id: Ref)
      requires id in nodes
      modifies this
      ensures nodes == Detached(old(nodes), id)
    {
      nodes := Detached(nodes, id);
    }
  }
}
