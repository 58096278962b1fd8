/**
 * The Snapshot of src/core/snapshot.rs: a description of one instance subtree as built from
 * one side, with builder methods (`with_*`, consuming and handing back the snapshot) and
 * in-place setters.
 */
module Snapshot {
  import opened Wrappers
  import opened Paths
  import opened Dom
  import M = Meta

  class Snapshot {
    var id: Option<Ref>
    var fileType: Option<M.FileType>
    var meta: M.Meta?
    var path: Option<Path>
    var name: string
    var className: string
    var properties: Properties
    var children: seq<Snapshot>

    /** `Snapshot::new`: a `Folder` with the given name and nothing else. */
    constructor (name: string)
      ensures this.name == name && className == "Folder"
      ensures properties == map[] && children == []
      ensures id == None && fileType == None && meta == null && path == None
    {
      this.id := None;
      this.fileType := None;
      this.meta := null;
      this.path := None;
      this.name := name;
      this.className := "Folder";
      this.properties := map[];
      this.children := [];
    }

    method SetId(id: Ref)
      modifies this`id
      ensures this.id == Some(id)
    {
      this.id := Some(id);
    }

    method SetFileType(fileType: M.FileType)
      modifies this`fileType
      ensures this.fileType == Some(fileType)
    {
      this.fileType := Some(fileType);
    }

    method SetMeta(meta: M.Meta)
      modifies this`meta
      ensures this.meta == meta
    {
      this.meta := meta;
    }

    method SetPath(path: Path)
      modifies this`path
      ensures this.path == Some(path)
    {
      this.path := Some(path);
    }

    method SetName(name: string)
      modifies this`name
      ensures this.name == name
    {
      this.name := name;
    }

    method SetClass(className: string)
      modifies this`className
      ensures this.className == className
    {
      this.className := className;
    }

    method SetProperties(properties: Properties)
      modifies this`properties
      ensures this.properties == properties
    {
      this.properties := properties;
    }

    method SetChildren(children: seq<Snapshot>)
      modifies this`children
      ensures this.children == children
    {
      this.children := children;
    }

    method WithId(id: Ref) returns (r: Snapshot)
      modifies this`id
      ensures r == this && this.id == Some(id)
    {
      SetId(id);
      r := this;
    }

    method WithFileType(fileType: M.FileType) returns (r: Snapshot)
      modifies this`fileType
      ensures r == this && this.fileType == Some(fileType)
    {
      SetFileType(fileType);
      r := this;
    }

    method WithMeta(meta: M.Meta) returns (r: Snapshot)
      modifies this`meta
      ensures r == this && this.meta == meta
    {
      SetMeta(meta);
      r := this;
    }

    method WithPath(path: Path) returns (r: Snapshot)
      modifies this`path
      ensures r == this && this.path == Some(path)
    {
      SetPath(path);
      r := this;
    }

    method WithName(name: string) returns (r: Snapshot)
      modifies this`name
      ensures r == this && this.name == name
    {
      SetName(name);
      r := this;
    }

    method WithClass(className: string) returns (r: Snapshot)
      modifies this`className
      ensures r == this && this.className == className
    {
      SetClass(className);
      r := this;
    }

    method WithProperties(properties: Properties) returns (r: Snapshot)
      modifies this`properties
      ensures r == this && this.properties == properties
    {
      SetProperties(properties);
      r := this;
    }

    method WithChildren(children: seq<Snapshot>) returns (r: Snapshot)
      modifies this`children
      ensures r == this && this.children == children
    {
      SetChildren(children);
      r := this;
    }

    /** Inserts one property, overwriting a property of the same name. */
    method AddProperty(key: string, value: Variant)
      modifies this`properties
      ensures properties.Keys == old(properties).Keys + {key}
      ensures properties[key] == value
      ensures forall k | k in old(properties) && k != key :: properties[k] == old(properties)[k]
    {
      properties := properties[key := value];
    }

    /** Appends a child after the existing ones. */
    method AddChild(child: Snapshot)
      modifies this`children
      ensures |children| == |old(children)| + 1
      ensures children[..|old(children)|] == old(children) && children[|old(children)|] == child
    {
      children := children + [child];
    }

    /** Merges a property map in: incoming names win, every other existing name is kept. */
    method ExtendProperties(incoming: Properties)
      modifies this`properties
      ensures properties.Keys == old(properties).Keys + incoming.Keys
      ensures forall k | k in incoming :: properties[k] == incoming[k]
      ensures forall k | k in old(properties) && k !in incoming :: properties[k] == old(properties)[k]
    {
      properties := properties + incoming;
    }

    /** Appends children after the existing ones, in their given order. */
    method ExtendChildren(more: seq<Snapshot>)
      modifies this`children
      ensures |children| == |old(children)| + |more|
      ensures children[..|old(children)|] == old(children) && children[|old(children)|..] == more
    {
      children := children + more;
    }

    /** Extends the snapshot's Meta when it has one, and otherwise takes the given Meta. */
    method ExtendMeta(incoming: M.Meta)
      modifies this`meta, meta
      ensures old(meta) == null ==> meta == incoming
      ensures old(meta) != null ==>
        && meta == old(meta)
        && meta.syncRules == old(meta.syncRules) + old(incoming.syncRules)
        && meta.ignoreGlobs == old(meta.ignoreGlobs) + old(incoming.ignoreGlobs)
        && meta.projectData == if old(incoming.projectData).Some? then old(incoming.projectData)
                               else old(meta.projectData)
    {
      if meta != null {
        meta.Extend(incoming);
      } else {
        meta := incoming;
      }
    }

    /**
     * Applies a pinpoint override: only when `source` carries project data that applies to
     * exactly `at`; then the name is set, the class only if given, and the properties merged.
     */
    method ApplyProjectData(source: M.Meta, at: Path) returns (r: Snapshot)
      modifies this`name, this`className, this`properties
      ensures r == this
      ensures source.projectData.None? || at != source.projectData.value.appliesTo ==>
        name == old(name) && className == old(className) && properties == old(properties)
      ensures source.projectData.Some? && at == source.projectData.value.appliesTo ==>
        var data := source.projectData.value;
        && name == data.name
        && className == (match data.className case Some(c) => c case None => old(className))
        && properties == (match data.properties case Some(ps) => old(properties) + ps case None => old(properties))
    {
      if source.projectData.Some? {
        var data := source.projectData.value;
        if at != data.appliesTo {
          return this;
        }
        SetName(data.name);
        if data.className.Some? {
          SetClass(data.className.value);
        }
        if data.properties.Some? {
          ExtendProperties(data.properties.value);
        }
      }
      r := this;
    }
  }
}
