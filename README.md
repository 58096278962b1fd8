# Argon sync engine, modelled in Dafny

Argon keeps a Roblox instance tree and a folder of source files in step. This project models
the core of that engine:

- **Write-back processor** (`src/core/processor/write.rs`). It applies a change the Studio
  client sends — an added subtree, an updated instance, a removed instance — to the instance
  tree and to the file system, or to the project file that defines the instance. The three
  operations are `apply_addition`, `apply_update` and `apply_removal`, each split on the
  source kind of the node concerned:
  - `Path`: a plain file or folder;
  - `Project`: a node of a `*.project.json` file, with or without a `$path` redirect;
  - `None`.

  Addition turns a file-backed parent into a folder first (promotion). Removal turns a folder
  left with no children back into a file (demotion).
- **Sync rules and `Meta`** (`src/core/meta.rs`): rule matching and name derivation, the
  append-style `extend`, and the default rule table.
- **`Snapshot`** (`src/core/snapshot.rs`): the instance description with its builders and
  setters.
- **Directory walk** (`src/middleware/dir.rs`).
- **Output-path resolution of `argon build`** (`src/cli/build.rs`).
- **Workspace helpers and the `init` template plan** (`src/workspace.rs`).

Modules:

- `Paths` holds paths as lists of components, plus the string helpers the source uses:
  `file_name`, `file_stem`, `extension`, `with_file_name`, `strip_suffix` and an exact
  `str::replace`.
- `Vfs` is the file system: a class whose map from paths to entries is changed by `rename`
  (moves a whole subtree), `remove` (deletes a subtree) and `write`.
- `Tree` is the instance arena: a class over a map from references to nodes.
- `Project` holds project-file node trees and the store that loads and saves them.
- `Sources` holds the `Source`/`SourceEntry`/`SourceKind` values and the node meta that
  `write.rs` works with. It also holds `Env`, the collaborators whose code is not part of this
  model, passed in as total functions:
  - glob matching;
  - `SyncRule::locate`;
  - `Middleware::from_class`;
  - `verify_name`;
  - `validate_properties` and `serialize_properties`;
  - which properties a middleware file holds natively;
  - whether `write_data` keeps a data file.
- `Addition`, `Update` and `Removal` model the three processor operations. Each is a method
  proved against a specification function or an outcome predicate. Lemmas beside them state
  what the source promises.

## Model

| member | source | states |
|---|---|---|
| Addition.WriteInstance | src/core/processor/write.rs:75-175 | The result and the file system left behind are exactly those `Written` gives. A bad name writes nothing and gives `None`. With a middleware, a taken or filtered folder or file path gives `None` with nothing written, except that a file filtered after its folder was created leaves that empty folder. Otherwise the folder (when there are children) and the file holding the native properties are written. Leftover properties go to the data file unless its path is filtered. Without a middleware, a folder is written, with a data file when it is kept; no data location is an error. |
| Addition.WrittenOutcome | src/core/processor/write.rs:75-175 | On every branch the write only adds paths. `None` leaves the file system as it was, or with just the instance's folder added. A written instance keeps its own meta with the parent's context, and its `Path` source names a path that now exists. |
| Addition.FileInstanceOutcome | src/core/processor/write.rs:91-143 | The same, for an instance whose class has a middleware: its source path is the folder or the file that was written. |
| Addition.FolderInstanceOutcome | src/core/processor/write.rs:144-172 | The same, for an instance written as a folder: its source path is that folder. |
| Addition.PromotionFolder | src/core/processor/write.rs:189-197 | The promoted folder exists exactly when some rule matches the parent file; it is named by the first such rule's `get_name` and sits beside the file. |
| Addition.PlanPromotion | src/core/processor/write.rs:188-219 | A promotion fails without a matching rule or a location. Otherwise the body file goes where the rule's `locate(folder, name, true)` puts it, and the data file moves exactly when the source lists one, to the first InstanceData location. |
| Addition.PromotedSource | src/core/processor/write.rs:221-229 | The promoted source is a `Path` source on the folder, whose folder, file and data entries are the new folder, the body file and the moved data file. |
| Addition.PromotionMovesBody | src/core/processor/write.rs:223-224 | After promotion the parent's file content sits at the body path inside the new folder, the folder exists, and nothing is left at the old path. |
| Addition.PromotingOutcome | src/core/processor/write.rs:188-236 | The promotion is `NotAFile` exactly when the parent path is not a file, and then, as when `Blocked`, nothing changes. A promotion that went through created the planned folder, which did not exist before, and gives `PromotedSource` of the plan. |
| Addition.ParentSourceAfter | src/core/processor/write.rs:186-238 | The parent's returned source is its old one unless a promotion went through, in which case it is `PromotedSource` of the plan. |
| Addition.Promote | src/core/processor/write.rs:188-236 | The outcome and the file system left behind are exactly those `Promoting` gives. A parent that is not a file is left alone. A folder that already exists blocks the promotion, with nothing renamed. Otherwise the folder is created and the body moved (then the data file), the source is `PromotedSource`, and every failure, including a missing data file, is an error. |
| Addition.AddingNonProject | src/core/processor/write.rs:177-260 | `add_non_project_instances` on the tree and the file system together. A failed or blocked promotion adds nothing. Otherwise `s` is added at the parent's (possibly new) folder, from the promotion's file system. The parent stays in the tree, and the only new nodes are those of the subtree. |
| Addition.AddingBelow | src/core/processor/write.rs:238-257 | The instance is written, then inserted with the meta the write gave it, then its children are added. An error or `None` from the write adds nothing. The only new nodes are those of the subtree. |
| Addition.AddingChildren | src/core/processor/write.rs:251-256 | The children from the `i`-th on, each with validated properties, are added in order below the node, each as `add_non_project_instances`, and the first failure stops the loop. The node stays, and only nodes of the children's subtrees are new. |
| Addition.AddNonProject | src/core/processor/write.rs:177-260 | The result, the tree and the file system are exactly those `AddingNonProject` gives, children included. The tree grows by the subtree under the parent, or stays the same when skipped, and every other node is untouched. On success the returned source is the promoted one, or the old one. |
| Addition.AddBelow | src/core/processor/write.rs:238-257 | The result, the tree and the file system are exactly those `AddingBelow` gives: the write, the insert, then the children. The subtree is inserted below the parent with its name, class and properties, and the parent's meta is kept. |
| Addition.AddChildren | src/core/processor/write.rs:251-256 | The loop's result, tree and file system are exactly those `AddingChildren` gives from the first child. Only nodes of the children's subtrees are new, and the node's own meta is kept. |
| Addition.ChildNodes | src/core/processor/write.rs:294-299 | A project node's children are keyed by the child names; of two children with one name, the later one's node is kept. |
| Addition.AddProjectInstances | src/core/processor/write.rs:262-300 | Returns the project node built for the snapshot: class, serialized properties, `keep_unknowns` only when asked, one child node per name. Every instance of the subtree is inserted directly under the original parent, in pre-order, and the parent's children list grows by exactly that order. |
| Addition.AddProjectChildren | src/core/processor/write.rs:292-297 | Each child's node nests under its parent's node, while its instance is inserted under the original parent. |
| Addition.WithChild | src/core/processor/write.rs:299 | After the insert, the node under `np` with the child's name is the child's node, and every project node on a diverging path is unchanged. |
| Addition.ProjectAdditionNode | src/core/processor/write.rs:271-299 | A child added into a project file has its class, its serialized properties, `keep_unknowns == Some(true)` exactly when its meta requests it, and one child node per distinct child name. |
| Addition.GrownRemeta | src/core/processor/write.rs:306-307 | Storing the parent's new meta after the additions keeps the added subtree intact. |
| Addition.Remeta | src/core/processor/write.rs:306-307 | Resetting the parent's meta changes only that meta. |
| Addition.NonProjectAtFrom | src/core/processor/write.rs:303-321 | Setting the parent's meta after `add_non_project_instances`, on the `Path` arm or at a `$path` redirect, keeps the added subtree and what that call did to the tree and the file system. |
| Addition.AddToPath | src/core/processor/write.rs:303-308 | On the `Path` arm, the tree (with the parent's meta set back) and the file system are exactly those `AddingNonProject` gives at the parent's path, and the call succeeds exactly when that does. The parent's meta becomes its meta with the returned source on success, and is kept on failure. |
| Addition.RedirectSource | src/core/processor/write.rs:317-318 | A `$path` node keeps its project source kind and takes the relevant entries of the source returned for its redirect. |
| Addition.AddToRedirect | src/core/processor/write.rs:310-320 | On a `$path` project node, the tree (with the parent's meta set back) and the file system are exactly those `AddingNonProject` gives at the redirect, and the call succeeds exactly when that does. On success the parent keeps its project source and takes its own relevant entries, or those of the promoted source after a promotion of the redirect; on failure its meta is kept. |
| Addition.AddToProject | src/core/processor/write.rs:321-331 | The project is loaded once. The call succeeds exactly when the project file and the parent node exist; the project then gains the child's node and is saved once, and the subtree is spread under the parent. On failure nothing is saved and the tree is unchanged. |
| Addition.ApplyAddition | src/core/processor/write.rs:52-340 | A missing parent, or a filtered name or class, changes nothing. Otherwise the outcome, in the tree, the file system and the project files, is that of the arm for the parent's source kind. A parent without a source is excluded by the precondition, which stands for the panic. |
| Update.LocateInstanceData | src/core/processor/write.rs:370-385 | The data file already in the source, or else the location given by the first InstanceData rule, in the meta's rule order, that locates anything; `None` exactly when no such rule locates one. |
| Update.MiddlewareWritten | src/core/processor/write.rs:403-429 | Writing through a middleware changes only the meta's source, which keeps its kind. |
| Update.FileWritten | src/core/processor/write.rs:420-426 | Writing a located file, and then its data file, changes only the meta's source, which keeps its kind. |
| Update.DataWritten | src/core/processor/write.rs:430-433 | Writing the data file alone changes only the meta's source, which keeps its kind. |
| Update.PropertiesWritten | src/core/processor/write.rs:387-438 | A filtered path changes nothing. Otherwise the validated properties become the instance's and no other node changes. The source keeps its kind and the rest of the meta is untouched. |
| Update.MiddlewareWritesFiles | src/core/processor/write.rs:403-429 | The middleware branch keeps every entry and only adds or changes files. The file the source lists is written. With no file listed and none located, nothing is written and the meta is kept. |
| Update.FileWritesFiles | src/core/processor/write.rs:420-426 | Writing the file and its data file keeps every entry and only adds or changes files. The middleware's file is there afterwards as a file. |
| Update.DataWritesFiles | src/core/processor/write.rs:430-433 | Writing the data file alone keeps every entry and only adds or changes files. With no data file located, nothing changes. |
| Update.PropertiesWriteOnlyFiles | src/core/processor/write.rs:387-438 | Writing properties keeps every entry of the file system. Every entry it adds or changes is a file, never a folder. |
| Update.WriteThroughMiddleware | src/core/processor/write.rs:403-429 | The meta and the file system after the call are exactly `MiddlewareWritten`. That includes recording a newly located file in the source, and writing nothing when no file is located. |
| Update.WriteFileAndData | src/core/processor/write.rs:420-426 | The meta and the file system after the call are exactly `FileWritten`. |
| Update.WriteDataOnly | src/core/processor/write.rs:430-433 | The meta and the file system after the call are exactly `DataWritten`. |
| Update.UpdateProperties | src/core/processor/write.rs:387-438 | The node's meta, the tree and the file system after the call are exactly `PropertiesWritten`. |
| Update.Target | src/core/processor/write.rs:476-477 | A renamed entry stays in its folder, and its file name has every occurrence of the old name replaced by the new one. |
| Update.RenamedEntry | src/core/processor/write.rs:473-488 | An entry that is not a file or data entry, or whose old and new paths are both filtered, stays. Any other entry moves to `Target` and keeps its kind. |
| Update.RenamedEntries | src/core/processor/write.rs:473-489 | After a finished cascade, each entry, position by position, is its `RenamedEntry`. |
| Update.RenameEntry | src/core/processor/write.rs:474-488 | An entry that stays succeeds and changes nothing. Any other entry's rename succeeds exactly when its path exists, and moves its subtree to `Target`; a failure changes nothing. |
| Update.RenameEntries | src/core/processor/write.rs:472-490 | The loop renames entries in order. The file system it leaves, and whether it finished, are exactly `Cascade`; when it finished, the entries are `RenamedEntries`. |
| Update.SourceRenamed | src/core/processor/write.rs:461-490 | A folder source renames only the folder, to the new name itself, and leaves its file and data entries unrewritten. Otherwise the cascade runs over the entries. The kind and the number of entries are kept. |
| Update.CascadeSameName | src/core/processor/write.rs:472-490 | Renaming to the same name moves nothing; it fails exactly when an unfiltered file or data entry is missing. |
| Update.RenameSource | src/core/processor/write.rs:461-490 | The rename step's outcome and file system are exactly `SourceRenamed`. |
| Update.RenameAtPath | src/core/processor/write.rs:447-493 | A bad name or a taken new path returns `Ok` with nothing renamed and no meta saved. Otherwise the source points at the new path, its entries are renamed, the instance takes the new name, and the meta is saved. |
| Update.UpdateAtPath | src/core/processor/write.rs:441-506 | On the `Path` arm, properties are written first. Then the name step runs, with the outcome `PathUpdated`. |
| Update.PropertiesBeforeRename | src/core/processor/write.rs:442-447 | However the rename ends, the validated properties are already the instance's. |
| Update.EarlyReturnKeepsMeta | src/core/processor/write.rs:448-459 | A bad name or a taken path ends the update with `Ok`. The node keeps its old meta and name even though its properties were written; no other node changes. |
| Update.ReplaceEveryOccurrence | src/core/processor/write.rs:453 | Renaming `Foo` to `Bar` turns `Foo.Foo.lua` into `Bar.Bar.lua`: every occurrence is replaced. |
| Update.Cleared | src/core/processor/write.rs:520-523 | A `$path` node that took new properties has empty properties, tags, attributes and `keep_unknowns`. Class, path and children are kept. |
| Update.Serialized | src/core/processor/write.rs:529-534 | A project node's properties are serialized for its class, or else its name. Tags and `keep_unknowns` are emptied; the other fields are kept. |
| Update.RenamedChild | src/core/processor/write.rs:542-551 | The node moves unchanged from the old key to the new key under its parent; the old key is gone (when the keys differ); diverging paths are unchanged. |
| Update.ProjectPropsStep | src/core/processor/write.rs:510-538 | A `$path` node writes the properties at the redirect and is cleared. Any other node stores them serialized and leaves the file system and the meta as they were. A failed step leaves the project as loaded. |
| Update.UpdateProjectProps | src/core/processor/write.rs:510-538 | The outcome is exactly `ProjectPropsStep`. |
| Update.UpdateInProject | src/core/processor/write.rs:507-572 | The project is loaded once. After the properties step a name change moves the node and repoints the source. The meta and the project are saved (once) only when every step went on. |
| Update.SaveProjectUpdate | src/core/processor/write.rs:540-561 | The end of the `Project` arm is exactly `ProjectSaved`. A missing parent node fails with nothing saved. Otherwise the node is renamed when a name is given, and the meta and the project are saved once. |
| Update.ProjectRenameMovesNode | src/core/processor/write.rs:541-558 | After a project rename, the node sits under the same parent at the new key and the old key is gone. |
| Update.ApplyUpdate | src/core/processor/write.rs:342-577 | A missing instance, or a filtered current or new name or class, changes nothing. Otherwise the outcome is that of the `Path` or the `Project` arm. A class or meta change, and a missing source, are excluded by the precondition, which stands for the `unreachable!`/`panic!`. |
| Removal.Swept | src/core/processor/write.rs:599-614 | Only removals happen, and no entry changes content. Every existing, unfiltered entry that is not a project file is gone, with everything under it. |
| Removal.RemoveEntries | src/core/processor/write.rs:599-614 | The loop leaves exactly the `Swept` file system. |
| Removal.PlanDemotion | src/core/processor/write.rs:628-641 | A demotion needs a `Path` source with a file entry: the body file is that entry, and the data file moves from the listed data entry. |
| Removal.DemotedSource | src/core/processor/write.rs:643-659 | The demoted source is `Source::file(target)`, with no folder entry, plus the moved data file when one was located. |
| Removal.DemotionMovesBody | src/core/processor/write.rs:642-658 | The body file's content ends up at the target, and nothing is left under the folder. |
| Removal.Demote | src/core/processor/write.rs:628-662 | Without a plan nothing changes. Otherwise the file system is exactly `Demoted`; on success the parent's source becomes `DemotedSource`, and on failure the tree is unchanged. |
| Removal.NonProjectRemoval | src/core/processor/write.rs:596-665 | Only the parent node can change, and no node is added or dropped. |
| Removal.RemoveNonProject | src/core/processor/write.rs:596-665 | The outcome, tree and file system are exactly `NonProjectRemoval`. |
| Removal.RemovedChild | src/core/processor/write.rs:671-677 | The child key is gone from the parent node; diverging paths are unchanged. |
| Removal.RemoveFromProject | src/core/processor/write.rs:669-684 | The project is loaded once and saved at most once. The result is the `ProjectRemoved` outcome: removing the node from its parent fails when either is missing, and a `$path` node also has its files removed. |
| Removal.RemoveAtPath | src/core/processor/write.rs:668-688 | The files are removed as `NonProjectRemoval` says, and the instance is then detached. |
| Removal.ApplyRemoval | src/core/processor/write.rs:579-691 | A missing instance, or a filtered name or class, changes nothing. Otherwise the arm for the source kind runs and the instance is detached last. |
| Removal.RemovalDetaches | src/core/processor/write.rs:688 | The removed instance is gone from the tree and from its parent's children list. |
| Removal.DemotionUndoesPromotion | src/core/processor/write.rs:221-233 | Demoting a freshly promoted leaf parent (no data file) gives back exactly the file system it had before the promotion. |
| Removal.RoundTrip | src/core/processor/write.rs:642-658 | Promotion then demotion is the identity on the entries. |
| Meta.SyncRule.GetName | src/core/meta.rs:59-66 | With a suffix that the file name ends in, the name plus the suffix is the file name. With a suffix it does not end in, the name is the whole file name. Without a suffix, the name is the file stem. |
| Meta.SyncRule.Resolve | src/core/meta.rs:68-80 | `Some` exactly when the rule matches. It then carries the rule's file type, the path unchanged and `get_name`. |
| Meta.SyncRule.ResolveChild | src/core/meta.rs:82-103 | `Some` exactly when there is a child pattern, a first match exists and it is not excluded. The name is then that of the folder holding the matched file. |
| Meta.FindRule | src/core/meta.rs:272-290 | The first rule satisfying the test: it satisfies it, no earlier one does, and `None` only when none does. |
| Meta.DefaultRules | src/core/meta.rs:273-290 | The default table has 14 rules. The Project and InstanceData rules have no pattern and never match a path. Every other rule has a pattern and no exclude, and every rule has a child pattern. |
| Meta.ServerScriptRuleWins | src/core/meta.rs:277-279 | A `*.server.lua` file also matches `*.lua`. The first matching rule is still the server-script rule, and the name drops `.server.lua`. |
| Meta.JsonRuleKeepsName | src/core/meta.rs:286 | `Config.json` matches the JSON rule and keeps its whole file name as its name; `Foo.data.json` is named `Foo`. |
| Meta.Meta.constructor | src/core/meta.rs:143-149 | `Meta::new` is empty: no rules, globs or project data. |
| Meta.Meta.Default | src/core/meta.rs:271-297 | `Meta::default` has the default rules, no globs, no project data, and is not empty. |
| Meta.Meta.FromProject | src/core/meta.rs:151-157 | The project's rules, or else the default ones; its globs, or else none; project data always `None`. |
| Meta.Meta.SetSyncRules | src/core/meta.rs:176-178 | Only the rules change. |
| Meta.Meta.SetIgnoreGlobs | src/core/meta.rs:180-182 | Only the globs change. |
| Meta.Meta.SetProjectData | src/core/meta.rs:184-186 | Only the project data changes. |
| Meta.Meta.WithSyncRules | src/core/meta.rs:159-162 | The same Meta comes back, with only its rules changed. |
| Meta.Meta.WithIgnoreGlobs | src/core/meta.rs:164-167 | The same Meta comes back, with only its globs changed. |
| Meta.Meta.WithProjectData | src/core/meta.rs:169-172 | The same Meta comes back, with only its project data changed. |
| Meta.Meta.AddSyncRule | src/core/meta.rs:190-192 | The rule is appended after the existing ones. |
| Meta.Meta.AddIgnoreGlob | src/core/meta.rs:194-196 | The glob is appended after the existing ones. |
| Meta.Meta.ExtendSyncRules | src/core/meta.rs:200-202 | The rules are appended in order. |
| Meta.Meta.ExtendIgnoreGlobs | src/core/meta.rs:204-206 | The globs are appended in order. |
| Meta.Meta.Extend | src/core/meta.rs:208-215 | The other Meta's rules and globs follow this one's, in order. Its project data replaces this one's only when present. |
| Snapshot.Snapshot.constructor | src/core/snapshot.rs:30-41 | A new snapshot has the name, class `Folder`, no properties or children, and no id, file type, meta or path. |
| Snapshot.Snapshot.SetId | src/core/snapshot.rs:85-87 | Only the id changes. |
| Snapshot.Snapshot.SetFileType | src/core/snapshot.rs:89-91 | Only the file type changes. |
| Snapshot.Snapshot.SetMeta | src/core/snapshot.rs:93-95 | Only the meta changes. |
| Snapshot.Snapshot.SetPath | src/core/snapshot.rs:97-99 | Only the path changes. |
| Snapshot.Snapshot.SetName | src/core/snapshot.rs:101-103 | Only the name changes. |
| Snapshot.Snapshot.SetClass | src/core/snapshot.rs:105-107 | Only the class changes. |
| Snapshot.Snapshot.SetProperties | src/core/snapshot.rs:109-111 | Only the properties change. |
| Snapshot.Snapshot.SetChildren | src/core/snapshot.rs:113-115 | Only the children change. |
| Snapshot.Snapshot.WithId | src/core/snapshot.rs:43-46 | The same snapshot comes back, with only its id changed. |
| Snapshot.Snapshot.WithFileType | src/core/snapshot.rs:48-51 | The same snapshot comes back, with only its file type changed. |
| Snapshot.Snapshot.WithMeta | src/core/snapshot.rs:53-56 | The same snapshot comes back, with only its meta changed. |
| Snapshot.Snapshot.WithPath | src/core/snapshot.rs:58-61 | The same snapshot comes back, with only its path changed. |
| Snapshot.Snapshot.WithName | src/core/snapshot.rs:63-66 | The same snapshot comes back, with only its name changed. |
| Snapshot.Snapshot.WithClass | src/core/snapshot.rs:68-71 | The same snapshot comes back, with only its class changed. |
| Snapshot.Snapshot.WithProperties | src/core/snapshot.rs:73-76 | The same snapshot comes back, with only its properties changed. |
| Snapshot.Snapshot.WithChildren | src/core/snapshot.rs:78-81 | The same snapshot comes back, with only its children changed. |
| Snapshot.Snapshot.AddProperty | src/core/snapshot.rs:119-121 | The key is added or overwritten; every other key keeps its value. |
| Snapshot.Snapshot.AddChild | src/core/snapshot.rs:123-125 | The child is appended at the end; the existing children keep their order. |
| Snapshot.Snapshot.ExtendProperties | src/core/snapshot.rs:129-131 | Incoming keys win; every other existing key keeps its value; no other key appears. |
| Snapshot.Snapshot.ExtendChildren | src/core/snapshot.rs:133-135 | The children are appended in order after the existing ones. |
| Snapshot.Snapshot.ExtendMeta | src/core/snapshot.rs:137-143 | An existing meta is extended as `Meta::extend` does; otherwise the given meta is taken. |
| Snapshot.Snapshot.ApplyProjectData | src/core/snapshot.rs:147-165 | Without project data, or at another path, nothing changes. Otherwise the name is set, the class only if one is given, and the properties are merged. |
| Dir.Children | src/middleware/dir.rs:16-20 | The walk collects at most one child per entry. |
| Dir.ChildrenAppend | src/middleware/dir.rs:16-20 | Walking two runs of entries collects the children of each, in order. |
| Dir.SkippedEntryIgnored | src/middleware/dir.rs:17 | An entry that yields `None` contributes nothing and leaves the other children in place. |
| Dir.ChildrenExactly | src/middleware/dir.rs:16-20 | Every child comes from some entry, and every entry's snapshot is among the children. |
| Dir.SnapshotDir | src/middleware/dir.rs:12-23 | Any error from `read_dir` or `new_snapshot` aborts with no snapshot. Otherwise the result is a new `Folder` named after the directory, at its path, whose children are exactly `Children` in `read_dir` order. |
| Build.DefaultFile | src/cli/build.rs:200-214 | `<name>.rbxlx` for a place with xml, `.rbxl` for a place, `.rbxmx` for a model with xml, `.rbxm` otherwise. |
| Build.ResolveTarget | src/cli/build.rs:77-130 | A plugin build fails exactly for a place project; otherwise it goes to `plugins/<name>.rbxm[x]`. A directory or extension-less output gets the default file inside it. An explicit extension forces the format. An unknown extension, or a place/model mismatch, is rejected. No output gives the default file name. Folders are created only for an output that is not a directory: the path itself when it has no extension, otherwise its parent when missing; either is the built file's folder. |
| Build.ExtensionMatchesProjectKind | src/cli/build.rs:98-117 | An accepted explicit extension is a place format exactly when the project is a place. |
| Workspace.GetDir | src/workspace.rs:161-166 | The project path with its final component removed. |
| Workspace.GetName | src/workspace.rs:168-173 | The final component of `get_dir`, which must exist. |
| Workspace.Disk.Write | src/workspace.rs:54 | Only the written file changes, to the given text. |
| Workspace.Disk.CreateDir | src/workspace.rs:99 | The directory is added. |
| Workspace.Render | src/workspace.rs:48-93 | `project.json` gets `$name` and `$src` substituted; `wally.toml` gets `$name` and `$author`. `.gitignore` is written only with git. README/CHANGELOG/LICENSE are written only with docs: README and CHANGELOG with `$name` replaced by the project name, LICENSE with `[yyyy]` replaced by the year and then `[owner]` by the author. Every other entry is copied verbatim. |
| Workspace.PlannedKeepsExisting | src/workspace.rs:44-46 | `init` never overwrites: every existing file is still there. |
| Workspace.PlannedWritesDestinations | src/workspace.rs:31-94 | Every added file is the destination of some template entry and holds that entry's rendered text. |
| Workspace.CopyTemplate | src/workspace.rs:31-94 | The loop over the template folder leaves the files exactly as `Planned`. |
| Workspace.Init | src/workspace.rs:16-103 | A missing template errors with nothing written. Otherwise the workspace folder is created if needed, the files become exactly the plan, and the source folder is created when absent. |
| Sources.FirstOf | src/core/processor/write.rs:404 | The index of the first entry of the kind: it is of that kind, no earlier one is, and `None` only when none is. |
| Sources.Get | src/core/processor/write.rs:404 | `get_file`/`get_data`/`get_folder` give `Some` exactly when an entry of that kind is listed, and then its path. |
| Sources.SetData | src/core/processor/write.rs:425 | The data entry becomes the given one, or disappears; every other entry and the kind are kept. |
| Sources.RulesOfType | src/core/processor/write.rs:161 | `sync_rules_of_type` keeps exactly the rules of that kind. |
| Sources.RulesOfTypeAppend | src/core/processor/write.rs:161 | Filtering keeps the order: the rules of a concatenation are the rules of each part, concatenated. |
| Sources.LocateOfTypeFirst | src/core/processor/write.rs:92-97 | `find_map` of `locate` over `sync_rules_of_type` gives the location of the first rule of that kind, in the original order, that locates anything; every earlier rule of that kind locates nothing. |
| Sources.Locate | src/core/processor/write.rs:92-97 | `find_map` of `locate`: `None` exactly when no rule locates, and otherwise the location of some rule. |
| Sources.PropertySplit | src/core/processor/write.rs:127-142 | Every property ends up either in the middleware's file or in the leftover for the data file, never in both. |
| Middleware.WriteFile | src/core/processor/write.rs:127 | The file holds the natively encoded properties, and the leftover is returned; together they are exactly the input properties. |
| Middleware.WriteData | src/core/processor/write.rs:169-170 | When a data file is kept, it is written and its path returned; otherwise nothing is written. |
| Project.EmptyNode | src/core/processor/write.rs:274 | `ProjectNode::default()` has no class, properties, tags, attributes, `keep_unknowns`, path or children. |
| Project.Find | src/core/processor/write.rs:324-326 | The empty node path finds the root. |
| Project.FindAppend | src/core/processor/write.rs:542-551 | Looking one name further down is a lookup among the children of the node found so far. |
| Project.Projects.Load | src/core/processor/write.rs:322 | Succeeds exactly when the project file exists, and returns its tree. |
| Project.Projects.Save | src/core/processor/write.rs:330 | The file's tree is replaced. |
| Tree.Inserted | src/core/processor/write.rs:244 | The new node is a childless instance under the parent, appended to the parent's children; no other node changes. |
| Tree.Detached | src/core/processor/write.rs:688 | The node is gone, and its parent no longer lists it but is otherwise unchanged; no other node changes. |
| Vfs.Vfs.Rename | src/core/processor/write.rs:224 | Succeeds exactly when the source exists; the whole subtree moves to the target. A missing source fails with `RenameMissing` and changes nothing. |
| Vfs.Vfs.Remove | src/core/processor/write.rs:609 | Succeeds exactly when the path exists; the path and everything under it are gone. |
| Vfs.Vfs.WriteDir | src/core/processor/write.rs:110 | The directory now exists. |
| Vfs.MovedTarget | src/core/processor/write.rs:224 | After a rename, the target holds exactly what the source held. |
| Vfs.MovedBelow | src/core/processor/write.rs:224 | Everything under the renamed path reappears, rebased, under the target with the same entry. |
| Vfs.MovedFrom | src/core/processor/write.rs:224 | Whatever lies under the target after a rename came from the same place under the source. |
| Vfs.Removed | src/core/processor/write.rs:609 | An entry survives exactly when it is not at or below the removed path. |
| Paths.ReplaceAbsent | src/core/processor/write.rs:476 | Without an occurrence of the old name, the rename leaves a file name as it is. |
| Paths.ReplaceIdentity | src/core/processor/write.rs:476 | Replacing a name by itself changes nothing. |
| Paths.StripSuffix | src/core/meta.rs:62 | `strip_suffix` succeeds exactly when the string ends in the suffix, and the result plus the suffix is the string. |

## Quirks of the source the model reproduces

- **Project children are spread, not nested.** All instances of an added project subtree are
  inserted directly under the original parent, while their project nodes nest by name
  (`AddProjectInstances`).
- **Early returns lose the meta.** When the new name is invalid or the new path exists, the
  `Path` arm of an update returns before `update_meta`, although the properties were already
  written (`EarlyReturnKeepsMeta`).
- **A folder rename does not touch its contents.** A folder source renames only the folder;
  its file and data entries keep their old paths (`SourceRenamed`).
- **Every occurrence is replaced.** The rename uses `str::replace`, so every occurrence of the
  old name in a file name is replaced (`ReplaceEveryOccurrence`).

## Left out

- `PathExt::get_name` (`src/ext.rs`) is not part of this model. It is taken to be the file
  name of the path.
- With a suffix that the file name does not end in, `SyncRule::get_name` returns the whole
  file name (`src/core/meta.rs:62`).
- The `Meta` that `write.rs` uses has `context`, `source` and `keep_unknowns`, unlike the one in
  `meta.rs`. It is modelled as the separate value `Sources.NodeMeta`. Its shape, and those of
  `Source`, `SourceEntry` and `SourceKind`, are inferred from their uses in `write.rs`.
- `NodePath::parent` is taken to drop the last name.
- `path_clean::clean` is not modelled. A `$path` redirect is the project file's folder joined
  with the custom path.
- `tree.rs` is not part of this model:
  - `insert_instance_with_ref` adds one childless node under its parent (`Tree.Inserted`);
  - `remove_instance` removes that node alone and unlists it from its parent (`Tree.Detached`).
- Tree.Detached removes the node alone. A removed node's descendants stay in the arena and
  point to a parent that is gone, so removing a node with children leaves nodes whose parent
  is missing. A `remove_instance` that destroys the whole subtree, as a DOM's `destroy` does,
  would remove them too.
- I/O is abstract:
  - a failure of `write_dir`, `middleware.write`, `write_data` or `Project::save` is not
    modelled;
  - `rename` and `remove` fail only on a missing path.
- Collaborators are parameters of `Env`, and their code is not modelled: glob matching (and
  the glob walk of `resolve_child`), `SyncRule::locate`, `Middleware::from_class`,
  `verify_name`, `validate_properties`, `serialize_properties`, and the middleware file
  encodings.
- Update.LocateInstanceData, Sources.Locate: the locations are whatever `locate` returns;
  nothing is said about their shape.
- Middleware.WriteData: whether a data file is kept is the opaque `env.keepsData`.
- Project JSON parsing and writing is not modelled: project files are a map from path to
  node tree.
- Logging (`warn!`, `filter_warn!`, `bad_name!`, `path_exists!`, `trace!`) has no effect in
  the model.
- Update.ApplyUpdate requires a class and meta change to be absent. The source panics only
  after the update's other effects, so this precondition is stronger than the source's.
- Removal.ApplyRemoval requires the instance's parent to exist when its files are removed. The
  source panics there through `expect`.
- Panics on a node without a source become preconditions, on all three operations.
- Addition.ApplyAddition requires the added subtree's refs to be distinct and new to the tree.
  A ref that is already taken in `insert_instance_with_ref` is not modelled.
- Removal.DemotionUndoesPromotion covers a parent without a data file. The data file's round
  trip is not stated.
- Build.ResolveTarget: the Studio plugins folder and whether the output's folder exists are
  inputs. `RobloxStudio::locate` and the `create_dir_all` calls are not modelled beyond the
  list of folders created.
- Workspace.Init: the template listing, the user name and the year are inputs. Reading the
  template files is taken never to fail. `init_ts` and `initialize_repo` (external programs)
  are left out.
- Also left out:
  - the `Debug` output of `Snapshot`;
  - `src/cli/mod.rs` (argument parsing);
  - `src/cli/sourcemap.rs` (process orchestration);
  - `Build::spawn` and the roblox-ts invocations;
  - the server handlers;
  - the lock and watcher in `src/vfs/mod.rs`.
