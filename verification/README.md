# Scene editor document model and undo/redo engine, in Dafny

This project models the core of a browser 3D scene editor. That core is the in-memory document and its undo/redo history. The document is an ordered list of scene objects: cubes, spheres and an imported mushroom model, each with a transform, a colour and an optional name. Around it the engine keeps a selection, a transform-tool mode, and two stacks of full document snapshots (`past` and `future`).

The model has seven modules:

- `Common`: an `Option` type, order-preserving `Filter`, and the subsequence relation.
- `Numerals`: how `${n}` renders an ordinal (an array length plus one, so below 2^32) in decimal, plus a parser that reads the rendering back.
- `Document`: the `SceneObject` record and `Partial<SceneObject>` patches. A patch is merged with object spread. The module also holds the default colours and names, the seeded object, and id lookups.
- `Editor`: the editor state, with one pure transition per callback of `EditorProvider`. `Command`/`Apply`/`Run` replay any sequence of calls.
- `HistoryLaws`: lemmas about history. Undo and redo invert each other, and undo reverts every commit. A commit leaves nothing to redo. Undoing N commits returns to the start. Transient drag updates collapse to the last one and leave no history. Ids stay unique when new ids are fresh. `HistoryLaws.AddDuplicateUndoRedoScenario` follows one add, one duplicate, two undos and a redo step by step, and `HistoryLaws.RedoKeepsStaleSelection` shows that redo leaves a stale selection.
- `SceneMirror`: the `ObjectManager` effect. It reconciles an id → node map with the object list. A node is an abstract record, and its identity is a handle drawn from a counter.
- `PointerPick`: the pointer-down rule of `SelectionManager`. It walks each hit's ancestor chain, distinguishes the grid from helpers, and applies the outcome to the engine.

Behaviour of the source reproduced as written:

- `updateObject` with `transient = false` pushes a snapshot even when no object has the id.
- `deleteObject` always pushes a snapshot.
- Unlike `duplicateObject`, which returns early on a missing id (line 149), these two commit regardless.
- `duplicateObject` on a missing id changes nothing, history included.
- `redo` does not prune the selection. `HistoryLaws.RedoKeepsStaleSelection` shows a reachable state where the selection names an object that is no longer in the document.
- The spread `{...obj, ...updates}` lets a patch overwrite any field, `id` and `type` included. Nothing in the code stops a patch from changing `id` or `type`. `HistoryLaws.ApplyKeepsValid` therefore needs the patch not to rename an object onto another live id.
- `toggleSelection` removes every copy of a selected id.
- The ordinal in a default name is the length of the whole list plus one.
- Names and id tags are tested for JavaScript truthiness, so `""` counts as absent.

`uuidv4()` is replaced by a `newId` / `seedId` parameter. Freshness is stated only as a hypothesis of the id-uniqueness lemmas (`HistoryLaws.FreshFor`).

## Model

| member | source | states |
|---|---|---|
| `Common.Filter` | src/context/EditorContext.tsx:143-144 | the result holds exactly the kept elements, each as many times as it occurs in the input, as a subsequence of the input (order kept), and is the input itself when every element is kept |
| `Numerals.DecimalString` | src/context/EditorContext.tsx:99 | the rendering of an ordinal is a non-empty run of decimal digits with no leading zero |
| `Numerals.ParseDecimalString` | src/context/EditorContext.tsx:99 | reading the rendered ordinal back gives the ordinal, so distinct ordinals give distinct names |
| `Document.MergeEmpty` | src/context/EditorContext.tsx:135 | spreading an empty partial object leaves the object unchanged |
| `Document.MergeThen` | src/context/EditorContext.tsx:135 | two successive spreads equal one spread of the field-wise override of the first patch by the second |
| `Document.MergeCovered` | src/context/EditorContext.tsx:135 | a later patch that sets every field the earlier one set erases the earlier one |
| `Document.MergeKeepsUnmentioned` | src/context/EditorContext.tsx:135 | every field a patch does not mention (id, type, position, rotation, scale, colour, name) keeps its value |
| `Document.TypeTitles` | src/context/EditorContext.tsx:99 | the capitalised type labels are "Cube", "Sphere" and "Mushroom" |
| `Document.DefaultNameOrdinal` | src/context/EditorContext.tsx:99 | a default name is the type's title, one space, then digits that parse back to the ordinal |
| `Document.CopyName` | src/context/EditorContext.tsx:159 | a copy's name ends in " (Copy)", preceded by the original's name when that is truthy and by "Object" otherwise |
| `Document.SeedObject` | src/context/EditorContext.tsx:38-48 | the seeded object is a white mushroom at the origin with unit scale, named as the first default mushroom name |
| `Document.FindIndex` | src/context/EditorContext.tsx:148 | the lookup fails exactly when no object has the id, and otherwise returns the first object with it |
| `Document.MergeWhere` | src/context/EditorContext.tsx:134-136 | the list keeps its length and order; objects with the id are merged with the patch, all others are unchanged |
| `Document.SubseqKeepsUnique` | src/context/EditorContext.tsx:143 | removing objects from a list with unique ids leaves the ids unique |
| `Editor.Initial` | src/context/EditorContext.tsx:37-54 | a session starts with one seeded mushroom (default mushroom colour and first mushroom name), no selection, translate mode, and empty stacks |
| `Editor.SaveSnapshot` | src/context/EditorContext.tsx:56-59 | the current objects become the newest `past` entry, `future` is cleared, and nothing else changes |
| `Editor.Undo` | src/context/EditorContext.tsx:61-73 | with an empty `past`, nothing changes. Otherwise the newest snapshot is popped and restored, and the current objects go to the front of `future`. The selection becomes the live ids only, kept in order, with every selected id that the snapshot holds retained as many times as it was selected |
| `Editor.Redo` | src/context/EditorContext.tsx:75-84 | with an empty `future`, nothing changes. Otherwise the front of `future` is restored, the current objects are pushed onto `past`, and the selection is untouched |
| `Editor.AddObject` | src/context/EditorContext.tsx:86-104 | commits, then appends one object: the new id, the given type, origin position and rotation, unit scale, the type's colour, and the name "<Type> <length+1>". Only the new object is selected. Ids stay unique if the id is fresh |
| `Editor.SelectObject` | src/context/EditorContext.tsx:106-108 | replaces the selection, or empties it for null; the document and history are untouched |
| `Editor.ToggleSelection` | src/context/EditorContext.tsx:110-120 | the id's membership flips, other ids keep theirs, and the document and history are untouched. A removal drops every copy of the id and keeps the rest, in order and with their multiplicity; an addition appends the id |
| `Editor.UpdateObject` | src/context/EditorContext.tsx:122-137 | a transient update leaves both stacks alone, and a committing one commits even when nothing matches. Length and order are kept: matching objects are merged, all others are unchanged, and the selection is unchanged |
| `Editor.DeleteObject` | src/context/EditorContext.tsx:139-145 | always commits. Afterwards no object and no selected id equals the id. The other objects and selected ids remain, in their original order and with their multiplicity, and ids stay unique |
| `Editor.DuplicateObject` | src/context/EditorContext.tsx:147-164 | with a missing id, nothing changes, history included. Otherwise it commits and appends a copy of an object with the id: the new id, x + 2, the copy name, and every other field the same. The old list stays a prefix, only the copy is selected, and a fresh new id keeps the ids unique |
| `Editor.DuplicateCopiesFirst` | src/context/EditorContext.tsx:148-150 | the object copied is the first one in the list that carries the id |
| `Editor.SetTransformMode` | src/context/EditorContext.tsx:50 | sets the mode; the document, the history and the selection are untouched |
| `HistoryLaws.UndoThenRedo` | src/context/EditorContext.tsx:61-84 | with a non-empty `past`, redo after undo restores the objects, `past`, `future` and mode exactly, and the selection stays pruned |
| `HistoryLaws.RedoThenUndo` | src/context/EditorContext.tsx:61-84 | with a non-empty `future`, undo after redo restores the objects and both stacks, and restores the whole state when every selected id was live |
| `HistoryLaws.EmptyStacksAreNoOps` | src/context/EditorContext.tsx:61-84 | undo on an empty `past` and redo on an empty `future` change nothing |
| `HistoryLaws.UndoRevertsCommit` | src/context/EditorContext.tsx:56-73 | undo after any committing transition restores the prior objects and `past`, with the undone objects as the only redo step |
| `HistoryLaws.CommitDropsRedo` | src/context/EditorContext.tsx:75-84 | after a commit, redo does nothing |
| `HistoryLaws.CommittingCommands` | src/context/EditorContext.tsx:86-164 | save, add, delete, a non-transient update, and duplicate of an existing id all commit. Select, toggle, set-mode, a transient update, and duplicate of a missing id leave both stacks alone |
| `HistoryLaws.UndoOneMore` | src/context/EditorContext.tsx:61-73 | one more undo steps back over one more commit |
| `HistoryLaws.UndoCommitChain` | src/context/EditorContext.tsx:61-73 | along a chain of commits, one undo per commit returns to the first state's objects and `past` |
| `HistoryLaws.CommittingRunCommits` | src/context/EditorContext.tsx:56-164 | a run whose every call is committing in the state it meets pushes one snapshot and clears `future` at each step |
| `HistoryLaws.UndoAllCommits` | src/context/EditorContext.tsx:56-164 | after a run in which every step commits, undoing once per step restores the starting objects and `past` |
| `HistoryLaws.UndoCommittingRun` | src/context/EditorContext.tsx:56-164 | after any run of committing calls, undoing once per call restores the starting objects and `past` |
| `HistoryLaws.TransientUpdatesCollapse` | src/context/EditorContext.tsx:122-137 | two transient updates of one object, the second covering the first's fields, equal the second alone; no history is added |
| `HistoryLaws.CoversChain` | src/context/EditorContext.tsx:135 | in a run of patches each setting every field the previous one set, the last sets every field any of them set |
| `HistoryLaws.TransientRun` | src/context/EditorContext.tsx:122-137 | any non-empty run of transient updates of one object, each patch covering the previous one and none changing the id, equals its last update alone, and leaves `past` and `future` as they were |
| `HistoryLaws.MergeWhereKeepsUnique` | src/context/EditorContext.tsx:134-136 | merging keeps ids unique unless the patch renames an object onto another live id |
| `HistoryLaws.ApplyKeepsValid` | src/context/EditorContext.tsx:86-164 | every call keeps ids unique in the document and in every snapshot, provided the ids it introduces are fresh |
| `HistoryLaws.InitialValid` | src/context/EditorContext.tsx:38-54 | the seeded start state, one object and empty stacks, has unique ids |
| `HistoryLaws.RunKeepsValid` | src/context/EditorContext.tsx:56-164 | a run of calls with fresh ids keeps ids unique in every state it passes through |
| `HistoryLaws.ReachableValid` | src/context/EditorContext.tsx:38-164 | from the seeded document, every run of calls with fresh ids reaches a state whose document and snapshots have unique ids |
| `HistoryLaws.ToggleTwice` | src/context/EditorContext.tsx:110-120 | toggling an unselected id twice restores the state |
| `HistoryLaws.RedoKeepsStaleSelection` | src/context/EditorContext.tsx:75-84 | the sequence delete the seed, undo, select it, redo leaves the selection naming an object that is no longer present |
| `HistoryLaws.AddDuplicateUndoRedoScenario` | src/context/EditorContext.tsx:61-164 | add a cube, duplicate it (the copy is at x + 2 and alone selected), undo twice (back to the seed with an empty selection), redo once (the seed and the cube, with the selection still empty) |
| `SceneMirror.UniqueWithId` | src/components/Three/ObjectManager.tsx:20-24 | with unique ids, the first and the last object with an id are the one object that has it |
| `SceneMirror.AddPassKeys` | src/components/Three/ObjectManager.tsx:20-94 | the add/update loop adds exactly the objects' ids to the map, and draws a new handle only when some id lacked an entry |
| `SceneMirror.AddPassOutside` | src/components/Three/ObjectManager.tsx:20-94 | entries for ids that no object carries are left as they were by the add/update loop |
| `SceneMirror.AddPassKeepsNodes` | src/components/Three/ObjectManager.tsx:21-24 | an id with an entry keeps its node: same handle, tag and kind |
| `SceneMirror.AddPassCreates` | src/components/Three/ObjectManager.tsx:24-77 | a node is created only for an id with no entry. It gets a never-drawn handle and the id as its tag, and its kind follows the first object with that id |
| `SceneMirror.AddPassCopies` | src/components/Three/ObjectManager.tsx:80-93 | each id's node shows the transform of the last object with that id, and that object's colour if it is a mesh |
| `SceneMirror.AddPassGroupMaterial` | src/components/Three/ObjectManager.tsx:86-91 | the loop never sets a group's material: it keeps what it had, and a group the loop creates has none |
| `SceneMirror.VisitWellFormed` | src/components/Three/ObjectManager.tsx:73-77 | one visit keeps every node tagged with its key and every handle distinct |
| `SceneMirror.AddPassWellFormed` | src/components/Three/ObjectManager.tsx:20-94 | the add/update loop keeps the map well formed |
| `SceneMirror.SyncKeys` | src/components/Three/ObjectManager.tsx:20-114 | after a sync, the map's keys are exactly the live ids, and the removed entries are exactly those whose id is gone |
| `SceneMirror.SyncKeepsNodes` | src/components/Three/ObjectManager.tsx:21-24 | a live id that had an entry keeps its node |
| `SceneMirror.SyncCreates` | src/components/Three/ObjectManager.tsx:24-77 | a live id without an entry gets a newly drawn node tagged with that id |
| `SceneMirror.SyncMirrors` | src/components/Three/ObjectManager.tsx:80-93 | with unique ids, every object's node shows its position, rotation and scale, and also its colour if the node is a mesh. No colour is put on a group |
| `SceneMirror.SyncWellFormed` | src/components/Three/ObjectManager.tsx:73-76 | a sync keeps every node tagged with its key, with distinct handles below the counter |
| `SceneMirror.SyncFromEmpty` | src/components/Three/ObjectManager.tsx:14-114 | the first sync, from the empty map, holds exactly the live ids, is well formed, puts no colour on a group, and gives each node the kind of the first object with its id |
| `SceneMirror.SyncIdempotent` | src/components/Three/ObjectManager.tsx:20-114 | a second sync with the same objects creates nothing, removes nothing and changes nothing |
| `PointerPick.NearestTagIndex` | src/components/Three/SelectionManager.tsx:32-39 | the walk finds the nearest truthy-tagged node strictly below the scene root. It finds none exactly when no such node exists |
| `PointerPick.FirstTaggedHit` | src/components/Three/SelectionManager.tsx:32-39 | the search returns the first hit with a tagged ancestor, or none when no hit has one |
| `PointerPick.Pick` | src/components/Three/SelectionManager.tsx:30-73 | no hits gives Clear. Otherwise the first hit with a tagged ancestor selects that ancestor's id. With no tagged hit, a first hit on the grid gives Clear and any other gives Unchanged |
| `PointerPick.WalkStopsAtRoot` | src/components/Three/SelectionManager.tsx:34-37 | the walk never looks at the scene root or above it: two chains that agree below the root give the same answer |
| `PointerPick.ApplyPick` | src/components/Three/SelectionManager.tsx:41-72 | a pick changes only the selection: Select sets it to that id alone, Clear empties it, and Unchanged leaves the state as it was |

## Left out

- Rendering and scene plumbing are not modelled: WebGL setup, the animation loop, resize handling, camera and orbit controls, the transform gizmo, and selection highlighting. They are thin wrappers over the 3D library.
- The scene mirror does not model geometry, material parameters, shadow flags, `scene.add`/`scene.remove`, or disposal of geometry and materials (ObjectManager.tsx lines 26-44 and 101-110). Node identity is a counter-drawn handle.
- The asynchronous GLB load for the mushroom (ObjectManager.tsx lines 50-65) is a foreign callback and is left out. A mushroom's node is an empty group whose contents do not matter here. A load failure only logs.
- The fallback red box (ObjectManager.tsx lines 66-71) is not modelled: the object type is a closed three-way choice, so that branch cannot be reached.
- The effect's early return without a scene (ObjectManager.tsx line 17) is not modelled; the model assumes a scene is present.
- Raycasting and the pointer's normalised device coordinates (SelectionManager.tsx lines 20-28) are left out. The ordered hit list is the input.
- `uuidv4()` is left out. New ids are parameters, and their freshness is a hypothesis of the uniqueness lemmas only.
- React state batching and stale closures are left out. Each callback is one atomic transition on the current state.
- Patches do not model a field present with the value `undefined`. A patch field is either absent or carries a value.
- Capitalisation is modelled for ASCII letters only. That is all the type labels contain.
- `Numerals.DecimalString`: renders every natural in plain digits, while `${n}` switches to exponent form ("1e+21") from 10^21 up. The only number rendered is an array length plus one (EditorContext.tsx line 99), below 2^32, so that form never arises.
- Vector components are mathematical reals rather than IEEE doubles. The +2 offset is exact.
- `useEditor`'s error when used outside the provider (EditorContext.tsx lines 189-195) is React plumbing and is left out.
- `SceneMirror.SyncMirrors`: assumes unique ids. For lists with repeated ids, `SceneMirror.AddPassCopies` states the general case: the last object with an id wins.
- `PointerPick.ApplyPick`: applies a pick as the one-element list `[id]`, the evidently intended selection. `SelectionManager.tsx` line 46 passes the bare id string to `selectObject`, whose parameter is `string[] | null` (`EditorContext.tsx` lines 22 and 106-107), so at run time the source stores a string as the selection; the model does not reproduce that.
- `HistoryLaws.ApplyKeepsValid`: assumes fresh new ids and no rename onto a live id. The source relies on `uuidv4` for the first and does not guard the second.
