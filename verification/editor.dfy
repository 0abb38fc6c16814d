/** The editor engine of src/context/EditorContext.tsx (`EditorProvider`):
    the editor state and one pure transition per callback the provider
    exposes. Each callback is taken as one atomic transition whose closure
    sees the current state. Where the source draws a fresh `uuidv4()`, the
    transition takes the new id as a parameter. */
module Editor {
  import opened Common
  import opened Document

  datatype TransformMode = Translate | Rotate | Scale

  /** A full copy of the object list, as kept on the history stacks. */
  type Snapshot = seq<SceneObject>

  /** `past` runs from older to newer (top at the end); `future` runs from
      the next redo to later ones (top at the front). */
  datatype EditorState = EditorState(
    objects: Snapshot,
    selectedIds: seq<string>,
    transformMode: TransformMode,
    past: seq<Snapshot>,
    future: seq<Snapshot>)

  /** The state a session starts in: one seeded mushroom, nothing selected,
      translate mode, empty history. */
  function Initial(seedId: string): (s: EditorState)
    ensures |s.objects| == 1 && s.objects[0].id == seedId && s.objects[0].ty == Mushroom
    ensures s.objects[0].name == Some(DefaultName(Mushroom, 1))
    ensures s.objects[0].color == DefaultColor(Mushroom)
    ensures s.selectedIds == [] && s.transformMode == Translate
    ensures s.past == [] && s.future == []
  {
    EditorState([SeedObject(seedId)], [], Translate, [], [])
  }

  /** A committing transition: the pre-mutation objects became the newest
      `past` entry and the redo branch is gone. */
  predicate Commits(s: EditorState, r: EditorState) {
    r.past == s.past + [s.objects] && r.future == []
  }

  /** Neither the document nor the history is touched. */
  predicate KeepsDocument(s: EditorState, r: EditorState) {
    r.objects == s.objects && r.past == s.past && r.future == s.future
  }

  /** Every selected id names a live object. */
  predicate SelectionLive(s: EditorState) {
    forall i :: 0 <= i < |s.selectedIds| ==> s.selectedIds[i] in IdSet(s.objects)
  }

  /** `prev.filter(id => live.has(id))`: the ids in `live`, in order and
      with their multiplicity. */
  function KeepLive(ids: seq<string>, live: set<string>): (r: seq<string>)
    ensures IsSubseq(r, ids)
    ensures forall i :: 0 <= i < |r| ==> r[i] in live
    ensures forall i :: 0 <= i < |ids| && ids[i] in live ==> ids[i] in r
    ensures forall x :: multiset(r)[x] == (if x in live then multiset(ids)[x] else 0)
  {
    Filter(ids, id => id in live)
  }

  /** `saveSnapshot`: checkpoint the current objects. */
  function SaveSnapshot(s: EditorState): (r: EditorState)
    ensures Commits(s, r)
    ensures r.objects == s.objects && r.selectedIds == s.selectedIds
    ensures r.transformMode == s.transformMode
  {
    s.(past := s.past + [s.objects], future := [])
  }

  /** `undo`: restore the newest snapshot, move the current objects to the
      front of `future`, and drop selected ids the snapshot does not hold. */
  function Undo(s: EditorState): (r: EditorState)
    ensures |s.past| == 0 ==> r == s
    ensures |s.past| > 0 ==> r.past + [r.objects] == s.past
    ensures |s.past| > 0 ==> r.future == [s.objects] + s.future
    ensures |s.past| > 0 ==> SelectionLive(r)
    ensures IsSubseq(r.selectedIds, s.selectedIds)
    ensures forall i :: 0 <= i < |s.selectedIds| && s.selectedIds[i] in IdSet(r.objects) ==>
              s.selectedIds[i] in r.selectedIds
    ensures |s.past| > 0 ==>
              forall x :: multiset(r.selectedIds)[x] ==
                (if x in IdSet(r.objects) then multiset(s.selectedIds)[x] else 0)
    ensures r.transformMode == s.transformMode
  {
    if |s.past| == 0 then SubseqRefl(s.selectedIds); s
    else
      var previous := s.past[|s.past| - 1];
      var live := IdSet(previous);
      EditorState(
        previous,
        KeepLive(s.selectedIds, live),
        s.transformMode,
        s.past[..|s.past| - 1],
        [s.objects] + s.future)
  }

  /** `redo`: restore the front of `future` and push the current objects
      onto `past`. The selection is left as it is. */
  function Redo(s: EditorState): (r: EditorState)
    ensures |s.future| == 0 ==> r == s
    ensures |s.future| > 0 ==> [r.objects] + r.future == s.future
    ensures |s.future| > 0 ==> r.past == s.past + [s.objects]
    ensures r.selectedIds == s.selectedIds && r.transformMode == s.transformMode
  {
    if |s.future| == 0 then s
    else s.(objects := s.future[0], past := s.past + [s.objects], future := s.future[1..])
  }

  /** `addObject(type)`: append a new object with default transform, the
      type's colour and a default name numbered by the list length, and
      select it alone. */
  function AddObject(s: EditorState, t: ObjectType, newId: string): (r: EditorState)
    ensures Commits(s, r)
    ensures |r.objects| == |s.objects| + 1 && r.objects[..|s.objects|] == s.objects
    ensures var o := r.objects[|s.objects|];
            && o.id == newId && o.ty == t
            && o.position == Origin && o.rotation == Origin && o.scale == UnitScale
            && o.color == DefaultColor(t)
            && o.name == Some(DefaultName(t, |s.objects| + 1))
    ensures r.selectedIds == [newId] && SelectionLive(r)
    ensures r.transformMode == s.transformMode
    ensures UniqueIds(s.objects) && newId !in IdSet(s.objects) ==> UniqueIds(r.objects)
  {
    var o := SceneObject(newId, t, Vec3(0.0, 0.0, 0.0), Vec3(0.0, 0.0, 0.0), Vec3(1.0, 1.0, 1.0),
                         DefaultColor(t), Some(DefaultName(t, |s.objects| + 1)));
    AppendObject(s.objects, o);
    EditorState(s.objects + [o], [newId], s.transformMode, s.past + [s.objects], [])
  }

  /** `selectObject(ids)`: replace the selection; `null` clears it. */
  function SelectObject(s: EditorState, ids: Option<seq<string>>): (r: EditorState)
    ensures KeepsDocument(s, r) && r.transformMode == s.transformMode
    ensures ids.None? ==> r.selectedIds == []
    ensures ids.Some? ==> r.selectedIds == ids.value
  {
    s.(selectedIds := ids.GetOr([]))
  }

  /** `toggleSelection(id)`: remove every occurrence of a selected id, or
      append an unselected one. */
  function ToggleSelection(s: EditorState, id: string): (r: EditorState)
    ensures KeepsDocument(s, r) && r.transformMode == s.transformMode
    ensures id in r.selectedIds <==> id !in s.selectedIds
    ensures forall x :: x != id ==> (x in r.selectedIds <==> x in s.selectedIds)
    ensures id in s.selectedIds ==> IsSubseq(r.selectedIds, s.selectedIds)
    ensures id in s.selectedIds ==>
              forall x :: multiset(r.selectedIds)[x] ==
                (if x == id then 0 else multiset(s.selectedIds)[x])
    ensures id !in s.selectedIds ==>
              |r.selectedIds| == |s.selectedIds| + 1 && r.selectedIds[..|s.selectedIds|] == s.selectedIds
  {
    if id in s.selectedIds then
      var kept := Filter(s.selectedIds, x => x != id);
      SubseqMembers(kept, s.selectedIds);
      s.(selectedIds := kept)
    else
      s.(selectedIds := s.selectedIds + [id])
  }

  /** `updateObject(id, updates, transient)`: merge the patch into every
      object with that id. A committing update pushes history even when no
      object matches; a transient one leaves history alone. */
  function UpdateObject(s: EditorState, id: string, p: Patch, transient: bool): (r: EditorState)
    ensures transient ==> r.past == s.past && r.future == s.future
    ensures !transient ==> Commits(s, r)
    ensures r.selectedIds == s.selectedIds && r.transformMode == s.transformMode
    ensures |r.objects| == |s.objects|
    ensures forall i :: 0 <= i < |s.objects| && s.objects[i].id == id ==>
              r.objects[i] == Merge(s.objects[i], p)
    ensures forall i :: 0 <= i < |s.objects| && s.objects[i].id != id ==>
              r.objects[i] == s.objects[i]
  {
    var objects := MergeWhere(s.objects, id, p);
    if transient then s.(objects := objects)
    else s.(objects := objects, past := s.past + [s.objects], future := [])
  }

  /** `deleteObject(id)`: drop the objects and selected ids equal to `id`,
      keeping the order of the rest. History is pushed unconditionally. */
  function DeleteObject(s: EditorState, id: string): (r: EditorState)
    ensures Commits(s, r) && r.transformMode == s.transformMode
    ensures id !in IdSet(r.objects) && id !in r.selectedIds
    ensures IsSubseq(r.objects, s.objects)
    ensures forall i :: 0 <= i < |s.objects| && s.objects[i].id != id ==> s.objects[i] in r.objects
    ensures IsSubseq(r.selectedIds, s.selectedIds)
    ensures forall i :: 0 <= i < |s.selectedIds| && s.selectedIds[i] != id ==>
              s.selectedIds[i] in r.selectedIds
    ensures forall o :: multiset(r.objects)[o] == (if o.id == id then 0 else multiset(s.objects)[o])
    ensures forall x :: multiset(r.selectedIds)[x] == (if x == id then 0 else multiset(s.selectedIds)[x])
    ensures UniqueIds(s.objects) ==> UniqueIds(r.objects)
  {
    var objects := Filter(s.objects, (o: SceneObject) => o.id != id);
    var selected := Filter(s.selectedIds, x => x != id);
    SubseqMembers(selected, s.selectedIds);
    assert UniqueIds(s.objects) ==> UniqueIds(objects) by {
      if UniqueIds(s.objects) {
        SubseqKeepsUnique(objects, s.objects);
      }
    }
    EditorState(objects, selected, s.transformMode, s.past + [s.objects], [])
  }

  /** The copy `duplicateObject` makes of `o`: a new id, two units further
      along x, the copy name, every other field the same. */
  predicate IsDuplicate(c: SceneObject, o: SceneObject, newId: string) {
    && c.id == newId
    && c.ty == o.ty
    && c.position == Vec3(o.position.x + 2.0, o.position.y, o.position.z)
    && c.rotation == o.rotation && c.scale == o.scale && c.color == o.color
    && c.name == Some(CopyName(o.name))
  }

  /** `{...original, id: newId, position: [x + 2, y, z], name: ...}`. */
  function CopyOf(o: SceneObject, newId: string): (c: SceneObject)
    ensures IsDuplicate(c, o, newId)
  {
    o.(id := newId,
       position := Vec3(o.position.x + 2.0, o.position.y, o.position.z),
       name := Some(CopyName(o.name)))
  }

  /** `duplicateObject(id)`: when an object has that id, append a copy of
      the first such object and select the copy alone; otherwise do nothing,
      history included. */
  function DuplicateObject(s: EditorState, id: string, newId: string): (r: EditorState)
    ensures id !in IdSet(s.objects) ==> r == s
    ensures id in IdSet(s.objects) ==> Commits(s, r)
    ensures id in IdSet(s.objects) ==>
              |r.objects| == |s.objects| + 1 && r.objects[..|s.objects|] == s.objects
    ensures id in IdSet(s.objects) ==>
              exists k :: 0 <= k < |s.objects| && s.objects[k].id == id &&
                IsDuplicate(r.objects[|s.objects|], s.objects[k], newId)
    ensures id in IdSet(s.objects) ==> r.selectedIds == [newId] && SelectionLive(r)
    ensures r.transformMode == s.transformMode
    ensures UniqueIds(s.objects) && newId !in IdSet(s.objects) ==> UniqueIds(r.objects)
  {
    match FindIndex(s.objects, id)
    case None => s
    case Some(k) =>
      var copy := CopyOf(s.objects[k], newId);
      AppendObject(s.objects, copy);
      EditorState(s.objects + [copy], [newId], s.transformMode, s.past + [s.objects], [])
  }

  /** The copy is made from the FIRST object carrying the id. */
  lemma DuplicateCopiesFirst(s: EditorState, id: string, newId: string, k: nat)
    requires k < |s.objects| && s.objects[k].id == id
    requires forall j :: 0 <= j < k ==> s.objects[j].id != id
    ensures IsDuplicate(DuplicateObject(s, id, newId).objects[|s.objects|], s.objects[k], newId)
  {
    var f := FindIndex(s.objects, id);
    assert id in IdSet(s.objects);
    assert f.Some? && f.value == k;
  }

  /** `setTransformMode(mode)`. */
  function SetTransformMode(s: EditorState, m: TransformMode): (r: EditorState)
    ensures r.transformMode == m
    ensures KeepsDocument(s, r) && r.selectedIds == s.selectedIds
  {
    s.(transformMode := m)
  }

  // ---------------------------------------------------------------------
  // The whole callback surface as one command type

  datatype Command =
    | Add(ty: ObjectType, newId: string)
    | Select(ids: Option<seq<string>>)
    | Toggle(id: string)
    | Update(id: string, patch: Patch, transient: bool)
    | Delete(id: string)
    | Duplicate(id: string, newId: string)
    | SetMode(mode: TransformMode)
    | UndoCmd
    | RedoCmd
    | Save

  function Apply(s: EditorState, c: Command): EditorState {
    match c
    case Add(t, newId) => AddObject(s, t, newId)
    case Select(ids) => SelectObject(s, ids)
    case Toggle(id) => ToggleSelection(s, id)
    case Update(id, p, transient) => UpdateObject(s, id, p, transient)
    case Delete(id) => DeleteObject(s, id)
    case Duplicate(id, newId) => DuplicateObject(s, id, newId)
    case SetMode(m) => SetTransformMode(s, m)
    case UndoCmd => Undo(s)
    case RedoCmd => Redo(s)
    case Save => SaveSnapshot(s)
  }

  function Run(s: EditorState, cs: seq<Command>): EditorState
    decreases |cs|
  {
    if |cs| == 0 then s else Run(Apply(s, cs[0]), cs[1..])
  }
}
