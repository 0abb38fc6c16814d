/** The scene mirror of src/components/Three/ObjectManager.tsx: the effect
    that keeps a map from object id to a rendered node in step with the
    editor's object list. Three.js nodes become abstract records; a node's
    identity is its `handle`, drawn from a counter when the node is created.
    The pass is: visit the objects in order, creating a node for each id the
    map lacks and copying the transform (and, on meshes, the colour); then
    drop the entries whose id no longer occurs. */
module SceneMirror {
  import opened Common
  import opened Document

  /** Primitives are meshes; the imported mushroom is a group. */
  datatype NodeKind = Mesh | Group

  /** A rendered node: its handle, the id it was tagged with at creation,
      its kind, its transform, and its material colour (groups have none). */
  datatype Node = Node(
    handle: nat,
    tagId: string,
    kind: NodeKind,
    position: Vec3,
    rotation: Vec3,
    scale: Vec3,
    material: Option<string>)

  datatype Mirror = Mirror(nodes: map<string, Node>, nextHandle: nat)

  /** `new Map()` before the first run of the effect. */
  const EmptyMirror := Mirror(map[], 0)

  function KindFor(t: ObjectType): NodeKind {
    match t
    case Cube => Mesh
    case Sphere => Mesh
    case Mushroom => Group
  }

  /** A freshly built node for `o`, tagged with its id. */
  function NewNode(o: SceneObject, handle: nat): Node {
    match o.ty
    case Cube => Node(handle, o.id, Mesh, Origin, Origin, UnitScale, Some(o.color))
    case Sphere => Node(handle, o.id, Mesh, Origin, Origin, UnitScale, Some(o.color))
    case Mushroom => Node(handle, o.id, Group, Origin, Origin, UnitScale, None)
  }

  /** Copy the transform of `o` onto `n`, and its colour when `n` is a mesh. */
  function CopyProps(n: Node, o: SceneObject): Node {
    var moved := n.(position := o.position, rotation := o.rotation, scale := o.scale);
    if n.kind == Mesh then moved.(material := Some(o.color)) else moved
  }

  /** One iteration of the add/update loop. */
  function Visit(m: Mirror, o: SceneObject): Mirror {
    if o.id in m.nodes then
      Mirror(m.nodes[o.id := CopyProps(m.nodes[o.id], o)], m.nextHandle)
    else
      Mirror(m.nodes[o.id := CopyProps(NewNode(o, m.nextHandle), o)], m.nextHandle + 1)
  }

  /** The add/update loop over the objects, in list order. */
  function AddPass(m: Mirror, objs: seq<SceneObject>): Mirror
    decreases |objs|
  {
    if |objs| == 0 then m else AddPass(Visit(m, objs[0]), objs[1..])
  }

  /** The removal loop: keep only the entries whose id is live. */
  function RemovePass(m: Mirror, live: set<string>): Mirror {
    Mirror(map k | k in m.nodes && k in live :: m.nodes[k], m.nextHandle)
  }

  /** One run of the effect for the current object list. */
  function Sync(m: Mirror, objs: seq<SceneObject>): Mirror {
    RemovePass(AddPass(m, objs), IdSet(objs))
  }

  // ---------------------------------------------------------------------
  // Reference notions

  /** The first object carrying id `k`: the one whose type decides the kind
      of node created for `k`. */
  function FirstWithId(objs: seq<SceneObject>, k: string): (o: SceneObject)
    requires k in IdSet(objs)
    ensures o in objs && o.id == k
    decreases |objs|
  {
    IdSetCons(objs);
    if objs[0].id == k then objs[0] else FirstWithId(objs[1..], k)
  }

  /** The last object carrying id `k`: the one whose fields a node ends up
      with, since each later visit overwrites the earlier one. */
  function LastWithId(objs: seq<SceneObject>, k: string): (o: SceneObject)
    requires k in IdSet(objs)
    ensures o in objs && o.id == k
    decreases |objs|
  {
    IdSetCons(objs);
    if k in IdSet(objs[1..]) then LastWithId(objs[1..], k) else objs[0]
  }

  /** With unique ids, the first and the last object with an id are the one
      object that has it. */
  lemma {:induction false} UniqueWithId(objs: seq<SceneObject>, i: nat)
    requires UniqueIds(objs) && i < |objs|
    ensures objs[i].id in IdSet(objs)
    ensures FirstWithId(objs, objs[i].id) == objs[i]
    ensures LastWithId(objs, objs[i].id) == objs[i]
    decreases |objs|
  {
    IdSetCons(objs);
    if i > 0 {
      assert objs[i] == objs[1..][i - 1];
      UniqueWithId(objs[1..], i - 1);
    } else {
      assert forall j :: 0 <= j < |objs[1..]| ==> objs[1..][j] == objs[j + 1];
    }
  }

  /** The node shows the object's transform, and its colour if it is a mesh. */
  predicate Mirrors(n: Node, o: SceneObject) {
    && n.position == o.position && n.rotation == o.rotation && n.scale == o.scale
    && (n.kind == Mesh ==> n.material == Some(o.color))
  }

  /** Every node is tagged with its key and has a handle below the counter,
      and no two entries share a node. */
  predicate WellFormed(m: Mirror) {
    && (forall k :: k in m.nodes ==> m.nodes[k].tagId == k && m.nodes[k].handle < m.nextHandle)
    && (forall k1, k2 :: k1 in m.nodes && k2 in m.nodes && k1 != k2 ==>
          m.nodes[k1].handle != m.nodes[k2].handle)
  }

  /** No group node carries a material colour. */
  predicate GroupsBare(m: Mirror) {
    forall k :: k in m.nodes && m.nodes[k].kind == Group ==> m.nodes[k].material == None
  }

  // ---------------------------------------------------------------------
  // The add/update pass

  /** The map gains exactly the ids of the objects; the counter moves only
      when a node is created. */
  lemma {:induction false} AddPassKeys(m: Mirror, objs: seq<SceneObject>)
    ensures AddPass(m, objs).nodes.Keys == m.nodes.Keys + IdSet(objs)
    ensures AddPass(m, objs).nextHandle >= m.nextHandle
    ensures IdSet(objs) <= m.nodes.Keys ==> AddPass(m, objs).nextHandle == m.nextHandle
    decreases |objs|
  {
    if |objs| > 0 {
      IdSetCons(objs);
      AddPassKeys(Visit(m, objs[0]), objs[1..]);
    }
  }

  /** Entries for ids that no object carries are left exactly as they were. */
  lemma {:induction false} AddPassOutside(m: Mirror, objs: seq<SceneObject>)
    ensures forall k :: k in m.nodes && k !in IdSet(objs) ==>
              k in AddPass(m, objs).nodes && AddPass(m, objs).nodes[k] == m.nodes[k]
    decreases |objs|
  {
    if |objs| > 0 {
      IdSetCons(objs);
      AddPassOutside(Visit(m, objs[0]), objs[1..]);
    }
  }

  /** An entry present before the pass keeps its node: same handle, tag and
      kind. */
  lemma {:induction false} AddPassKeepsNodes(m: Mirror, objs: seq<SceneObject>)
    ensures forall k :: k in m.nodes ==>
              && k in AddPass(m, objs).nodes
              && AddPass(m, objs).nodes[k].handle == m.nodes[k].handle
              && AddPass(m, objs).nodes[k].tagId == m.nodes[k].tagId
              && AddPass(m, objs).nodes[k].kind == m.nodes[k].kind
    decreases |objs|
  {
    if |objs| > 0 {
      AddPassKeepsNodes(Visit(m, objs[0]), objs[1..]);
    }
  }

  /** A node is created only for an id without an entry; it gets a handle
      never drawn before, is tagged with its id, and its kind follows the
      type of the first object with that id. */
  lemma {:induction false} AddPassCreates(m: Mirror, objs: seq<SceneObject>)
    ensures forall k :: k in IdSet(objs) && k !in m.nodes ==>
              && k in AddPass(m, objs).nodes
              && m.nextHandle <= AddPass(m, objs).nodes[k].handle < AddPass(m, objs).nextHandle
              && AddPass(m, objs).nodes[k].tagId == k
              && AddPass(m, objs).nodes[k].kind == KindFor(FirstWithId(objs, k).ty)
    decreases |objs|
  {
    if |objs| > 0 {
      var v := Visit(m, objs[0]);
      var rest := objs[1..];
      IdSetCons(objs);
      AddPassCreates(v, rest);
      AddPassKeepsNodes(v, rest);
      AddPassKeys(v, rest);
    }
  }

  /** Each id an object carries ends up with a node that mirrors the last
      object with that id. */
  lemma {:induction false} AddPassCopies(m: Mirror, objs: seq<SceneObject>)
    ensures forall k :: k in IdSet(objs) ==>
              k in AddPass(m, objs).nodes && Mirrors(AddPass(m, objs).nodes[k], LastWithId(objs, k))
    decreases |objs|
  {
    if |objs| > 0 {
      var v := Visit(m, objs[0]);
      var rest := objs[1..];
      IdSetCons(objs);
      AddPassCopies(v, rest);
      AddPassOutside(v, rest);
      AddPassKeepsNodes(v, rest);
    }
  }

  /** A group's material is whatever it was before the pass, and none for a
      group the pass creates. */
  lemma {:induction false} AddPassGroupMaterial(m: Mirror, objs: seq<SceneObject>)
    ensures forall k :: (k in IdSet(objs) && k in AddPass(m, objs).nodes &&
              AddPass(m, objs).nodes[k].kind == Group) ==>
              AddPass(m, objs).nodes[k].material == (if k in m.nodes then m.nodes[k].material else None)
    decreases |objs|
  {
    if |objs| > 0 {
      var v := Visit(m, objs[0]);
      var rest := objs[1..];
      IdSetCons(objs);
      AddPassGroupMaterial(v, rest);
      AddPassOutside(v, rest);
      AddPassKeepsNodes(v, rest);
    }
  }

  lemma VisitWellFormed(m: Mirror, o: SceneObject)
    requires WellFormed(m)
    ensures WellFormed(Visit(m, o))
  {
  }

  lemma {:induction false} AddPassWellFormed(m: Mirror, objs: seq<SceneObject>)
    requires WellFormed(m)
    ensures WellFormed(AddPass(m, objs))
    decreases |objs|
  {
    if |objs| > 0 {
      VisitWellFormed(m, objs[0]);
      AddPassWellFormed(Visit(m, objs[0]), objs[1..]);
    }
  }

  // ---------------------------------------------------------------------
  // The whole effect

  /** After a sync the map holds exactly the live ids; the entries removed
      are exactly those whose id is gone, and the counter never goes back. */
  lemma SyncKeys(m: Mirror, objs: seq<SceneObject>)
    ensures Sync(m, objs).nodes.Keys == IdSet(objs)
    ensures m.nodes.Keys - Sync(m, objs).nodes.Keys == m.nodes.Keys - IdSet(objs)
    ensures Sync(m, objs).nextHandle >= m.nextHandle
  {
    AddPassKeys(m, objs);
  }

  /** A live id that already had an entry keeps its node. */
  lemma SyncKeepsNodes(m: Mirror, objs: seq<SceneObject>)
    ensures forall k :: k in m.nodes && k in IdSet(objs) ==>
              && k in Sync(m, objs).nodes
              && Sync(m, objs).nodes[k].handle == m.nodes[k].handle
              && Sync(m, objs).nodes[k].tagId == m.nodes[k].tagId
              && Sync(m, objs).nodes[k].kind == m.nodes[k].kind
  {
    AddPassKeepsNodes(m, objs);
  }

  /** A live id without an entry gets a newly drawn node tagged with it. */
  lemma SyncCreates(m: Mirror, objs: seq<SceneObject>)
    ensures forall k :: k in IdSet(objs) && k !in m.nodes ==>
              && k in Sync(m, objs).nodes
              && Sync(m, objs).nodes[k].handle >= m.nextHandle
              && Sync(m, objs).nodes[k].tagId == k
              && Sync(m, objs).nodes[k].kind == KindFor(FirstWithId(objs, k).ty)
  {
    AddPassCreates(m, objs);
  }

  /** With unique ids, every object's node shows its transform, its colour
      when the node is a mesh, and no colour is ever put on a group. */
  lemma SyncMirrors(m: Mirror, objs: seq<SceneObject>)
    requires UniqueIds(objs)
    ensures forall i :: 0 <= i < |objs| ==>
              objs[i].id in Sync(m, objs).nodes && Mirrors(Sync(m, objs).nodes[objs[i].id], objs[i])
    ensures GroupsBare(m) ==> GroupsBare(Sync(m, objs))
  {
    AddPassCopies(m, objs);
    AddPassGroupMaterial(m, objs);
    AddPassKeys(m, objs);
    AddPassKeepsNodes(m, objs);
    AddPassCreates(m, objs);
    forall i | 0 <= i < |objs|
      ensures objs[i].id in Sync(m, objs).nodes && Mirrors(Sync(m, objs).nodes[objs[i].id], objs[i])
    {
      UniqueWithId(objs, i);
    }
  }

  /** A sync keeps the map well formed. */
  lemma SyncWellFormed(m: Mirror, objs: seq<SceneObject>)
    requires WellFormed(m)
    ensures WellFormed(Sync(m, objs))
  {
    AddPassWellFormed(m, objs);
  }

  /** Running the effect again on the same objects creates nothing, removes
      nothing and changes nothing. */
  lemma SyncIdempotent(m: Mirror, objs: seq<SceneObject>)
    ensures Sync(Sync(m, objs), objs) == Sync(m, objs)
  {
    var r1 := Sync(m, objs);
    var a2 := AddPass(r1, objs);
    var r2 := Sync(r1, objs);
    AddPassKeys(m, objs);
    AddPassCopies(m, objs);
    AddPassKeys(r1, objs);
    AddPassKeepsNodes(r1, objs);
    AddPassCopies(r1, objs);
    AddPassGroupMaterial(r1, objs);
    assert r2.nodes.Keys == r1.nodes.Keys;
    forall k | k in r1.nodes
      ensures r2.nodes[k] == r1.nodes[k]
    {
      var n1 := r1.nodes[k];
      var n2 := r2.nodes[k];
      assert n2 == a2.nodes[k];
      assert n2.handle == n1.handle && n2.tagId == n1.tagId && n2.kind == n1.kind;
      assert n2.position == n1.position && n2.rotation == n1.rotation && n2.scale == n1.scale;
      assert n2.material == n1.material;
    }
  }

  /** The first run of the effect, on the empty map: it creates one node per
      live id, well formed, and no group carries a colour. */
  lemma SyncFromEmpty(objs: seq<SceneObject>)
    ensures Sync(EmptyMirror, objs).nodes.Keys == IdSet(objs)
    ensures WellFormed(Sync(EmptyMirror, objs)) && GroupsBare(Sync(EmptyMirror, objs))
    ensures forall k :: k in IdSet(objs) ==>
              Sync(EmptyMirror, objs).nodes[k].kind == KindFor(FirstWithId(objs, k).ty)
  {
    assert WellFormed(EmptyMirror) && GroupsBare(EmptyMirror);
    SyncKeys(EmptyMirror, objs);
    SyncWellFormed(EmptyMirror, objs);
    SyncCreates(EmptyMirror, objs);
    AddPassGroupMaterial(EmptyMirror, objs);
  }
}
