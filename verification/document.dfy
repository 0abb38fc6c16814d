/** The document model of the editor (src/context/EditorContext.tsx): the
    `SceneObject` record, partial updates merged with object spread, the
    construction defaults (colour, name, seeded object) and identity lookups
    over an object list. Vector components are reals standing for JavaScript
    numbers; ids, colours and names are strings. */
module Document {
  import opened Common
  import opened Numerals

  datatype ObjectType = Cube | Sphere | Mushroom

  datatype Vec3 = Vec3(x: real, y: real, z: real)

  const Origin := Vec3(0.0, 0.0, 0.0)
  const UnitScale := Vec3(1.0, 1.0, 1.0)

  /** One editable entity; `name` is optional as in the source interface. */
  datatype SceneObject = SceneObject(
    id: string,
    ty: ObjectType,
    position: Vec3,
    rotation: Vec3,
    scale: Vec3,
    color: string,
    name: Option<string>)

  /** `Partial<SceneObject>`: every field may be absent. */
  datatype Patch = Patch(
    id: Option<string>,
    ty: Option<ObjectType>,
    position: Option<Vec3>,
    rotation: Option<Vec3>,
    scale: Option<Vec3>,
    color: Option<string>,
    name: Option<string>)

  const EmptyPatch := Patch(None, None, None, None, None, None, None)

  /** `{...obj, ...updates}`: each field present in the patch replaces the
      object's field, whatever it is (the id and the type included). */
  function Merge(o: SceneObject, p: Patch): SceneObject {
    SceneObject(
      p.id.GetOr(o.id),
      p.ty.GetOr(o.ty),
      p.position.GetOr(o.position),
      p.rotation.GetOr(o.rotation),
      p.scale.GetOr(o.scale),
      p.color.GetOr(o.color),
      if p.name.Some? then p.name else o.name)
  }

  /** The field-wise override of `p` by `q`: what one spread of `p` followed
      by one spread of `q` amounts to. */
  function Then(p: Patch, q: Patch): Patch {
    Patch(
      if q.id.Some? then q.id else p.id,
      if q.ty.Some? then q.ty else p.ty,
      if q.position.Some? then q.position else p.position,
      if q.rotation.Some? then q.rotation else p.rotation,
      if q.scale.Some? then q.scale else p.scale,
      if q.color.Some? then q.color else p.color,
      if q.name.Some? then q.name else p.name)
  }

  /** Every field `p` sets, `q` sets too. */
  predicate Covers(q: Patch, p: Patch) {
    && (p.id.Some? ==> q.id.Some?)
    && (p.ty.Some? ==> q.ty.Some?)
    && (p.position.Some? ==> q.position.Some?)
    && (p.rotation.Some? ==> q.rotation.Some?)
    && (p.scale.Some? ==> q.scale.Some?)
    && (p.color.Some? ==> q.color.Some?)
    && (p.name.Some? ==> q.name.Some?)
  }

  /** Spreading an empty partial object changes nothing. */
  lemma MergeEmpty(o: SceneObject)
    ensures Merge(o, EmptyPatch) == o
  {
  }

  /** Two successive spreads equal one spread of the combined patch. */
  lemma MergeThen(o: SceneObject, p: Patch, q: Patch)
    ensures Merge(Merge(o, p), q) == Merge(o, Then(p, q))
  {
  }

  /** A later patch that sets every field the earlier one set erases the
      earlier one: only the last update is visible. */
  lemma MergeCovered(o: SceneObject, p: Patch, q: Patch)
    requires Covers(q, p)
    ensures Merge(Merge(o, p), q) == Merge(o, q)
  {
  }

  /** A patch without an id or type field keeps the object's identity and
      type; fields it does not mention are untouched. */
  lemma MergeKeepsUnmentioned(o: SceneObject, p: Patch)
    ensures p.id.None? ==> Merge(o, p).id == o.id
    ensures p.ty.None? ==> Merge(o, p).ty == o.ty
    ensures p.position.None? ==> Merge(o, p).position == o.position
    ensures p.rotation.None? ==> Merge(o, p).rotation == o.rotation
    ensures p.scale.None? ==> Merge(o, p).scale == o.scale
    ensures p.color.None? ==> Merge(o, p).color == o.color
    ensures p.name.None? ==> Merge(o, p).name == o.name
  {
  }

  // ---------------------------------------------------------------------
  // Construction defaults

  /** The literal of the `ObjectType` union. */
  function TypeLabel(t: ObjectType): string {
    match t
    case Cube => "cube"
    case Sphere => "sphere"
    case Mushroom => "mushroom"
  }

  /** Default colour by type: indigo cube, pink sphere, white otherwise. */
  function DefaultColor(t: ObjectType): string {
    if t == Cube then "#6366f1"
    else if t == Sphere then "#ec4899"
    else "#ffffff"
  }

  function UpperAscii(c: char): char {
    if 'a' <= c <= 'z' then (c as int - 32) as char else c
  }

  /** `s.charAt(0).toUpperCase() + s.slice(1)` on ASCII text. */
  function Capitalize(s: string): string {
    if |s| == 0 then s else [UpperAscii(s[0])] + s[1..]
  }

  function TypeTitle(t: ObjectType): string {
    Capitalize(TypeLabel(t))
  }

  /** The display title of each type is its label with a capital initial. */
  lemma TypeTitles()
    ensures TypeTitle(Cube) == "Cube"
    ensures TypeTitle(Sphere) == "Sphere"
    ensures TypeTitle(Mushroom) == "Mushroom"
  {
  }

  /** `"<Type> <ordinal>"`, the default name of a new object. */
  function DefaultName(t: ObjectType, ordinal: nat): string {
    TypeTitle(t) + " " + DecimalString(ordinal)
  }

  /** A default name reads back as the type's title, one space, and the
      ordinal it was built from. */
  lemma {:induction false} DefaultNameOrdinal(t: ObjectType, ordinal: nat)
    ensures var name := DefaultName(t, ordinal);
            var k := |TypeTitle(t)|;
            && k + 1 < |name|
            && name[..k] == TypeTitle(t)
            && name[k] == ' '
            && ParseDecimal(name[k + 1..]) == ordinal
  {
    var name := DefaultName(t, ordinal);
    var k := |TypeTitle(t)|;
    assert name[k + 1..] == DecimalString(ordinal);
    ParseDecimalString(ordinal);
  }

  /** JavaScript truthiness of an optional name: absent and `""` are false. */
  predicate HasName(name: Option<string>) {
    name.Some? && name.value != ""
  }

  const CopySuffix := " (Copy)"

  /** The name given to a duplicate. */
  function CopyName(name: Option<string>): (r: string)
    ensures |r| >= |CopySuffix| && r[|r| - |CopySuffix|..] == CopySuffix
    ensures HasName(name) ==> r[..|r| - |CopySuffix|] == name.value
    ensures !HasName(name) ==> r[..|r| - |CopySuffix|] == "Object"
  {
    if HasName(name) then name.value + CopySuffix else "Object (Copy)"
  }

  /** The object the editor session starts with. */
  function SeedObject(id: string): (o: SceneObject)
    ensures o.id == id && o.ty == Mushroom
    ensures o.position == Origin && o.rotation == Origin && o.scale == UnitScale
    ensures o.color == DefaultColor(Mushroom)
    ensures o.name == Some(DefaultName(Mushroom, 1))
  {
    assert DecimalString(1) == "1";
    assert TypeTitle(Mushroom) == "Mushroom";
    assert DefaultName(Mushroom, 1) == "Mushroom" + " " + "1" == "Mushroom 1";
    SceneObject(id, Mushroom, Vec3(0.0, 0.0, 0.0), Vec3(0.0, 0.0, 0.0), Vec3(1.0, 1.0, 1.0),
                "#ffffff", Some("Mushroom 1"))
  }

  // ---------------------------------------------------------------------
  // Identity over an object list

  function IdSet(objs: seq<SceneObject>): set<string> {
    set i | 0 <= i < |objs| :: objs[i].id
  }

  predicate UniqueIds(objs: seq<SceneObject>) {
    forall i, j :: 0 <= i < j < |objs| ==> objs[i].id != objs[j].id
  }

  lemma IdSetCons(objs: seq<SceneObject>)
    requires |objs| > 0
    ensures IdSet(objs) == {objs[0].id} + IdSet(objs[1..])
  {
    assert forall i :: 0 < i < |objs| ==> objs[i] == objs[1..][i - 1];
  }

  /** Appending one object: the old list is a prefix, the id set grows by
      the new id, and ids stay unique when that id was not in use. */
  lemma AppendObject(objs: seq<SceneObject>, o: SceneObject)
    ensures |objs + [o]| == |objs| + 1 && (objs + [o])[..|objs|] == objs && (objs + [o])[|objs|] == o
    ensures IdSet(objs + [o]) == IdSet(objs) + {o.id}
    ensures UniqueIds(objs) && o.id !in IdSet(objs) ==> UniqueIds(objs + [o])
  {
    var r := objs + [o];
    assert forall i :: 0 <= i < |objs| ==> r[i] == objs[i];
    if UniqueIds(objs) && o.id !in IdSet(objs) {
      forall i, j | 0 <= i < j < |r| ensures r[i].id != r[j].id {
        if j == |objs| {
          assert r[i].id in IdSet(objs);
        }
      }
    }
  }

  /** `objs.find(o => o.id === id)`, as the index of the first match. */
  function FindIndex(objs: seq<SceneObject>, id: string): (r: Option<nat>)
    ensures r.None? <==> id !in IdSet(objs)
    ensures r.Some? ==> r.value < |objs| && objs[r.value].id == id
    ensures r.Some? ==> forall j :: 0 <= j < r.value ==> objs[j].id != id
    decreases |objs|
  {
    if |objs| == 0 then None
    else if objs[0].id == id then Some(0)
    else match FindIndex(objs[1..], id)
      case None => assert IdSet(objs) == {objs[0].id} + IdSet(objs[1..]); None
      case Some(k) => Some(k + 1)
  }

  /** `objs.map(o => o.id === id ? {...o, ...p} : o)`. */
  function MergeWhere(objs: seq<SceneObject>, id: string, p: Patch): (r: seq<SceneObject>)
    ensures |r| == |objs|
    ensures forall i :: 0 <= i < |objs| && objs[i].id == id ==> r[i] == Merge(objs[i], p)
    ensures forall i :: 0 <= i < |objs| && objs[i].id != id ==> r[i] == objs[i]
    decreases |objs|
  {
    if |objs| == 0 then []
    else [if objs[0].id == id then Merge(objs[0], p) else objs[0]] + MergeWhere(objs[1..], id, p)
  }

  /** A sub-list of a list with unique ids has unique ids. */
  lemma {:induction false} SubseqKeepsUnique(a: seq<SceneObject>, b: seq<SceneObject>)
    requires IsSubseq(a, b) && UniqueIds(b)
    ensures UniqueIds(a)
    decreases |b|
  {
    if |a| == 0 {
    } else if a[0] == b[0] && IsSubseq(a[1..], b[1..]) {
      SubseqKeepsUnique(a[1..], b[1..]);
      SubseqMembers(a[1..], b[1..]);
      forall i, j | 0 <= i < j < |a| ensures a[i].id != a[j].id {
        if i > 0 {
          assert a[i] == a[1..][i - 1] && a[j] == a[1..][j - 1];
        } else {
          assert a[j] in b[1..];
          var m :| 0 <= m < |b[1..]| && b[1..][m] == a[j];
          assert b[m + 1] == a[j];
        }
      }
    } else {
      SubseqKeepsUnique(a, b[1..]);
    }
  }
}
