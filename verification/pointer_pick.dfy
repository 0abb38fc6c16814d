/** The pointer-down selection rule of
    src/components/Three/SelectionManager.tsx, without the raycast: the
    intersections arrive as an ordered list of hits, each hit being the
    intersected node followed by its ancestors (parent first). A node may
    carry an object id tag, may be the grid, or may be the scene root. */
module PointerPick {
  import opened Common
  import Editor

  datatype PickNode = PickNode(tag: Option<string>, isGrid: bool, isScene: bool)

  /** One intersection: the node hit and its ancestor chain, parent first. */
  datatype Hit = Hit(target: PickNode, ancestors: seq<PickNode>)

  /** What the handler does to the selection. */
  datatype Outcome = Select(id: string) | Clear | Unchanged

  function Chain(h: Hit): seq<PickNode> {
    [h.target] + h.ancestors
  }

  /** JavaScript truthiness of `userData.id`: present and not `""`. */
  predicate Tagged(n: PickNode) {
    n.tag.Some? && n.tag.value != ""
  }

  /** Nothing up to and including position `j` of the chain is the scene. */
  predicate BelowRoot(chain: seq<PickNode>, j: nat)
    requires j < |chain|
  {
    forall k :: 0 <= k <= j ==> !chain[k].isScene
  }

  /** The parent walk `while (obj && obj !== scene)`: the position of the
      nearest tagged node strictly below the scene root, if any. */
  function NearestTagIndex(chain: seq<PickNode>): (r: Option<nat>)
    ensures r.Some? ==> r.value < |chain| && BelowRoot(chain, r.value) && Tagged(chain[r.value])
    ensures r.Some? ==> forall k :: 0 <= k < r.value ==> !Tagged(chain[k])
    ensures r.None? ==> forall j :: 0 <= j < |chain| && BelowRoot(chain, j) ==> !Tagged(chain[j])
    decreases |chain|
  {
    if |chain| == 0 || chain[0].isScene then None
    else if Tagged(chain[0]) then Some(0)
    else match NearestTagIndex(chain[1..])
      case None => None
      case Some(k) => Some(k + 1)
  }

  /** The id of the nearest tagged ancestor of a hit, if any. */
  function NearestTag(h: Hit): Option<string> {
    match NearestTagIndex(Chain(h))
    case None => None
    case Some(i) => Chain(h)[i].tag
  }

  /** `intersects.find(...)`: the first hit that has a tagged ancestor. */
  function FirstTaggedHit(hits: seq<Hit>): (r: Option<nat>)
    ensures r.Some? ==> r.value < |hits| && NearestTag(hits[r.value]).Some?
    ensures r.Some? ==> forall i :: 0 <= i < r.value ==> NearestTag(hits[i]).None?
    ensures r.None? ==> forall i :: 0 <= i < |hits| ==> NearestTag(hits[i]).None?
    decreases |hits|
  {
    if |hits| == 0 then None
    else if NearestTag(hits[0]).Some? then Some(0)
    else match FirstTaggedHit(hits[1..])
      case None => None
      case Some(k) => Some(k + 1)
  }

  /** `handlePointerDown` after the raycast. */
  function Pick(hits: seq<Hit>): (r: Outcome)
    ensures |hits| == 0 ==> r == Clear
    ensures forall i :: (0 <= i < |hits| && NearestTag(hits[i]).Some? &&
              (forall j :: 0 <= j < i ==> NearestTag(hits[j]).None?)) ==>
              r == Select(NearestTag(hits[i]).value)
    ensures r.Select? ==> exists i :: 0 <= i < |hits| && NearestTag(hits[i]) == Some(r.id)
    ensures (forall i :: 0 <= i < |hits| ==> NearestTag(hits[i]).None?) ==>
              && (r == Clear <==> |hits| == 0 || hits[0].target.isGrid)
              && (r == Unchanged <==> |hits| > 0 && !hits[0].target.isGrid)
  {
    if |hits| == 0 then Clear
    else match FirstTaggedHit(hits)
      case Some(i) =>
        (match NearestTag(hits[i])
         case Some(id) => Select(id)
         case None => Unchanged)
      case None =>
        if hits[0].target.isGrid then Clear else Unchanged
  }

  /** The walk never looks at the scene root or above it: two chains that
      agree below a root position give the same answer. */
  lemma {:induction false} WalkStopsAtRoot(c1: seq<PickNode>, c2: seq<PickNode>, i: nat)
    requires i < |c1| && i < |c2| && c1[i].isScene && c2[i].isScene
    requires c1[..i] == c2[..i]
    ensures NearestTagIndex(c1) == NearestTagIndex(c2)
    decreases i
  {
    if i > 0 {
      assert c1[0] == c1[..i][0] == c2[..i][0] == c2[0];
      assert c1[1..][..i - 1] == c1[..i][1..] == c2[..i][1..] == c2[1..][..i - 1];
      WalkStopsAtRoot(c1[1..], c2[1..], i - 1);
    }
  }

  /** Applying the outcome through the engine: a pick only ever changes the
      selection, never the document or its history. The source hands the
      bare id to `selectObject`, whose parameter is a list of ids; the model
      passes the one-element list. */
  function ApplyPick(s: Editor.EditorState, o: Outcome): (r: Editor.EditorState)
    ensures Editor.KeepsDocument(s, r) && r.transformMode == s.transformMode
    ensures o.Select? ==> r.selectedIds == [o.id]
    ensures o == Clear ==> r.selectedIds == []
    ensures o == Unchanged ==> r == s
  {
    match o
    case Select(id) => Editor.SelectObject(s, Some([id]))
    case Clear => Editor.SelectObject(s, None)
    case Unchanged => s
  }
}
