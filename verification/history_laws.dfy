/** Laws of the undo/redo history kept by `EditorProvider`
    (src/context/EditorContext.tsx): undo and redo invert each other, undo
    inverts every committing operation, a commit discards the redo branch,
    transient updates stay out of history, ids stay unique given fresh ids,
    and one add/duplicate/undo/redo run plays out as the code computes it. */
module HistoryLaws {
  import opened Common
  import opened Document
  import opened Editor

  // ---------------------------------------------------------------------
  // Undo and redo are inverse steps

  /** Redo right after undo restores the document and both stacks; the
      selection keeps the pruning undo applied. */
  lemma UndoThenRedo(s: EditorState)
    requires |s.past| > 0
    ensures var r := Redo(Undo(s));
            && r.objects == s.objects && r.past == s.past && r.future == s.future
            && r.transformMode == s.transformMode
            && r.selectedIds == Undo(s).selectedIds
  {
  }

  /** Undo right after redo restores the document and both stacks, and the
      whole state when every selected id was live. */
  lemma RedoThenUndo(s: EditorState)
    requires |s.future| > 0
    ensures var r := Undo(Redo(s));
            && r.objects == s.objects && r.past == s.past && r.future == s.future
            && r.transformMode == s.transformMode
    ensures SelectionLive(s) ==> Undo(Redo(s)) == s
  {
    if SelectionLive(s) {
      var live := IdSet(s.objects);
      assert Undo(Redo(s)).selectedIds == Filter(s.selectedIds, id => id in live);
    }
  }

  /** Undo and redo on an empty stack change nothing at all. */
  lemma EmptyStacksAreNoOps(s: EditorState)
    ensures |s.past| == 0 ==> Undo(s) == s
    ensures |s.future| == 0 ==> Redo(s) == s
  {
  }

  // ---------------------------------------------------------------------
  // Committing operations

  /** Undo after any committing transition brings back the objects and the
      history from before it, with the undone objects as the only redo step. */
  lemma UndoRevertsCommit(s: EditorState, r: EditorState)
    requires Commits(s, r)
    ensures Undo(r).objects == s.objects && Undo(r).past == s.past
    ensures Undo(r).future == [r.objects]
  {
  }

  /** A commit leaves nothing to redo. */
  lemma CommitDropsRedo(s: EditorState, r: EditorState)
    requires Commits(s, r)
    ensures Redo(r) == r
  {
  }

  /** The commands that push history: save, add, delete, a non-transient
      update, and a duplicate of an existing id. */
  predicate IsCommitting(s: EditorState, c: Command) {
    match c
    case Save => true
    case Add(_, _) => true
    case Delete(_) => true
    case Update(_, _, transient) => !transient
    case Duplicate(id, _) => id in IdSet(s.objects)
    case _ => false
  }

  /** Exactly the committing commands push the pre-mutation objects and clear
      the redo stack; the others leave both stacks alone unless they are undo
      or redo. */
  lemma CommittingCommands(s: EditorState, c: Command)
    ensures IsCommitting(s, c) ==> Commits(s, Apply(s, c))
    ensures !IsCommitting(s, c) && !c.UndoCmd? && !c.RedoCmd? ==>
              Apply(s, c).past == s.past && Apply(s, c).future == s.future
  {
  }

  /** The states a run of commands passes through, the start state first. */
  function Trace(s: EditorState, cs: seq<Command>): (t: seq<EditorState>)
    ensures |t| == |cs| + 1 && t[0] == s && t[|cs|] == Run(s, cs)
    ensures forall i :: 0 <= i < |cs| ==> t[i + 1] == Apply(t[i], cs[i])
    decreases |cs|
  {
    if |cs| == 0 then [s] else [s] + Trace(Apply(s, cs[0]), cs[1..])
  }

  /** Every command of the run commits, each in the state it is applied to
      (`CommittingRunCommits` shows that any run of `IsCommitting` commands
      does). */
  predicate AllCommit(s: EditorState, cs: seq<Command>) {
    var t := Trace(s, cs);
    forall i :: 0 <= i < |cs| ==> Commits(t[i], t[i + 1])
  }

  /** A run whose every command is committing in the state it meets is a
      run in which every step commits. */
  lemma CommittingRunCommits(s: EditorState, cs: seq<Command>)
    requires forall i :: 0 <= i < |cs| ==> IsCommitting(Trace(s, cs)[i], cs[i])
    ensures AllCommit(s, cs)
  {
    var t := Trace(s, cs);
    forall i | 0 <= i < |cs|
      ensures Commits(t[i], t[i + 1])
    {
      CommittingCommands(t[i], cs[i]);
    }
  }

  function UndoTimes(s: EditorState, n: nat): EditorState
    decreases n
  {
    if n == 0 then s else Undo(UndoTimes(s, n - 1))
  }

  /** One more undo steps back over one more commit. */
  lemma UndoOneMore(s: EditorState, s1: EditorState, end: EditorState, n: nat)
    requires Commits(s, s1)
    requires UndoTimes(end, n).objects == s1.objects && UndoTimes(end, n).past == s1.past
    ensures UndoTimes(end, n + 1).objects == s.objects && UndoTimes(end, n + 1).past == s.past
  {
  }

  /** Along a chain of commits, undoing once per commit from the last state
      returns to the objects and `past` of the first. */
  lemma {:induction false} UndoCommitChain(t: seq<EditorState>)
    requires |t| > 0
    requires forall i :: 0 <= i < |t| - 1 ==> Commits(t[i], t[i + 1])
    ensures UndoTimes(t[|t| - 1], |t| - 1).objects == t[0].objects
    ensures UndoTimes(t[|t| - 1], |t| - 1).past == t[0].past
    decreases |t|
  {
    if |t| > 1 {
      var u := t[1..];
      assert u[|u| - 1] == t[|t| - 1] && u[0] == t[1];
      forall i | 0 <= i < |u| - 1
        ensures Commits(u[i], u[i + 1])
      {
        assert u[i] == t[i + 1] && u[i + 1] == t[i + 2];
      }
      UndoCommitChain(u);
      UndoOneMore(t[0], t[1], t[|t| - 1], |t| - 2);
    }
  }

  /** Undoing as many times as there were committing commands brings the
      objects and the `past` stack back to where the run started. */
  lemma UndoAllCommits(s: EditorState, cs: seq<Command>)
    requires AllCommit(s, cs)
    ensures UndoTimes(Run(s, cs), |cs|).objects == s.objects
    ensures UndoTimes(Run(s, cs), |cs|).past == s.past
  {
    UndoCommitChain(Trace(s, cs));
  }

  /** The same, stated over the calls: after a run of calls each of which is
      committing in the state it meets, one undo per call restores the
      starting objects and `past`. */
  lemma UndoCommittingRun(s: EditorState, cs: seq<Command>)
    requires forall i :: 0 <= i < |cs| ==> IsCommitting(Trace(s, cs)[i], cs[i])
    ensures UndoTimes(Run(s, cs), |cs|).objects == s.objects
    ensures UndoTimes(Run(s, cs), |cs|).past == s.past
  {
    CommittingRunCommits(s, cs);
    UndoAllCommits(s, cs);
  }

  // ---------------------------------------------------------------------
  // Transient updates

  /** Two transient updates of the same object, the second setting every
      field the first did, amount to the second alone: a drag leaves only its
      last frame and no history. */
  lemma TransientUpdatesCollapse(s: EditorState, id: string, p: Patch, q: Patch)
    requires p.id.None? && Covers(q, p)
    ensures UpdateObject(UpdateObject(s, id, p, true), id, q, true) == UpdateObject(s, id, q, true)
  {
    var a := UpdateObject(UpdateObject(s, id, p, true), id, q, true);
    var b := UpdateObject(s, id, q, true);
    forall i | 0 <= i < |s.objects|
      ensures a.objects[i] == b.objects[i]
    {
      if s.objects[i].id == id {
        MergeCovered(s.objects[i], p, q);
      }
    }
  }

  /** The frames of a drag: one transient update of `id` per patch, in order. */
  function UpdateAll(s: EditorState, id: string, ps: seq<Patch>): (r: EditorState)
    ensures r.past == s.past && r.future == s.future
    ensures r.selectedIds == s.selectedIds && r.transformMode == s.transformMode
    decreases |ps|
  {
    if |ps| == 0 then s else UpdateAll(UpdateObject(s, id, ps[0], true), id, ps[1..])
  }

  /** Every field `p` sets, a patch covering a patch covering `p` sets too. */
  lemma CoversTrans(a: Patch, b: Patch, c: Patch)
    requires Covers(a, b) && Covers(b, c)
    ensures Covers(a, c)
  {
  }

  /** In a chain where each patch covers the one before, the last covers all. */
  lemma {:induction false} CoversChain(ps: seq<Patch>)
    requires |ps| > 0
    requires forall i :: 0 <= i < |ps| - 1 ==> Covers(ps[i + 1], ps[i])
    ensures forall i :: 0 <= i < |ps| ==> Covers(ps[|ps| - 1], ps[i])
    decreases |ps|
  {
    if |ps| > 1 {
      var u := ps[1..];
      forall i | 0 <= i < |u| - 1
        ensures Covers(u[i + 1], u[i])
      {
        assert u[i] == ps[i + 1] && u[i + 1] == ps[i + 2];
      }
      CoversChain(u);
      assert u[|u| - 1] == ps[|ps| - 1] && u[0] == ps[1];
      CoversTrans(ps[|ps| - 1], ps[1], ps[0]);
      forall i | 1 <= i < |ps|
        ensures Covers(ps[|ps| - 1], ps[i])
      {
        assert ps[i] == u[i - 1];
      }
    }
  }

  /** A whole drag, each frame setting every field the previous one did,
      amounts to its last frame alone, and leaves the history as it was. */
  lemma {:induction false} TransientRun(s: EditorState, id: string, ps: seq<Patch>)
    requires |ps| > 0
    requires forall i :: 0 <= i < |ps| ==> ps[i].id.None?
    requires forall i :: 0 <= i < |ps| - 1 ==> Covers(ps[i + 1], ps[i])
    ensures UpdateAll(s, id, ps) == UpdateObject(s, id, ps[|ps| - 1], true)
    ensures UpdateAll(s, id, ps).past == s.past && UpdateAll(s, id, ps).future == s.future
    decreases |ps|
  {
    if |ps| == 1 {
      assert UpdateAll(s, id, ps) == UpdateAll(UpdateObject(s, id, ps[0], true), id, []);
    } else {
      var s1 := UpdateObject(s, id, ps[0], true);
      var u := ps[1..];
      forall i | 0 <= i < |u| - 1
        ensures Covers(u[i + 1], u[i])
      {
        assert u[i] == ps[i + 1] && u[i + 1] == ps[i + 2];
      }
      assert u[|u| - 1] == ps[|ps| - 1];
      TransientRun(s1, id, u);
      CoversChain(ps);
      TransientUpdatesCollapse(s, id, ps[0], ps[|ps| - 1]);
    }
  }

  // ---------------------------------------------------------------------
  // Id uniqueness across the document and its snapshots

  predicate Valid(s: EditorState) {
    && UniqueIds(s.objects)
    && (forall i :: 0 <= i < |s.past| ==> UniqueIds(s.past[i]))
    && (forall i :: 0 <= i < |s.future| ==> UniqueIds(s.future[i]))
  }

  /** What the id supply must guarantee for `c`: ids drawn for new objects
      are not in use, and an update does not rename an object onto a live id. */
  predicate FreshFor(s: EditorState, c: Command) {
    match c
    case Add(_, newId) => newId !in IdSet(s.objects)
    case Duplicate(_, newId) => newId !in IdSet(s.objects)
    case Update(id, p, _) => p.id.None? || p.id.value == id || p.id.value !in IdSet(s.objects)
    case _ => true
  }

  /** Merging into the objects of one id keeps ids unique unless the patch
      renames onto another live id. */
  lemma MergeWhereKeepsUnique(objs: seq<SceneObject>, id: string, p: Patch)
    requires UniqueIds(objs)
    requires p.id.None? || p.id.value == id || p.id.value !in IdSet(objs)
    ensures UniqueIds(MergeWhere(objs, id, p))
  {
    var r := MergeWhere(objs, id, p);
    forall i, j | 0 <= i < j < |r| ensures r[i].id != r[j].id {
      assert objs[i].id in IdSet(objs) && objs[j].id in IdSet(objs);
    }
  }

  /** Every command keeps ids unique in the document and in every snapshot,
      provided the ids it introduces are fresh. */
  lemma ApplyKeepsValid(s: EditorState, c: Command)
    requires Valid(s) && FreshFor(s, c)
    ensures Valid(Apply(s, c))
  {
    var r := Apply(s, c);
    match c
    case Update(id, p, _) =>
      MergeWhereKeepsUnique(s.objects, id, p);
      assert r.objects == MergeWhere(s.objects, id, p);
    case UndoCmd =>
      if |s.past| > 0 {
        assert r.objects == s.past[|s.past| - 1];
        assert forall i :: 0 <= i < |r.past| ==> r.past[i] == s.past[i];
        assert forall i :: 0 < i < |r.future| ==> r.future[i] == s.future[i - 1];
      }
    case RedoCmd =>
      if |s.future| > 0 {
        assert r.objects == s.future[0];
        assert forall i :: 0 <= i < |r.future| ==> r.future[i] == s.future[i + 1];
      }
    case _ =>
  }

  /** The seeded start state has unique ids: one object and no snapshots. */
  lemma InitialValid(seedId: string)
    ensures Valid(Initial(seedId))
  {
  }

  /** Every command of the run meets the id supply's guarantee in the state
      it is applied to. */
  predicate FreshRun(s: EditorState, cs: seq<Command>) {
    var t := Trace(s, cs);
    forall i :: 0 <= i < |cs| ==> FreshFor(t[i], cs[i])
  }

  /** A run of calls with fresh ids keeps ids unique in every state it passes
      through. */
  lemma {:induction false} RunKeepsValid(s: EditorState, cs: seq<Command>)
    requires Valid(s) && FreshRun(s, cs)
    ensures forall i :: 0 <= i <= |cs| ==> Valid(Trace(s, cs)[i])
    ensures Valid(Run(s, cs))
    decreases |cs|
  {
    if |cs| > 0 {
      var s1 := Apply(s, cs[0]);
      var t := Trace(s, cs);
      var t1 := Trace(s1, cs[1..]);
      assert t == [s] + t1;
      ApplyKeepsValid(s, cs[0]);
      assert FreshRun(s1, cs[1..]) by {
        forall i | 0 <= i < |cs| - 1
          ensures FreshFor(t1[i], cs[1..][i])
        {
          assert t[i + 1] == t1[i] && cs[i + 1] == cs[1..][i];
        }
      }
      RunKeepsValid(s1, cs[1..]);
      forall i | 0 < i <= |cs|
        ensures Valid(t[i])
      {
        assert t[i] == t1[i - 1];
      }
    }
  }

  /** From the seeded document, any run of calls with fresh ids keeps ids
      unique in the document and in every snapshot. */
  lemma ReachableValid(seedId: string, cs: seq<Command>)
    requires FreshRun(Initial(seedId), cs)
    ensures Valid(Run(Initial(seedId), cs))
  {
    InitialValid(seedId);
    RunKeepsValid(Initial(seedId), cs);
  }

  // ---------------------------------------------------------------------
  // Selection

  /** Toggling an unselected id twice restores the state. */
  lemma ToggleTwice(s: EditorState, id: string)
    requires id !in s.selectedIds
    ensures ToggleSelection(ToggleSelection(s, id), id) == s
  {
    var t := ToggleSelection(s, id);
    assert t.selectedIds == s.selectedIds + [id];
    var r := ToggleSelection(t, id);
    assert r.selectedIds == Filter(t.selectedIds, x => x != id);
    FilterDropsLast(s.selectedIds, id);
  }

  /** Filtering out `id` from a list that ends with it, and holds it nowhere
      else, gives the list without that last element. */
  lemma {:induction false} FilterDropsLast(xs: seq<string>, id: string)
    requires id !in xs
    ensures Filter(xs + [id], x => x != id) == xs
    decreases |xs|
  {
    if |xs| == 0 {
      assert Filter([id], x => x != id) == Filter([], x => x != id);
    } else {
      assert (xs + [id])[1..] == xs[1..] + [id];
      FilterDropsLast(xs[1..], id);
    }
  }

  /** Undo prunes stale selected ids, but redo does not: deleting the seeded
      object, undoing, selecting it and redoing leaves the selection naming an
      object that is no longer in the document. */
  lemma RedoKeepsStaleSelection()
    ensures var s := Run(Initial("m"), [Delete("m"), UndoCmd, Select(Some(["m"])), RedoCmd]);
            s.selectedIds == ["m"] && "m" !in IdSet(s.objects)
  {
    var s0 := Initial("m");
    var s1 := Apply(s0, Delete("m"));
    var s2 := Apply(s1, UndoCmd);
    var s3 := Apply(s2, Select(Some(["m"])));
    var s4 := Apply(s3, RedoCmd);
    assert s4.objects == s1.objects;
    assert Run(s0, [Delete("m"), UndoCmd, Select(Some(["m"])), RedoCmd]) == s4 by {
      assert [Delete("m"), UndoCmd, Select(Some(["m"])), RedoCmd][1..] == [UndoCmd, Select(Some(["m"])), RedoCmd];
      assert [UndoCmd, Select(Some(["m"])), RedoCmd][1..] == [Select(Some(["m"])), RedoCmd];
      assert [Select(Some(["m"])), RedoCmd][1..] == [RedoCmd];
      assert Run(s4, []) == s4;
    }
  }

  /** Add a cube, duplicate it, undo twice, redo once. */
  lemma AddDuplicateUndoRedoScenario(seed: string, c1: string, c2: string)
    requires seed != c1 && c1 != c2 && seed != c2
    ensures var s0 := Initial(seed);
            var s1 := AddObject(s0, Cube, c1);
            var s2 := DuplicateObject(s1, c1, c2);
            var s3 := Undo(Undo(s2));
            var s4 := Redo(s3);
            && |s1.objects| == 2 && s1.objects[0] == s0.objects[0] && s1.objects[1].id == c1
            && s1.selectedIds == [c1]
            && |s2.objects| == 3 && s2.objects[..2] == s1.objects && s2.selectedIds == [c2]
            && s2.objects[2].position.x == s1.objects[1].position.x + 2.0
            && s3.objects == s0.objects && s3.selectedIds == []
            && s4.objects == s1.objects && s4.selectedIds == []
  {
    var s0 := Initial(seed);
    var s1 := AddObject(s0, Cube, c1);
    assert c1 in IdSet(s1.objects) by { assert s1.objects[1].id == c1; }
    var s2 := DuplicateObject(s1, c1, c2);
    assert FindIndex(s1.objects, c1) == Some(1);
    assert IsDuplicate(s2.objects[2], s1.objects[1], c2);
    var u1 := Undo(s2);
    assert u1.objects == s1.objects;
    assert u1.selectedIds == [] by {
      assert c2 !in IdSet(s1.objects);
    }
    var s3 := Undo(u1);
    assert s3.objects == s0.objects;
  }
}
