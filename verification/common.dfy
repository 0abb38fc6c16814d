/** Small generic building blocks shared by the editor model: an optional
    value (TypeScript's `T | undefined`), order-preserving filtering
    (`Array.prototype.filter`) and the subsequence relation used to state
    that filtering keeps the original order. */
module Common {

  datatype Option<+T> = None | Some(value: T) {

    /** The wrapped value, or `default` when there is none (`x || default`). */
    function GetOr(default: T): T {
      match this
      case Some(v) => v
      case None => default
    }
  }

  /** `a` is obtained from `b` by deleting elements, keeping the order of the rest. */
  predicate IsSubseq<T(==)>(a: seq<T>, b: seq<T>)
    decreases |b|
  {
    if |a| == 0 then true
    else if |b| == 0 then false
    else (a[0] == b[0] && IsSubseq(a[1..], b[1..])) || IsSubseq(a, b[1..])
  }

  /** Every sequence is a subsequence of itself. */
  lemma {:induction false} SubseqRefl<T>(a: seq<T>)
    ensures IsSubseq(a, a)
    decreases |a|
  {
    if |a| > 0 {
      SubseqRefl(a[1..]);
    }
  }

  /** Every element of a subsequence occurs in the longer sequence. */
  lemma {:induction false} SubseqMembers<T>(a: seq<T>, b: seq<T>)
    requires IsSubseq(a, b)
    ensures forall x :: x in a ==> x in b
    decreases |b|
  {
    if |a| == 0 {
    } else if a[0] == b[0] && IsSubseq(a[1..], b[1..]) {
      SubseqMembers(a[1..], b[1..]);
      assert a == [a[0]] + a[1..];
    } else {
      SubseqMembers(a, b[1..]);
    }
  }

  /** The recursion behind `Filter`: order and membership. */
  function FilterRec<T(==)>(xs: seq<T>, keep: T -> bool): (r: seq<T>)
    ensures forall i :: 0 <= i < |r| ==> keep(r[i]) && r[i] in xs
    ensures forall i :: 0 <= i < |xs| && keep(xs[i]) ==> xs[i] in r
    ensures IsSubseq(r, xs)
    ensures (forall i :: 0 <= i < |xs| ==> keep(xs[i])) ==> r == xs
    decreases |xs|
  {
    if |xs| == 0 then []
    else if keep(xs[0]) then [xs[0]] + FilterRec(xs[1..], keep)
    else FilterRec(xs[1..], keep)
  }

  /** Each kept element survives as many times as it occurs; the others vanish. */
  lemma {:induction false} FilterRecCount<T(!new)>(xs: seq<T>, keep: T -> bool)
    ensures forall x :: multiset(FilterRec(xs, keep))[x] == (if keep(x) then multiset(xs)[x] else 0)
    decreases |xs|
  {
    if |xs| > 0 {
      FilterRecCount(xs[1..], keep);
      assert xs == [xs[0]] + xs[1..];
      assert multiset(xs) == multiset{xs[0]} + multiset(xs[1..]);
      if keep(xs[0]) {
        assert multiset([xs[0]] + FilterRec(xs[1..], keep)) == multiset{xs[0]} + multiset(FilterRec(xs[1..], keep));
      }
    }
  }

  /** `xs.filter(keep)`: the elements of `xs` that satisfy `keep`, in their
      original order, each kept element as many times as it occurs. */
  function Filter<T(==,!new)>(xs: seq<T>, keep: T -> bool): (r: seq<T>)
    ensures forall i :: 0 <= i < |r| ==> keep(r[i]) && r[i] in xs
    ensures forall i :: 0 <= i < |xs| && keep(xs[i]) ==> xs[i] in r
    ensures IsSubseq(r, xs)
    ensures (forall i :: 0 <= i < |xs| ==> keep(xs[i])) ==> r == xs
    ensures forall x :: multiset(r)[x] == (if keep(x) then multiset(xs)[x] else 0)
  {
    FilterRecCount(xs, keep);
    FilterRec(xs, keep)
  }
}
