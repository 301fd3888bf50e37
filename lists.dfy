/** The array updates MongoDB performs for the routes: `$pull` (remove every
    match), `$addToSet` (append unless present) and `$push` at position 0. */
module Lists {
  import opened Js

  /** The position of the first element `p` accepts, if any. */
  function FirstIndex<T>(xs: seq<T>, p: T -> bool): (r: Option<nat>)
    ensures r.None? <==> forall i :: 0 <= i < |xs| ==> !p(xs[i])
    ensures r.Some? ==> r.value < |xs| && p(xs[r.value])
    ensures r.Some? ==> forall j :: 0 <= j < r.value ==> !p(xs[j])
  {
    if xs == [] then None
    else if p(xs[0]) then Some(0)
    else
      match FirstIndex(xs[1..], p)
      case None => None
      case Some(k) => Some(k + 1)
  }

  /** Replacing the first accepted element by another accepted one keeps
      it first. */
  lemma FirstIndexAfterUpdate<T>(xs: seq<T>, p: T -> bool, i: nat, x: T)
    requires FirstIndex(xs, p) == Some(i)
    requires p(x)
    ensures FirstIndex(xs[i := x], p) == Some(i)
  {
    var ys := xs[i := x];
    assert p(ys[i]);
  }

  /** An accepted element appended to a sequence with none comes first. */
  lemma FirstIndexAfterAppend<T>(xs: seq<T>, p: T -> bool, x: T)
    requires FirstIndex(xs, p).None?
    requires p(x)
    ensures FirstIndex(xs + [x], p) == Some(|xs|)
  {
    var ys := xs + [x];
    assert p(ys[|xs|]);
  }

  /** `xs` without the element at position `i`. */
  function RemoveAt<T>(xs: seq<T>, i: nat): (r: seq<T>)
    requires i < |xs|
    ensures |r| == |xs| - 1
    ensures forall j :: 0 <= j < i ==> r[j] == xs[j]
    ensures forall j :: i <= j < |r| ==> r[j] == xs[j + 1]
  {
    xs[..i] + xs[i + 1..]
  }

  /** The elements of `xs` that `keep` accepts, in their order. */
  function Filter<T>(xs: seq<T>, keep: T -> bool): (r: seq<T>)
    ensures |r| <= |xs|
    ensures forall i :: 0 <= i < |r| ==> r[i] in xs && keep(r[i])
    ensures forall i :: 0 <= i < |xs| && keep(xs[i]) ==> xs[i] in r
  {
    if xs == [] then []
    else if keep(xs[0]) then [xs[0]] + Filter(xs[1..], keep)
    else Filter(xs[1..], keep)
  }

  /** Filtering commutes with concatenation: what is kept keeps its order. */
  lemma {:induction false} FilterConcat<T>(a: seq<T>, b: seq<T>, keep: T -> bool)
    ensures Filter(a + b, keep) == Filter(a, keep) + Filter(b, keep)
  {
    if a == [] {
      assert a + b == b;
    } else {
      assert (a + b)[1..] == a[1..] + b;
      FilterConcat(a[1..], b, keep);
    }
  }

  /** Filtering out a rejected head of otherwise accepted elements. */
  lemma FilterDropsHead<T>(x: T, xs: seq<T>, keep: T -> bool)
    requires !keep(x)
    requires forall i :: 0 <= i < |xs| ==> keep(xs[i])
    ensures Filter([x] + xs, keep) == xs
  {
    FilterConcat([x], xs, keep);
    FilterKeepsAll(xs, keep);
  }

  /** A sequence every element of which is kept is left as it is. */
  lemma {:induction false} FilterKeepsAll<T>(xs: seq<T>, keep: T -> bool)
    requires forall i :: 0 <= i < |xs| ==> keep(xs[i])
    ensures Filter(xs, keep) == xs
  {
    if xs != [] {
      FilterKeepsAll(xs[1..], keep);
    }
  }

  /** Filtering keeps every kept element as often as it occurred. */
  lemma {:induction false} FilterCount<T>(xs: seq<T>, keep: T -> bool, x: T)
    ensures multiset(Filter(xs, keep))[x] == if keep(x) then multiset(xs)[x] else 0
  {
    if xs != [] {
      FilterCount(xs[1..], keep, x);
      assert xs == [xs[0]] + xs[1..];
      assert multiset(xs) == multiset{xs[0]} + multiset(xs[1..]);
      if keep(xs[0]) {
        assert multiset(Filter(xs, keep)) == multiset{xs[0]} + multiset(Filter(xs[1..], keep));
      }
    }
  }

  /** `$pull: { likes: v }`: remove every occurrence of `v`. */
  function PullAll<T(==)>(xs: seq<T>, v: T): (r: seq<T>)
    ensures v !in r
    ensures forall i :: 0 <= i < |r| ==> r[i] in xs
    ensures forall i :: 0 <= i < |xs| && xs[i] != v ==> xs[i] in r
  {
    Filter(xs, y => y != v)
  }

  /** Pulling `v` leaves every other element exactly as often as it was. */
  lemma PullAllCount<T>(xs: seq<T>, v: T, y: T)
    ensures multiset(PullAll(xs, v))[y] == if y == v then 0 else multiset(xs)[y]
  {
    FilterCount(xs, z => z != v, y);
  }

  /** `$addToSet: { likes: v }`: append `v` unless it is already present. */
  function AddToSet<T(==)>(xs: seq<T>, v: T): (r: seq<T>)
    ensures v in r
    ensures forall i :: 0 <= i < |xs| ==> xs[i] in r
    ensures forall i :: 0 <= i < |r| ==> r[i] in xs || r[i] == v
    ensures v in xs ==> r == xs
    ensures v !in xs ==> |r| == |xs| + 1 && r[..|xs|] == xs && r[|xs|] == v
  {
    if v in xs then xs else xs + [v]
  }

  /** Adding twice is adding once. */
  lemma AddToSetIdempotent<T>(xs: seq<T>, v: T)
    ensures AddToSet(AddToSet(xs, v), v) == AddToSet(xs, v)
  {
  }

  /** Pulling what was just added to a sequence that lacked it restores it. */
  lemma {:induction false} PullAfterAdd<T>(xs: seq<T>, v: T)
    requires v !in xs
    ensures PullAll(AddToSet(xs, v), v) == xs
  {
    FilterConcat(xs, [v], y => y != v);
    FilterKeepsAll(xs, y => y != v);
  }

  predicate NoDuplicates<T(==)>(xs: seq<T>)
  {
    forall i, j :: 0 <= i < j < |xs| ==> xs[i] != xs[j]
  }

  /** `$pull` keeps a duplicate-free array duplicate-free. */
  lemma PullAllNoDuplicates<T>(xs: seq<T>, v: T)
    requires NoDuplicates(xs)
    ensures NoDuplicates(PullAll(xs, v))
  {
    FilterNoDuplicates(xs, y => y != v);
  }

  /** `$addToSet` keeps a duplicate-free array duplicate-free. */
  lemma AddToSetNoDuplicates<T>(xs: seq<T>, v: T)
    requires NoDuplicates(xs)
    ensures NoDuplicates(AddToSet(xs, v))
  {
    if v !in xs {
      var r := xs + [v];
      forall i, j | 0 <= i < j < |r| ensures r[i] != r[j] {
        if j == |xs| {
          assert r[i] == xs[i];
        }
      }
    }
  }

  /** Filtering keeps a duplicate-free sequence duplicate-free. */
  lemma {:induction false} FilterNoDuplicates<T>(xs: seq<T>, keep: T -> bool)
    requires NoDuplicates(xs)
    ensures NoDuplicates(Filter(xs, keep))
  {
    if xs != [] {
      assert NoDuplicates(xs[1..]) by {
        forall i, j | 0 <= i < j < |xs[1..]| ensures xs[1..][i] != xs[1..][j] {
          assert xs[1..][i] == xs[i + 1] && xs[1..][j] == xs[j + 1];
        }
      }
      FilterNoDuplicates(xs[1..], keep);
      if keep(xs[0]) {
        assert xs[0] !in xs[1..];
        assert xs[0] !in Filter(xs[1..], keep);
        var r := [xs[0]] + Filter(xs[1..], keep);
        forall i, j | 0 <= i < j < |r| ensures r[i] != r[j] {
          if i == 0 {
            assert r[j] in Filter(xs[1..], keep);
          } else {
            assert r[i] == Filter(xs[1..], keep)[i - 1] && r[j] == Filter(xs[1..], keep)[j - 1];
          }
        }
      }
    }
  }

  /** `$push: { $each: [x], $position: 0 }`: `x` first, the rest as before. */
  function PushFront<T>(xs: seq<T>, x: T): (r: seq<T>)
    ensures |r| == |xs| + 1 && r[0] == x && r[1..] == xs
  {
    [x] + xs
  }
}
