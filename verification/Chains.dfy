/** Sequences in which each element is related to the next. */
module Chains {
  ghost predicate LinkAt<T(!new)>(xs: seq<T>, r: (T, T) -> bool, k: nat)
    requires 0 < k < |xs|
  {
    r(xs[k - 1], xs[k])
  }

  ghost predicate IsChain<T(!new)>(xs: seq<T>, r: (T, T) -> bool) {
    |xs| > 0 && forall k {:trigger LinkAt(xs, r, k)} :: 0 < k < |xs| ==> LinkAt(xs, r, k)
  }

  lemma Prepend<T(!new)>(x: T, xs: seq<T>, r: (T, T) -> bool) returns (ys: seq<T>)
    requires IsChain(xs, r) && r(x, xs[0])
    ensures IsChain(ys, r) && ys == [x] + xs && ys[|ys| - 1] == xs[|xs| - 1]
  {
    ys := [x] + xs;
    forall k | 0 < k < |ys| ensures LinkAt(ys, r, k) {
      assert k > 1 ==> LinkAt(xs, r, k - 1);
    }
  }

  lemma Join<T(!new)>(xs: seq<T>, ys: seq<T>, r: (T, T) -> bool) returns (zs: seq<T>)
    requires IsChain(xs, r) && IsChain(ys, r) && xs[|xs| - 1] == ys[0]
    ensures IsChain(zs, r) && zs[0] == xs[0] && zs[|zs| - 1] == ys[|ys| - 1]
  {
    zs := xs + ys[1..];
    forall k | 0 < k < |zs| ensures LinkAt(zs, r, k) {
      assert k < |xs| ==> LinkAt(xs, r, k);
      assert k >= |xs| ==> LinkAt(ys, r, k - |xs| + 1);
    }
  }

  lemma Single<T(!new)>(x: T, r: (T, T) -> bool)
    ensures IsChain([x], r)
  {
  }

  ghost predicate Joins<T(!new)>(xs: seq<T>, r: (T, T) -> bool, x: T, y: T) {
    IsChain(xs, r) && xs[0] == x && xs[|xs| - 1] == y
  }

  /** Some chain leads from `x` to `y`. */
  ghost predicate Linked<T(!new)>(r: (T, T) -> bool, x: T, y: T) {
    exists xs :: Joins(xs, r, x, y)
  }

  lemma LinkedSelf<T(!new)>(r: (T, T) -> bool, x: T)
    ensures Linked(r, x, x)
  {
    assert Joins([x], r, x, x);
  }

  lemma LinkedTransitive<T(!new)>(r: (T, T) -> bool, x: T, y: T, z: T)
    requires Linked(r, x, y) && Linked(r, y, z)
    ensures Linked(r, x, z)
  {
    var xs :| Joins(xs, r, x, y);
    var ys :| Joins(ys, r, y, z);
    var zs := Join(xs, ys, r);
    assert Joins(zs, r, x, z);
  }

  lemma LinkedThen<T(!new)>(r: (T, T) -> bool, x: T, y: T, z: T)
    requires Linked(r, x, y) && r(y, z)
    ensures Linked(r, x, z)
  {
    LinkedSelf(r, z);
    var zs := Prepend(y, [z], r);
    assert Joins(zs, r, y, z);
    LinkedTransitive(r, x, y, z);
  }

  /** What every link keeps, a chain keeps. */
  lemma {:induction false} Invariantly<T(!new)>(xs: seq<T>, r: (T, T) -> bool, p: T -> bool, k: nat)
    requires IsChain(xs, r) && p(xs[0]) && k < |xs|
    requires forall x, y {:trigger r(x, y)} :: p(x) && r(x, y) ==> p(y)
    ensures p(xs[k])
  {
    if k > 0 {
      Invariantly(xs, r, p, k - 1);
      assert LinkAt(xs, r, k);
    }
  }

  ghost predicate BeforeGoal<T(!new)>(xs: seq<T>, near: (T, nat) -> bool, goal: T -> bool, k: nat)
    requires k < |xs|
  {
    !goal(xs[k]) && exists n: nat :: near(xs[k], n)
  }

  /** Wherever a next link always brings the goal nearer, a chain reaches it, and is near it all along. */
  lemma {:induction false} Pursue<T(!new)>(x: T, n: nat, r: (T, T) -> bool, near: (T, nat) -> bool, goal: T -> bool) returns (xs: seq<T>)
    requires near(x, n)
    requires forall y, k: nat {:trigger near(y, k)} :: near(y, k) && !goal(y) ==> k > 0 && exists z :: r(y, z) && near(z, k - 1)
    ensures IsChain(xs, r) && xs[0] == x && goal(xs[|xs| - 1])
    ensures forall k {:trigger BeforeGoal(xs, near, goal, k)} :: 0 <= k < |xs| - 1 ==> BeforeGoal(xs, near, goal, k)
    decreases n
  {
    if goal(x) {
      Single(x, r);
      xs := [x];
    } else {
      var z :| r(x, z) && near(z, n - 1);
      var rest := Pursue(z, n - 1, r, near, goal);
      xs := Prepend(x, rest, r);
      forall k | 0 <= k < |xs| - 1 ensures BeforeGoal(xs, near, goal, k) {
        assert k > 0 ==> BeforeGoal(rest, near, goal, k - 1);
      }
    }
  }
}
