/** Vocabulary shared by every part of the model. */
module Prelude {

  datatype Option<+T> = None | Some(value: T)

  /** The application errors of the services; `IntegrityViolation` is a database constraint. */
  datatype Error = NotFound | Conflict | PermissionDenied | Unauthorized | IntegrityViolation | GatewayFailure

  datatype Result<+T> = Ok(value: T) | Err(error: Error)

  function Max(a: int, b: int): int {
    if a < b then b else a
  }

  function Min(a: int, b: int): int {
    if a < b then a else b
  }

  predicate Distinct<T(==)>(xs: seq<T>) {
    forall i, j :: 0 <= i < j < |xs| ==> xs[i] != xs[j]
  }
}

/** Sums of a measure over the rows of a table. Tables only grow at the end or change one row. */
module Sums {

  function Sum<T>(xs: seq<T>, f: T -> int): int {
    if xs == [] then 0 else Sum(xs[..|xs| - 1], f) + f(xs[|xs| - 1])
  }

  lemma {:induction false} SumConcat<T>(xs: seq<T>, ys: seq<T>, f: T -> int)
    ensures Sum(xs + ys, f) == Sum(xs, f) + Sum(ys, f)
    decreases |ys|
  {
    if ys == [] {
      assert xs + ys == xs;
    } else {
      assert (xs + ys)[..|xs + ys| - 1] == xs + ys[..|ys| - 1];
      SumConcat(xs, ys[..|ys| - 1], f);
    }
  }

  lemma SumSnoc<T>(xs: seq<T>, x: T, f: T -> int)
    ensures Sum(xs + [x], f) == Sum(xs, f) + f(x)
  {
    assert (xs + [x])[..|xs|] == xs;
  }

  lemma {:induction false} SumUpdate<T>(xs: seq<T>, i: nat, x: T, f: T -> int)
    requires i < |xs|
    ensures Sum(xs[i := x], f) == Sum(xs, f) - f(xs[i]) + f(x)
    decreases |xs|
  {
    var last := |xs| - 1;
    if i == last {
      assert xs[i := x][..last] == xs[..last];
    } else {
      assert xs[i := x][..last] == xs[..last][i := x];
      SumUpdate(xs[..last], i, x, f);
    }
  }

  lemma {:induction false} SumCongruent<T>(xs: seq<T>, f: T -> int, g: T -> int)
    requires forall x :: x in xs ==> f(x) == g(x)
    ensures Sum(xs, f) == Sum(xs, g)
    decreases |xs|
  {
    if xs != [] {
      SumCongruent(xs[..|xs| - 1], f, g);
    }
  }

  /** A sum of non-negative terms is at least each of its terms. */
  lemma {:induction false} SumCoversTerm<T>(xs: seq<T>, f: T -> int)
    requires forall x :: x in xs ==> 0 <= f(x)
    ensures 0 <= Sum(xs, f)
    ensures forall i :: 0 <= i < |xs| ==> f(xs[i]) <= Sum(xs, f)
    decreases |xs|
  {
    if xs != [] {
      SumCoversTerm(xs[..|xs| - 1], f);
      forall i | 0 <= i < |xs| ensures f(xs[i]) <= Sum(xs, f) {
        if i < |xs| - 1 {
          assert xs[i] == xs[..|xs| - 1][i];
        }
      }
    }
  }

  lemma SumOfMiddle<T>(xs: seq<T>, x: T, ys: seq<T>, f: T -> int)
    ensures Sum(xs + [x] + ys, f) == Sum(xs + ys, f) + f(x)
    ensures multiset(xs + [x] + ys) == multiset(xs + ys) + multiset{x}
  {
    SumSnoc(xs, x, f);
    SumConcat(xs + [x], ys, f);
    SumConcat(xs, ys, f);
  }

  lemma SplitAt<T>(xs: seq<T>, k: nat)
    requires k < |xs|
    ensures xs == xs[..k] + [xs[k]] + xs[k + 1..]
  {
  }

  /** Taking one row out of the middle takes out its term. */
  lemma SumWithout<T>(xs: seq<T>, k: nat, f: T -> int)
    requires k < |xs|
    ensures Sum(xs, f) == Sum(xs[..k] + xs[k + 1..], f) + f(xs[k])
    ensures multiset(xs) == multiset(xs[..k] + xs[k + 1..]) + multiset{xs[k]}
  {
    SplitAt(xs, k);
    SumOfMiddle(xs[..k], xs[k], xs[k + 1..], f);
  }

  /** The order in which rows are added does not matter. */
  lemma {:induction false} SumPermutation<T>(xs: seq<T>, ys: seq<T>, f: T -> int)
    requires multiset(xs) == multiset(ys)
    ensures Sum(xs, f) == Sum(ys, f)
    decreases |xs|
  {
    assert |xs| == |multiset(xs)| == |multiset(ys)| == |ys|;
    if xs != [] {
      var init, x := xs[..|xs| - 1], xs[|xs| - 1];
      assert xs == init + [x];
      assert x in multiset(ys);
      var k :| 0 <= k < |ys| && ys[k] == x;
      SumWithout(ys, k, f);
      assert multiset(init) == multiset(xs) - multiset{x};
      SumPermutation(init, ys[..k] + ys[k + 1..], f);
    }
  }
}

/** Sizes of included sets. */
module Sets {

  lemma SetsByInclusion<T>(small: set<T>, big: set<T>)
    requires small < big
    ensures |small| < |big|
  {
    var x :| x in big && x !in small;
    assert small <= big - {x};
    Subset(small, big - {x});
  }

  lemma {:induction false} Subset<T>(small: set<T>, big: set<T>)
    requires small <= big
    ensures |small| <= |big|
    decreases small
  {
    if small != {} {
      var x :| x in small;
      Subset(small - {x}, big - {x});
    }
  }
}
