/** Sums over sequences and order-preserving removal: the two notions every
    conservation and ordering argument of the project is stated with. */
module Sequences {

  /** The sum of `f` over `xs`. */
  function Sum<T>(f: T -> int, xs: seq<T>): int {
    if xs == [] then 0 else Sum(f, xs[..|xs| - 1]) + f(xs[|xs| - 1])
  }

  lemma SumAppend<T>(f: T -> int, xs: seq<T>, x: T)
    ensures Sum(f, xs + [x]) == Sum(f, xs) + f(x)
  {
    assert (xs + [x])[..|xs|] == xs;
  }

  lemma {:induction false} SumConcat<T>(f: T -> int, xs: seq<T>, ys: seq<T>)
    ensures Sum(f, xs + ys) == Sum(f, xs) + Sum(f, ys)
  {
    if ys == [] {
      assert xs + ys == xs;
    } else {
      var last := |ys| - 1;
      SumConcat(f, xs, ys[..last]);
      SumAppend(f, xs + ys[..last], ys[last]);
      assert xs + ys == (xs + ys[..last]) + [ys[last]];
    }
  }

  lemma {:induction false} SumUpdate<T>(f: T -> int, xs: seq<T>, i: nat, x: T)
    requires i < |xs|
    ensures Sum(f, xs[i := x]) == Sum(f, xs) - f(xs[i]) + f(x)
  {
    var last := |xs| - 1;
    if i == last {
      assert xs[i := x][..last] == xs[..last];
    } else {
      SumUpdate(f, xs[..last], i, x);
      assert xs[i := x][..last] == xs[..last][i := x];
    }
  }

  lemma {:induction false} SumAtMost<T>(f: T -> int, g: T -> int, xs: seq<T>)
    requires forall i :: 0 <= i < |xs| ==> f(xs[i]) <= g(xs[i])
    ensures Sum(f, xs) <= Sum(g, xs)
  {
    if xs != [] {
      SumAtMost(f, g, xs[..|xs| - 1]);
    }
  }

  lemma {:induction false} SumSame<T>(f: T -> int, g: T -> int, xs: seq<T>)
    requires forall i :: 0 <= i < |xs| ==> f(xs[i]) == g(xs[i])
    ensures Sum(f, xs) == Sum(g, xs)
  {
    if xs != [] {
      SumSame(f, g, xs[..|xs| - 1]);
    }
  }

  lemma {:induction false} SumNonNegative<T>(f: T -> int, xs: seq<T>)
    requires forall i :: 0 <= i < |xs| ==> 0 <= f(xs[i])
    ensures 0 <= Sum(f, xs)
  {
    if xs != [] {
      SumNonNegative(f, xs[..|xs| - 1]);
    }
  }

  lemma {:induction false} SumZero<T>(f: T -> int, xs: seq<T>)
    requires forall i :: 0 <= i < |xs| ==> f(xs[i]) == 0
    ensures Sum(f, xs) == 0
  {
    if xs != [] {
      SumZero(f, xs[..|xs| - 1]);
    }
  }

  /** One summand is at most the whole, when none is negative. */
  lemma SumCovers<T>(f: T -> int, xs: seq<T>, i: nat, zero: T)
    requires i < |xs| && f(zero) == 0
    requires forall k :: 0 <= k < |xs| ==> 0 <= f(xs[k])
    ensures f(xs[i]) <= Sum(f, xs)
  {
    SumUpdate(f, xs, i, zero);
    SumNonNegative(f, xs[i := zero]);
  }

  lemma UpdateTwice<T>(xs: seq<T>, i: nat, a: T, b: T)
    requires i < |xs|
    ensures xs[i := a][i := b] == xs[i := b]
  {
  }

  lemma EmptyOrInhabited<T>(xs: seq<T>)
    ensures xs == [] || exists x :: x in xs
  {
    if xs != [] {
      assert xs[0] in xs;
    }
  }

  lemma Find<T>(xs: seq<T>, x: T) returns (i: nat)
    requires x in xs
    ensures i < |xs| && xs[i] == x
  {
    i :| 0 <= i < |xs| && xs[i] == x;
  }

  lemma ElementOfConcat<T>(xs: seq<T>, ys: seq<T>, m: nat)
    requires m < |xs| + |ys|
    ensures (xs + ys)[m] in ys || (m < |xs| && (xs + ys)[m] == xs[m])
  {
    if m >= |xs| {
      assert (xs + ys)[m] == ys[m - |xs|];
    }
  }

  lemma ElementOfPrefix<T>(xs: seq<T>, ys: seq<T>, zs: seq<T>, j: nat)
    requires xs + ys <= zs && j < |ys|
    ensures |xs| + j < |zs| && zs[|xs| + j] == ys[j]
  {
    assert (xs + ys)[|xs| + j] == ys[j];
    assert zs[..|xs + ys|][|xs| + j] == zs[|xs| + j];
  }

  ghost predicate NoDuplicates<T>(xs: seq<T>) {
    forall i, j :: 0 <= i < j < |xs| ==> xs[i] != xs[j]
  }

  /** `xs` in order, without the members of `gone`. */
  function Without<T(==)>(xs: seq<T>, gone: set<T>): seq<T> {
    if xs == [] then []
    else
      var init := Without(xs[..|xs| - 1], gone);
      if xs[|xs| - 1] in gone then init else init + [xs[|xs| - 1]]
  }

  lemma WithoutAppend<T>(xs: seq<T>, x: T, gone: set<T>)
    ensures Without(xs + [x], gone) == if x in gone then Without(xs, gone) else Without(xs, gone) + [x]
  {
    assert (xs + [x])[..|xs|] == xs;
  }

  lemma {:induction false} WithoutConcat<T>(xs: seq<T>, ys: seq<T>, gone: set<T>)
    ensures Without(xs + ys, gone) == Without(xs, gone) + Without(ys, gone)
  {
    if ys == [] {
      assert xs + ys == xs;
      assert Without(xs, gone) + [] == Without(xs, gone);
    } else {
      var init, y := ys[..|ys| - 1], ys[|ys| - 1];
      WithoutConcat(xs, init, gone);
      assert init + [y] == ys;
      WithoutConcatStep(xs, init, y, gone);
    }
  }

  lemma WithoutConcatStep<T>(xs: seq<T>, ys: seq<T>, y: T, gone: set<T>)
    requires Without(xs + ys, gone) == Without(xs, gone) + Without(ys, gone)
    ensures Without(xs + (ys + [y]), gone) == Without(xs, gone) + Without(ys + [y], gone)
  {
    WithoutAppend(xs + ys, y, gone);
    WithoutAppend(ys, y, gone);
    Regroup(xs, ys, [y]);
    Regroup(Without(xs, gone), Without(ys, gone), [y]);
  }

  lemma Regroup<T>(xs: seq<T>, ys: seq<T>, zs: seq<T>)
    ensures (xs + ys) + zs == xs + (ys + zs)
  {
  }

  lemma {:induction false} WithoutTwice<T>(xs: seq<T>, a: set<T>, b: set<T>)
    ensures Without(Without(xs, a), b) == Without(xs, a + b)
  {
    if xs != [] {
      var last := |xs| - 1;
      WithoutTwice(xs[..last], a, b);
      if xs[last] !in a {
        WithoutAppend(Without(xs[..last], a), xs[last], b);
      }
    }
  }

  lemma {:induction false} WithoutMembers<T>(xs: seq<T>, gone: set<T>)
    ensures |Without(xs, gone)| <= |xs|
    ensures forall x :: x in Without(xs, gone) <==> x in xs && x !in gone
  {
    if xs != [] {
      var last := |xs| - 1;
      WithoutMembers(xs[..last], gone);
      assert xs == xs[..last] + [xs[last]];
    }
  }

  lemma {:induction false} WithoutNothing<T>(xs: seq<T>, gone: set<T>)
    requires forall x :: x in xs ==> x !in gone
    ensures Without(xs, gone) == xs
  {
    if xs != [] {
      var last := |xs| - 1;
      assert forall x :: x in xs[..last] ==> x in xs;
      WithoutNothing(xs[..last], gone);
      assert xs == xs[..last] + [xs[last]];
    }
  }

  lemma {:induction false} WithoutKeepsDistinct<T>(xs: seq<T>, gone: set<T>)
    requires NoDuplicates(xs)
    ensures NoDuplicates(Without(xs, gone))
  {
    if xs != [] {
      var last := |xs| - 1;
      WithoutKeepsDistinct(xs[..last], gone);
      WithoutMembers(xs[..last], gone);
      assert xs[last] !in xs[..last];
    }
  }
}
