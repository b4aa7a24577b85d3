/** `sort_by_key`: a stable sort, and what it yields when the keys are the
    indices of an out-of-order completion. */
module Sorting {
  import opened Sequences

  ghost predicate Sorted<T>(xs: seq<(int, T)>) {
    forall i, j :: 0 <= i < j < |xs| ==> xs[i].0 <= xs[j].0
  }

  /** `x` goes behind every entry whose key is not larger. */
  function Insert<T>(xs: seq<(int, T)>, x: (int, T)): (r: seq<(int, T)>)
    ensures |r| == |xs| + 1
  {
    if xs == [] || xs[|xs| - 1].0 <= x.0 then xs + [x]
    else Insert(xs[..|xs| - 1], x) + [xs[|xs| - 1]]
  }

  function SortByKey<T>(xs: seq<(int, T)>): (r: seq<(int, T)>)
    ensures |r| == |xs|
  {
    if xs == [] then [] else Insert(SortByKey(xs[..|xs| - 1]), xs[|xs| - 1])
  }

  lemma {:induction false} InsertKeeps<T>(xs: seq<(int, T)>, x: (int, T))
    ensures multiset(Insert(xs, x)) == multiset(xs) + multiset{x}
  {
    if xs != [] && xs[|xs| - 1].0 > x.0 {
      InsertKeeps(xs[..|xs| - 1], x);
      assert xs == xs[..|xs| - 1] + [xs[|xs| - 1]];
    }
  }

  lemma {:induction false} InsertMember<T>(xs: seq<(int, T)>, x: (int, T), y: (int, T))
    ensures y in Insert(xs, x) <==> y in xs || y == x
  {
    if xs != [] && xs[|xs| - 1].0 > x.0 {
      InsertMember(xs[..|xs| - 1], x, y);
      assert xs == xs[..|xs| - 1] + [xs[|xs| - 1]];
    }
  }

  lemma {:induction false} InsertSorted<T>(xs: seq<(int, T)>, x: (int, T))
    requires Sorted(xs)
    ensures Sorted(Insert(xs, x))
  {
    if xs != [] {
      var last := |xs| - 1;
      assert xs == xs[..last] + [xs[last]];
      if xs[last].0 > x.0 {
        InsertSorted(xs[..last], x);
        var r := Insert(xs[..last], x);
        forall i | 0 <= i < |r| ensures r[i].0 <= xs[last].0 {
          InsertMember(xs[..last], x, r[i]);
          if r[i] != x {
            var m := Find(xs[..last], r[i]);
          }
        }
      }
    }
  }

  /** The entries of one key, in order. */
  function WithKey<T>(xs: seq<(int, T)>, key: int): seq<(int, T)> {
    if xs == [] then []
    else WithKey(xs[..|xs| - 1], key) + if xs[|xs| - 1].0 == key then [xs[|xs| - 1]] else []
  }

  lemma WithKeyAppend<T>(xs: seq<(int, T)>, x: (int, T), key: int)
    ensures WithKey(xs + [x], key) == WithKey(xs, key) + if x.0 == key then [x] else []
  {
    assert (xs + [x])[..|xs|] == xs;
  }

  lemma {:induction false} InsertStable<T>(xs: seq<(int, T)>, x: (int, T), key: int)
    ensures WithKey(Insert(xs, x), key) == WithKey(xs, key) + if x.0 == key then [x] else []
  {
    if xs == [] || xs[|xs| - 1].0 <= x.0 {
      WithKeyAppend(xs, x, key);
    } else {
      var init, last := xs[..|xs| - 1], xs[|xs| - 1];
      InsertStable(init, x, key);
      WithKeyAppend(Insert(init, x), last, key);
    }
  }

  /** Sorting orders by key, keeps the elements, and keeps entries of equal key
      in the order they came in. */
  lemma {:induction false} SortSorts<T>(xs: seq<(int, T)>)
    ensures Sorted(SortByKey(xs)) && multiset(SortByKey(xs)) == multiset(xs)
    ensures forall y :: y in SortByKey(xs) <==> y in xs
    ensures forall key :: WithKey(SortByKey(xs), key) == WithKey(xs, key)
  {
    if xs != [] {
      var last := |xs| - 1;
      assert xs == xs[..last] + [xs[last]];
      SortSorts(xs[..last]);
      InsertSorted(SortByKey(xs[..last]), xs[last]);
      InsertKeeps(SortByKey(xs[..last]), xs[last]);
      forall y ensures y in SortByKey(xs) <==> y in xs {
        InsertMember(SortByKey(xs[..last]), xs[last], y);
      }
      forall key ensures WithKey(SortByKey(xs), key) == WithKey(xs, key) {
        InsertStable(SortByKey(xs[..last]), xs[last], key);
      }
    }
  }

  lemma SortMember<T>(xs: seq<(int, T)>, y: (int, T))
    ensures y in SortByKey(xs) <==> y in xs
  {
    SortSorts(xs);
  }

  /** The keys are `base .. base + |xs|`, each once. */
  ghost predicate KeysAre<T>(xs: seq<(int, T)>, base: int) {
    && (forall i, j :: 0 <= i < j < |xs| ==> xs[i].0 != xs[j].0)
    && (forall i :: 0 <= i < |xs| ==> base <= xs[i].0 < base + |xs|)
  }

  /** Sorting by a distinct index undoes every completion order. */
  lemma SortRestoresOrder<T>(xs: seq<(int, T)>, base: int)
    requires KeysAre(xs, base)
    ensures forall k :: 0 <= k < |xs| ==> SortByKey(xs)[k].0 == base + k && SortByKey(xs)[k] in xs
  {
    var ys := SortByKey(xs);
    SortSorts(xs);
    KeysDistinct(xs);
    forall i | 0 <= i < |ys| ensures ys[i] in xs && base <= ys[i].0 < base + |xs| {
      SortMember(xs, ys[i]);
      var m := Find(xs, ys[i]);
    }
    forall k | 0 <= k < |xs| ensures ys[k].0 == base + k {
      AtLeast(ys, base, k);
      AtMost(ys, base + |ys| - 1, k);
    }
  }

  /** Each entry lands at its own index. */
  lemma SortPlaces<T>(xs: seq<(int, T)>, base: int, i: nat, k: nat)
    requires KeysAre(xs, base) && i < |xs| && xs[i].0 == base + k
    ensures k < |xs| && SortByKey(xs)[k] == xs[i]
  {
    var m := PlaceOf(xs, base, k);
  }

  /** Each index is that of one entry. */
  lemma PlaceOf<T>(xs: seq<(int, T)>, base: int, k: nat) returns (m: nat)
    requires KeysAre(xs, base) && k < |xs|
    ensures m < |xs| && xs[m].0 == base + k && SortByKey(xs)[k] == xs[m]
  {
    SortRestoresOrder(xs, base);
    m := Find(xs, SortByKey(xs)[k]);
  }

  /** Strict ascent: a repeated key would be a repeated key of the input. */
  lemma {:induction false} KeysDistinct<T>(xs: seq<(int, T)>)
    requires forall i, j :: 0 <= i < j < |xs| ==> xs[i].0 != xs[j].0
    ensures forall i, j :: 0 <= i < j < |SortByKey(xs)| ==> SortByKey(xs)[i].0 < SortByKey(xs)[j].0
  {
    if xs != [] {
      var last := |xs| - 1;
      var init, x := SortByKey(xs[..last]), xs[last];
      KeysDistinct(xs[..last]);
      SortSorts(xs[..last]);
      forall i | 0 <= i < |init| ensures init[i].0 != x.0 {
        SortMember(xs[..last], init[i]);
        var m := Find(xs[..last], init[i]);
      }
      InsertDistinct(init, x);
    }
  }

  lemma {:induction false} InsertDistinct<T>(xs: seq<(int, T)>, x: (int, T))
    requires forall i, j :: 0 <= i < j < |xs| ==> xs[i].0 < xs[j].0
    requires forall i :: 0 <= i < |xs| ==> xs[i].0 != x.0
    ensures forall i, j :: 0 <= i < j < |Insert(xs, x)| ==> Insert(xs, x)[i].0 < Insert(xs, x)[j].0
  {
    if xs != [] && xs[|xs| - 1].0 > x.0 {
      var init := xs[..|xs| - 1];
      InsertDistinct(init, x);
      var r := Insert(init, x);
      forall i | 0 <= i < |r| ensures r[i].0 < xs[|xs| - 1].0 {
        InsertMember(init, x, r[i]);
        if r[i] != x {
          var m := Find(init, r[i]);
        }
      }
    }
  }

  lemma {:induction false} AtLeast<T>(ys: seq<(int, T)>, base: int, k: nat)
    requires k < |ys| && (forall i, j :: 0 <= i < j < |ys| ==> ys[i].0 < ys[j].0) && base <= ys[0].0
    ensures base + k <= ys[k].0
  {
    if k > 0 {
      AtLeast(ys, base, k - 1);
    }
  }

  lemma {:induction false} AtMost<T>(ys: seq<(int, T)>, top: int, k: nat)
    requires k < |ys| && (forall i, j :: 0 <= i < j < |ys| ==> ys[i].0 < ys[j].0) && ys[|ys| - 1].0 <= top
    ensures ys[k].0 <= top - (|ys| - 1 - k)
    decreases |ys| - k
  {
    if k < |ys| - 1 {
      AtMost(ys, top, k + 1);
    }
  }
}
