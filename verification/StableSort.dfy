/**
 Python's built-in `sorted(xs, key=...)` for keys that are pairs compared left to right: the
 result is a permutation, ordered by key, and entries with equal keys keep their input order.
 `SortBy` picks the first smallest entry, then sorts what is left; the lemmas show that this is
 the stable sort, and that no other list is.
 */
module StableSort {

  datatype Key = Key(major: int, minor: int)

  predicate Less(a: Key, b: Key) {
    a.major < b.major || (a.major == b.major && a.minor < b.minor)
  }

  predicate AtMost(a: Key, b: Key) {
    a == b || Less(a, b)
  }

  /** Entry i comes before entry j when sorting xs: a smaller key, or the same key and an earlier place. */
  predicate Precedes<T>(xs: seq<T>, key: T -> Key, i: nat, j: nat)
    requires i < |xs| && j < |xs|
  {
    Less(key(xs[i]), key(xs[j])) || (key(xs[i]) == key(xs[j]) && i < j)
  }

  function RemoveAt<T>(xs: seq<T>, i: nat): (rest: seq<T>)
    requires i < |xs|
    ensures |rest| == |xs| - 1
  {
    xs[..i] + xs[i + 1..]
  }

  lemma RemoveAtKeepsRest<T>(xs: seq<T>, i: nat)
    requires i < |xs|
    ensures multiset(xs) == multiset(RemoveAt(xs, i)) + multiset{xs[i]}
  {
    assert xs == xs[..i] + [xs[i]] + xs[i + 1..];
  }

  /** The place of the first entry with the smallest key. */
  function FirstMin<T>(xs: seq<T>, key: T -> Key): (m: nat)
    requires xs != []
    ensures m < |xs|
  {
    if |xs| == 1 then 0
    else
      var m := FirstMin(xs[1..], key);
      if Less(key(xs[m + 1]), key(xs[0])) then m + 1 else 0
  }

  lemma {:induction false} FirstMinLeast<T>(xs: seq<T>, key: T -> Key)
    requires xs != []
    ensures forall j :: 0 <= j < |xs| && j != FirstMin(xs, key) ==> Precedes(xs, key, FirstMin(xs, key), j)
  {
    if |xs| > 1 {
      var m := FirstMin(xs[1..], key);
      FirstMinLeast(xs[1..], key);
      assert forall j {:trigger xs[j]} :: 0 < j < |xs| && j != m + 1 ==> Precedes(xs[1..], key, m, j - 1);
    }
  }

  lemma FirstMinUnique<T>(xs: seq<T>, key: T -> Key, m: nat)
    requires m < |xs|
    requires forall j :: 0 <= j < |xs| && j != m ==> Precedes(xs, key, m, j)
    ensures FirstMin(xs, key) == m
  {
    var f := FirstMin(xs, key);
    FirstMinLeast(xs, key);
    assert f != m ==> Precedes(xs, key, f, m);
    assert f != m ==> Precedes(xs, key, m, f);
  }

  function SortBy<T>(xs: seq<T>, key: T -> Key): (sorted: seq<T>)
    ensures |sorted| == |xs|
    decreases |xs|
  {
    if xs == [] then []
    else
      var m := FirstMin(xs, key);
      [xs[m]] + SortBy(RemoveAt(xs, m), key)
  }

  lemma {:induction false} SortByPermutes<T>(xs: seq<T>, key: T -> Key)
    ensures multiset(SortBy(xs, key)) == multiset(xs)
    ensures forall x :: x in SortBy(xs, key) <==> x in xs
    decreases |xs|
  {
    if xs != [] {
      var m := FirstMin(xs, key);
      SortByPermutes(RemoveAt(xs, m), key);
      RemoveAtKeepsRest(xs, m);
    }
    assert forall x :: x in SortBy(xs, key) <==> x in multiset(SortBy(xs, key));
    assert forall x :: x in xs <==> x in multiset(xs);
  }

  lemma SortByUnfold<T>(xs: seq<T>, key: T -> Key)
    requires xs != []
    ensures var m := FirstMin(xs, key);
            SortBy(xs, key)[0] == xs[m] && SortBy(xs, key)[1..] == SortBy(RemoveAt(xs, m), key)
  {
  }

  ghost predicate Ordered<T>(xs: seq<T>, key: T -> Key) {
    forall i, j :: 0 <= i < j < |xs| ==> AtMost(key(xs[i]), key(xs[j]))
  }

  /** The entries with key k, in the order they stand. */
  function WithKey<T>(xs: seq<T>, key: T -> Key, k: Key): seq<T> {
    if xs == [] then []
    else (if key(xs[0]) == k then [xs[0]] else []) + WithKey(xs[1..], key, k)
  }

  lemma {:induction false} WithKeyConcat<T>(xs: seq<T>, ys: seq<T>, key: T -> Key, k: Key)
    ensures WithKey(xs + ys, key, k) == WithKey(xs, key, k) + WithKey(ys, key, k)
  {
    if xs == [] {
      assert xs + ys == ys;
    } else {
      assert (xs + ys)[1..] == xs[1..] + ys;
      WithKeyConcat(xs[1..], ys, key, k);
    }
  }

  lemma {:induction false} WithKeyNone<T>(xs: seq<T>, key: T -> Key, k: Key)
    requires forall i :: 0 <= i < |xs| ==> key(xs[i]) != k
    ensures WithKey(xs, key, k) == []
  {
    if xs != [] {
      WithKeyNone(xs[1..], key, k);
    }
  }

  lemma FirstMinAtMost<T>(xs: seq<T>, key: T -> Key, x: T)
    requires xs != [] && x in RemoveAt(xs, FirstMin(xs, key))
    ensures AtMost(key(xs[FirstMin(xs, key)]), key(x))
  {
    var m := FirstMin(xs, key);
    var p :| 0 <= p < |xs| - 1 && RemoveAt(xs, m)[p] == x;
    var q := if p < m then p else p + 1;
    FirstMinLeast(xs, key);
    assert xs[q] == x && Precedes(xs, key, m, q);
  }

  lemma OrderedFrom<T>(x: T, tail: seq<T>, key: T -> Key)
    requires Ordered(tail, key) && forall j :: 0 <= j < |tail| ==> AtMost(key(x), key(tail[j]))
    ensures Ordered([x] + tail, key)
  {
    var all := [x] + tail;
    assert forall j :: 0 < j < |all| ==> all[j] == tail[j - 1];
  }

  lemma {:induction false} SortByOrdered<T>(xs: seq<T>, key: T -> Key)
    ensures Ordered(SortBy(xs, key), key)
    decreases |xs|
  {
    if xs != [] {
      var m := FirstMin(xs, key);
      var rest := RemoveAt(xs, m);
      var tail := SortBy(rest, key);
      SortByOrdered(rest, key);
      SortByPermutes(rest, key);
      forall j | 0 <= j < |tail| ensures AtMost(key(xs[m]), key(tail[j])) {
        assert tail[j] in multiset(tail);
        FirstMinAtMost(xs, key, tail[j]);
      }
      OrderedFrom(xs[m], tail, key);
    }
  }

  /** Stability: for every key, the entries carrying it come out in the order they went in. */
  lemma {:induction false} SortByStable<T>(xs: seq<T>, key: T -> Key, k: Key)
    ensures WithKey(SortBy(xs, key), key, k) == WithKey(xs, key, k)
    decreases |xs|
  {
    if xs != [] {
      var m := FirstMin(xs, key);
      var rest := RemoveAt(xs, m);
      SortByStable(rest, key, k);
      FirstMinLeast(xs, key);
      WithKeyRemoveFirst(xs, key, m, k);
      var sorted := SortBy(xs, key);
      assert sorted[1..] == SortBy(rest, key);
    }
  }

  /** Taking out the first smallest entry takes it off the front of its own key's entries only. */
  lemma {:induction false} WithKeyRemoveFirst<T>(xs: seq<T>, key: T -> Key, m: nat, k: Key)
    requires m < |xs|
    requires forall j :: 0 <= j < |xs| && j != m ==> Precedes(xs, key, m, j)
    ensures WithKey(xs, key, k) ==
            (if key(xs[m]) == k then [xs[m]] else []) + WithKey(RemoveAt(xs, m), key, k)
  {
    var before, after := xs[..m], xs[m + 1..];
    assert xs == before + ([xs[m]] + after);
    assert ([xs[m]] + after)[1..] == after;
    WithKeyConcat(before, [xs[m]] + after, key, k);
    WithKeyConcat(before, after, key, k);
    if key(xs[m]) == k {
      forall i | 0 <= i < m ensures key(before[i]) != k {
        assert Precedes(xs, key, m, i);
      }
      WithKeyNone(before, key, k);
    }
  }

  /** Two ordered lists that agree key by key are the same list, so `SortBy` is the only stable sort. */
  lemma {:induction false} StableSortUnique<T>(xs: seq<T>, ys: seq<T>, key: T -> Key)
    requires Ordered(xs, key) && Ordered(ys, key)
    requires forall k :: WithKey(xs, key, k) == WithKey(ys, key, k)
    ensures xs == ys
    decreases |xs|
  {
    if xs == [] {
      OwnKeyPresent(ys, key);
      assert ys == [] || WithKey(ys, key, key(ys[0])) == WithKey(xs, key, key(ys[0]));
    } else {
      HeadsAgree(xs, ys, key);
      forall k ensures WithKey(xs[1..], key, k) == WithKey(ys[1..], key, k) {
        assert WithKey(xs, key, k) == WithKey(ys, key, k);
        TailsAgree(xs, ys, key, k);
      }
      StableSortUnique(xs[1..], ys[1..], key);
    }
  }

  lemma {:induction false} HeadsAgree<T>(xs: seq<T>, ys: seq<T>, key: T -> Key)
    requires Ordered(xs, key) && Ordered(ys, key) && xs != []
    requires forall k :: WithKey(xs, key, k) == WithKey(ys, key, k)
    ensures ys != [] && xs[0] == ys[0]
  {
    var k := key(xs[0]);
    OwnKeyPresent(xs, key);
    OwnKeyPresent(ys, key);
    assert WithKey(xs, key, k) == WithKey(ys, key, k);
    HeadKeyLeast(ys, key, k);
    HeadKeyLeast(xs, key, key(ys[0]));
    assert xs[0] == WithKey(xs, key, k)[0];
  }

  lemma {:induction false} TailsAgree<T>(xs: seq<T>, ys: seq<T>, key: T -> Key, k: Key)
    requires xs != [] && ys != [] && xs[0] == ys[0]
    requires WithKey(xs, key, k) == WithKey(ys, key, k)
    ensures WithKey(xs[1..], key, k) == WithKey(ys[1..], key, k)
  {
    var n := if key(xs[0]) == k then 1 else 0;
    assert WithKey(xs[1..], key, k) == WithKey(xs, key, k)[n..];
    assert WithKey(ys[1..], key, k) == WithKey(ys, key, k)[n..];
  }

  lemma OwnKeyPresent<T>(xs: seq<T>, key: T -> Key)
    ensures xs != [] ==> WithKey(xs, key, key(xs[0])) != []
  {
  }

  lemma {:induction false} HeadKeyLeast<T>(xs: seq<T>, key: T -> Key, k: Key)
    requires Ordered(xs, key) && WithKey(xs, key, k) != []
    ensures xs != [] && AtMost(key(xs[0]), k)
  {
    if forall i :: 0 <= i < |xs| ==> key(xs[i]) != k {
      WithKeyNone(xs, key, k);
    }
  }

  ghost predicate Distinct<T>(xs: seq<T>) {
    forall i, j :: 0 <= i < j < |xs| ==> xs[i] != xs[j]
  }

  lemma {:induction false} DistinctOnce<T>(xs: seq<T>, x: T)
    requires Distinct(xs)
    ensures multiset(xs)[x] <= 1
  {
    if xs != [] {
      assert xs == [xs[0]] + xs[1..];
      DistinctOnce(xs[1..], x);
    }
  }

  lemma {:induction false} OnceDistinct<T>(xs: seq<T>)
    requires forall x :: multiset(xs)[x] <= 1
    ensures Distinct(xs)
  {
    forall i, j | 0 <= i < j < |xs| ensures xs[i] != xs[j] {
      RemoveAtKeepsRest(xs, j);
      assert RemoveAt(xs, j)[i] == xs[i];
      assert xs[i] in multiset(RemoveAt(xs, j));
      assert multiset(xs)[xs[j]] == multiset(RemoveAt(xs, j))[xs[j]] + 1;
    }
  }

  lemma SortByDistinct<T>(xs: seq<T>, key: T -> Key)
    requires Distinct(xs)
    ensures Distinct(SortBy(xs, key))
  {
    SortByPermutes(xs, key);
    forall x ensures multiset(SortBy(xs, key))[x] <= 1 {
      DistinctOnce(xs, x);
    }
    OnceDistinct(SortBy(xs, key));
  }
}
