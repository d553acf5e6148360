/** Stable sorting by a key, and when the result depends only on what is sorted.
 */
module Sorting {
  /** Puts an element behind every element whose key is not larger. */
  function Insert<T>(x: T, xs: seq<T>, key: T -> nat): seq<T> {
    if xs == [] || key(x) < key(xs[0]) then [x] + xs else [xs[0]] + Insert(x, xs[1..], key)
  }

  function Sorted<T>(xs: seq<T>, key: T -> nat): seq<T> {
    if xs == [] then [] else Insert(xs[|xs| - 1], Sorted(xs[..|xs| - 1], key), key)
  }

  ghost predicate Ascending<T>(xs: seq<T>, key: T -> nat) {
    forall a, b :: 0 <= a < b < |xs| ==> key(xs[a]) <= key(xs[b])
  }

  ghost predicate StrictlyAscending<T>(xs: seq<T>, key: T -> nat) {
    forall a, b :: 0 <= a < b < |xs| ==> key(xs[a]) < key(xs[b])
  }

  ghost predicate KeysDiffer<T>(xs: seq<T>, key: T -> nat) {
    forall a, b :: 0 <= a < b < |xs| ==> key(xs[a]) != key(xs[b])
  }

  lemma {:induction false} InsertKeeps<T>(x: T, xs: seq<T>, key: T -> nat)
    ensures multiset(Insert(x, xs, key)) == multiset{x} + multiset(xs)
  {
    if xs != [] && key(x) >= key(xs[0]) {
      InsertKeeps(x, xs[1..], key);
      FirstOut(xs);
    }
  }

  lemma {:induction false} InsertAscends<T>(x: T, xs: seq<T>, key: T -> nat)
    requires Ascending(xs, key)
    ensures Ascending(Insert(x, xs, key), key)
  {
    if xs != [] && key(x) >= key(xs[0]) {
      InsertAscends(x, xs[1..], key);
      var rest := Insert(x, xs[1..], key);
      forall b | 0 <= b < |rest| ensures key(xs[0]) <= key(rest[b]) {
        InsertedFrom(x, xs[1..], key, rest[b]);
      }
    }
  }

  lemma {:induction false} InsertedFrom<T>(x: T, xs: seq<T>, key: T -> nat, y: T)
    requires y in Insert(x, xs, key)
    ensures y == x || y in xs
  {
    InsertKeeps(x, xs, key);
    assert y in multiset(Insert(x, xs, key));
  }

  lemma LastOut<T>(xs: seq<T>)
    requires xs != []
    ensures multiset(xs) == multiset(xs[..|xs| - 1]) + multiset{xs[|xs| - 1]}
  {
    assert xs == xs[..|xs| - 1] + [xs[|xs| - 1]];
  }

  lemma FirstOut<T>(xs: seq<T>)
    requires xs != []
    ensures multiset(xs) == multiset{xs[0]} + multiset(xs[1..])
  {
    assert xs == [xs[0]] + xs[1..];
  }

  lemma Cancels<T>(x: T, a: multiset<T>, b: multiset<T>)
    requires multiset{x} + a == multiset{x} + b
    ensures a == b
  {
    forall y ensures a[y] == b[y] {
      assert (multiset{x} + a)[y] == (multiset{x} + b)[y];
    }
  }

  lemma {:induction false} SortedKeeps<T>(xs: seq<T>, key: T -> nat)
    ensures multiset(Sorted(xs, key)) == multiset(xs)
    ensures Ascending(Sorted(xs, key), key)
  {
    if xs != [] {
      var init, last := xs[..|xs| - 1], xs[|xs| - 1];
      SortedKeeps(init, key);
      InsertKeeps(last, Sorted(init, key), key);
      InsertAscends(last, Sorted(init, key), key);
      LastOut(xs);
    }
  }

  /** No key occurs twice, put in terms of how often each element occurs. */
  lemma {:induction false} DifferOnce<T>(xs: seq<T>, key: T -> nat, x: T, y: T)
    requires KeysDiffer(xs, key) && x in xs && y in xs && key(x) == key(y)
    ensures x == y && multiset(xs)[x] == 1
    decreases |xs|
  {
    var a :| 0 <= a < |xs| && xs[a] == x;
    var b :| 0 <= b < |xs| && xs[b] == y;
    assert !(a < b) && !(b < a);
    Once(xs, a);
  }

  lemma {:induction false} Once<T>(xs: seq<T>, a: nat)
    requires a < |xs| && forall b :: 0 <= b < |xs| && b != a ==> xs[b] != xs[a]
    ensures multiset(xs)[xs[a]] == 1
  {
    assert xs == xs[..a] + [xs[a]] + xs[a + 1..];
    assert xs[a] !in xs[..a] && xs[a] !in xs[a + 1..];
  }

  /** Sorting elements whose keys differ makes the keys strictly increasing. */
  lemma SortedStrictly<T>(xs: seq<T>, key: T -> nat)
    requires KeysDiffer(xs, key)
    ensures StrictlyAscending(Sorted(xs, key), key)
  {
    SortedKeeps(xs, key);
    var sorted := Sorted(xs, key);
    forall a, b | 0 <= a < b < |sorted| ensures key(sorted[a]) < key(sorted[b]) {
      if key(sorted[a]) == key(sorted[b]) {
        assert sorted[a] in multiset(sorted) && sorted[b] in multiset(sorted);
        DifferOnce(xs, key, sorted[a], sorted[b]);
        Twice(sorted, a, b);
      }
    }
  }

  lemma Twice<T>(xs: seq<T>, a: nat, b: nat)
    requires a < b < |xs| && xs[a] == xs[b]
    ensures multiset(xs)[xs[a]] >= 2
  {
    assert xs == xs[..a] + [xs[a]] + xs[a + 1..b] + [xs[b]] + xs[b + 1..];
  }

  /** A strictly increasing arrangement is determined by its elements. */
  lemma {:induction false} StrictlyDetermined<T>(xs: seq<T>, ys: seq<T>, key: T -> nat)
    requires StrictlyAscending(xs, key) && StrictlyAscending(ys, key) && multiset(xs) == multiset(ys)
    ensures xs == ys
    decreases |xs|
  {
    assert |xs| == |multiset(xs)| == |ys|;
    if xs != [] {
      SameFirst(xs, ys, key);
      FirstOut(xs);
      FirstOut(ys);
      Cancels(xs[0], multiset(xs[1..]), multiset(ys[1..]));
      StrictlyDetermined(xs[1..], ys[1..], key);
      assert xs == [xs[0]] + xs[1..] && ys == [ys[0]] + ys[1..];
    }
  }

  lemma SameFirst<T>(xs: seq<T>, ys: seq<T>, key: T -> nat)
    requires StrictlyAscending(xs, key) && StrictlyAscending(ys, key) && multiset(xs) == multiset(ys)
    requires xs != [] && ys != []
    ensures xs[0] == ys[0]
  {
    assert xs[0] in multiset(ys) && ys[0] in multiset(xs);
    var a :| 0 <= a < |ys| && ys[a] == xs[0];
    var b :| 0 <= b < |xs| && xs[b] == ys[0];
  }

  /** The same when only membership is known. */
  lemma {:induction false} StrictlyDeterminedByMembers<T>(xs: seq<T>, ys: seq<T>, key: T -> nat)
    requires StrictlyAscending(xs, key) && StrictlyAscending(ys, key) && forall x :: x in xs <==> x in ys
    ensures xs == ys
    decreases |xs|
  {
    NoMembers(xs, ys);
    if xs != [] {
      assert xs[0] in ys && ys[0] in xs;
      assert xs[0] == ys[0];
      forall x ensures x in xs[1..] <==> x in ys[1..] {
        RestMembers(xs, key, x);
        RestMembers(ys, key, x);
      }
      StrictlyDeterminedByMembers(xs[1..], ys[1..], key);
      assert xs == [xs[0]] + xs[1..] && ys == [ys[0]] + ys[1..];
    }
  }

  lemma NoMembers<T>(xs: seq<T>, ys: seq<T>)
    requires forall x :: x in xs <==> x in ys
    ensures xs == [] <==> ys == []
  {
    assert xs == [] || xs[0] in xs;
    assert ys == [] || ys[0] in ys;
  }

  lemma RestMembers<T>(xs: seq<T>, key: T -> nat, x: T)
    requires StrictlyAscending(xs, key) && xs != []
    ensures x in xs[1..] <==> x in xs && x != xs[0]
  {
    if x in xs[1..] {
      var k :| 0 <= k < |xs| - 1 && xs[1..][k] == x;
      assert key(xs[0]) < key(xs[k + 1]);
    }
  }

  lemma {:induction false} PermutedDiffer<T>(xs: seq<T>, ys: seq<T>, key: T -> nat)
    requires KeysDiffer(xs, key) && multiset(xs) == multiset(ys)
    ensures KeysDiffer(ys, key)
  {
    forall a, b | 0 <= a < b < |ys| ensures key(ys[a]) != key(ys[b]) {
      if key(ys[a]) == key(ys[b]) {
        assert ys[a] in multiset(xs) && ys[b] in multiset(xs);
        DifferOnce(xs, key, ys[a], ys[b]);
        Twice(ys, a, b);
      }
    }
  }

  /** Sorting forgets the order it was given, when the keys differ. */
  lemma SortedForgetsOrder<T>(xs: seq<T>, ys: seq<T>, key: T -> nat)
    requires KeysDiffer(xs, key) && multiset(xs) == multiset(ys)
    ensures Sorted(xs, key) == Sorted(ys, key)
  {
    PermutedDiffer(xs, ys, key);
    SortedKeeps(xs, key);
    SortedKeeps(ys, key);
    SortedStrictly(xs, key);
    SortedStrictly(ys, key);
    StrictlyDetermined(Sorted(xs, key), Sorted(ys, key), key);
  }
}
