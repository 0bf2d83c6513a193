/** A stable sort by descending key: what `sort_by` with a reversed comparison gives. */
module StableSort {

  /** Put an element in front of the first one whose key is no larger. */
  function Insert<T>(x: T, xs: seq<T>, key: T -> real): (r: seq<T>)
    ensures |r| == |xs| + 1
  {
    if xs == [] || key(xs[0]) <= key(x) then [x] + xs else [xs[0]] + Insert(x, xs[1..], key)
  }

  function SortDesc<T>(xs: seq<T>, key: T -> real): (r: seq<T>)
    ensures |r| == |xs|
  {
    if xs == [] then [] else Insert(xs[0], SortDesc(xs[1..], key), key)
  }

  ghost predicate Descending<T>(xs: seq<T>, key: T -> real) {
    forall i, j :: 0 <= i < j < |xs| ==> key(xs[i]) >= key(xs[j])
  }

  /** The elements with a given key, in the order they come. */
  function WithKey<T>(xs: seq<T>, key: T -> real, k: real): seq<T> {
    if xs == [] then [] else (if key(xs[0]) == k then [xs[0]] else []) + WithKey(xs[1..], key, k)
  }

  lemma {:induction false} InsertPermutes<T>(x: T, xs: seq<T>, key: T -> real)
    ensures multiset(Insert(x, xs, key)) == multiset{x} + multiset(xs)
  {
    if xs != [] && key(xs[0]) > key(x) {
      assert xs == [xs[0]] + xs[1..];
      InsertPermutes(x, xs[1..], key);
    }
  }

  lemma {:induction false} InsertSorts<T>(x: T, xs: seq<T>, key: T -> real)
    requires Descending(xs, key)
    ensures Descending(Insert(x, xs, key), key)
  {
    if xs != [] && key(xs[0]) > key(x) {
      InsertSorts(x, xs[1..], key);
      InsertPermutes(x, xs[1..], key);
      var rest := Insert(x, xs[1..], key);
      forall j | 0 <= j < |rest|
        ensures key(xs[0]) >= key(rest[j])
      {
        assert rest[j] in multiset(rest);
        assert rest[j] == x || rest[j] in xs[1..];
      }
    }
  }

  lemma WithKeyFirst<T>(x: T, xs: seq<T>, key: T -> real, k: real)
    ensures WithKey([x] + xs, key, k) == (if key(x) == k then [x] else []) + WithKey(xs, key, k)
  {
    assert ([x] + xs)[1..] == xs;
  }

  lemma {:induction false} InsertIsStable<T>(x: T, xs: seq<T>, key: T -> real, k: real)
    ensures WithKey(Insert(x, xs, key), key, k) == (if key(x) == k then [x] else []) + WithKey(xs, key, k)
  {
    hide WithKey;
    if xs != [] && key(xs[0]) > key(x) {
      var first, rest := xs[0], xs[1..];
      assert xs == [first] + rest;
      InsertIsStable(x, rest, key, k);
      WithKeyFirst(first, Insert(x, rest, key), key, k);
      WithKeyFirst(first, rest, key, k);
    } else {
      WithKeyFirst(x, xs, key, k);
    }
  }

  lemma {:induction false} SortSorts<T>(xs: seq<T>, key: T -> real)
    ensures Descending(SortDesc(xs, key), key)
    ensures multiset(SortDesc(xs, key)) == multiset(xs)
  {
    if xs != [] {
      SortSorts(xs[1..], key);
      InsertPermutes(xs[0], SortDesc(xs[1..], key), key);
      InsertSorts(xs[0], SortDesc(xs[1..], key), key);
      assert xs == [xs[0]] + xs[1..];
    }
  }

  /** Equal keys keep their order. */
  lemma {:induction false} SortIsStable<T>(xs: seq<T>, key: T -> real, k: real)
    ensures WithKey(SortDesc(xs, key), key, k) == WithKey(xs, key, k)
  {
    if xs != [] {
      SortIsStable(xs[1..], key, k);
      InsertIsStable(xs[0], SortDesc(xs[1..], key), key, k);
    }
  }

  /** The head is the first among the elements with the largest key. */
  lemma {:induction false} SortHead<T>(xs: seq<T>, key: T -> real) returns (i: nat)
    requires xs != []
    ensures i < |xs| && SortDesc(xs, key)[0] == xs[i]
    ensures forall j :: 0 <= j < |xs| ==> key(xs[j]) <= key(xs[i])
    ensures forall j :: 0 <= j < i ==> key(xs[j]) < key(xs[i])
  {
    if |xs| == 1 {
      i := 0;
    } else {
      var k := SortHead(xs[1..], key);
      i := if key(xs[k + 1]) <= key(xs[0]) then 0 else k + 1;
      forall j | 0 < j < |xs|
        ensures xs[j] == xs[1..][j - 1]
      {
      }
    }
  }
}
