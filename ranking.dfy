/**
  A stable sort by a `real` key in descending order, as Python's
  `sorted(xs, key=f, reverse=True)` behaves: the keys do not increase, the
  result is a permutation of the input, and elements with equal keys keep
  their input order.

  The sort inserts the elements one by one, each behind every element whose
  key is at least its own. The definitions are generic in the key function.
 */
module Ranking {
  import opened Seqs

  predicate Descending<T>(xs: seq<T>, key: T -> real)
  {
    forall i, j :: 0 <= i < j < |xs| ==> key(xs[i]) >= key(xs[j])
  }

  /** Where `x` goes in `ys`: behind the leading elements whose key is at least `key(x)`. */
  function Position<T>(ys: seq<T>, x: T, key: T -> real): (p: nat)
    ensures p <= |ys|
    ensures forall i :: 0 <= i < p ==> key(ys[i]) >= key(x)
    ensures p < |ys| ==> key(ys[p]) < key(x)
  {
    if ys == [] || key(ys[0]) < key(x) then 0 else 1 + Position(ys[1..], x, key)
  }

  function Insert<T>(ys: seq<T>, x: T, key: T -> real): (r: seq<T>)
    ensures |r| == |ys| + 1
    ensures multiset(r) == multiset(ys) + multiset{x}
  {
    var p := Position(ys, x, key);
    assert ys == ys[..p] + ys[p..];
    ys[..p] + [x] + ys[p..]
  }

  /** The sort, from the back: the first `n - 1` elements sorted, then the last inserted. */
  function SortDesc<T>(xs: seq<T>, key: T -> real): (r: seq<T>)
    ensures |r| == |xs|
    ensures multiset(r) == multiset(xs)
  {
    if xs == [] then []
    else
      var n := |xs| - 1;
      assert xs == xs[..n] + [xs[n]];
      Insert(SortDesc(xs[..n], key), xs[n], key)
  }

  /** In a descending sequence, everything from the insertion point on has a smaller key. */
  lemma PositionRest<T>(ys: seq<T>, x: T, key: T -> real)
    requires Descending(ys, key)
    ensures forall i :: Position(ys, x, key) <= i < |ys| ==> key(ys[i]) < key(x)
  {
    var p := Position(ys, x, key);
    if p < |ys| {
      forall i | p <= i < |ys|
        ensures key(ys[i]) < key(x)
      {
        assert key(ys[i]) <= key(ys[p]);
      }
    }
  }

  lemma InsertDescending<T>(ys: seq<T>, x: T, key: T -> real)
    requires Descending(ys, key)
    ensures Descending(Insert(ys, x, key), key)
  {
    var p := Position(ys, x, key);
    PositionRest(ys, x, key);
    var r := Insert(ys, x, key);
    forall i, j | 0 <= i < j < |r|
      ensures key(r[i]) >= key(r[j])
    {
      if j < p || i > p {
        assert r[i] == ys[if i < p then i else i - 1];
        assert r[j] == ys[if j < p then j else j - 1];
      } else if i == p {
        assert r[j] == ys[j - 1];
      } else {
        assert r[i] == ys[i];
      }
    }
  }

  /** The keys of the sorted sequence do not increase. */
  lemma {:induction false} SortDescDescending<T>(xs: seq<T>, key: T -> real)
    ensures Descending(SortDesc(xs, key), key)
    decreases |xs|
  {
    if xs != [] {
      var n := |xs| - 1;
      SortDescDescending(xs[..n], key);
      InsertDescending(SortDesc(xs[..n], key), xs[n], key);
    }
  }

  /** The test "has key `v`". */
  function HasKey<T>(key: T -> real, v: real): T -> bool
  {
    x => key(x) == v
  }

  /** The elements of key `v`, in order. */
  function KeyClass<T>(xs: seq<T>, key: T -> real, v: real): seq<T>
  {
    Filter(xs, HasKey(key, v))
  }

  /** Putting `x` between `front` and `back` adds it to its key class, when `back` holds no key of that class. */
  lemma ClassAround<T>(front: seq<T>, x: T, back: seq<T>, key: T -> real, v: real)
    requires key(x) == v ==> forall i :: 0 <= i < |back| ==> key(back[i]) < key(x)
    ensures key(x) == v ==> KeyClass(front + [x] + back, key, v) == KeyClass(front, key, v) + [x]
    ensures key(x) != v ==> KeyClass(front + [x] + back, key, v) == KeyClass(front + back, key, v)
  {
    var f := HasKey(key, v);
    var xb := [x] + back;
    assert front + [x] + back == front + xb;
    FilterAppend(front, xb, f);
    FilterAppend([x], back, f);
    if key(x) == v {
      FilterNone(back, f);
    } else {
      FilterAppend(front, back, f);
    }
  }

  /** Inserting `x` adds it at the end of its key class and leaves the other classes alone. */
  lemma InsertClass<T>(ys: seq<T>, x: T, key: T -> real, v: real)
    requires Descending(ys, key)
    ensures KeyClass(Insert(ys, x, key), key, v) == KeyClass(ys, key, v) + if key(x) == v then [x] else []
  {
    var p := Position(ys, x, key);
    PositionRest(ys, x, key);
    ClassAround(ys[..p], x, ys[p..], key, v);
    assert ys[..p] + ys[p..] == ys;
    if key(x) == v {
      FilterAppend(ys[..p], ys[p..], HasKey(key, v));
      FilterNone(ys[p..], HasKey(key, v));
    }
  }

  /** The sort is stable: each key class keeps its input order. */
  lemma {:induction false} SortDescStable<T>(xs: seq<T>, key: T -> real, v: real)
    ensures KeyClass(SortDesc(xs, key), key, v) == KeyClass(xs, key, v)
    decreases |xs|
  {
    if xs != [] {
      var n := |xs| - 1;
      SortDescStable(xs[..n], key, v);
      SortDescDescending(xs[..n], key);
      InsertClass(SortDesc(xs[..n], key), xs[n], key, v);
    }
  }

  /** The first `n` elements, or all of them when there are fewer (`xs[:n]`). */
  function Take<T>(xs: seq<T>, n: nat): (r: seq<T>)
    ensures |r| <= n && |r| <= |xs|
    ensures r <= xs
    ensures |xs| <= n ==> r == xs
  {
    if |xs| <= n then xs else xs[..n]
  }

  /** The first `n` of the sorted elements are the top ones: none left out has a higher key. */
  lemma TakeSortedTop<T>(xs: seq<T>, key: T -> real, n: nat)
    ensures |Take(SortDesc(xs, key), n)| == if |xs| < n then |xs| else n
    ensures forall x, y :: x in xs && x !in Take(SortDesc(xs, key), n) && y in Take(SortDesc(xs, key), n) ==>
      key(y) >= key(x)
  {
    var sorted := SortDesc(xs, key);
    var r := Take(sorted, n);
    SortDescDescending(xs, key);
    forall x, y | x in xs && x !in r && y in r
      ensures key(y) >= key(x)
    {
      assert x in multiset(sorted);
      var j :| 0 <= j < |sorted| && sorted[j] == x;
      var i :| 0 <= i < |r| && r[i] == y;
      assert sorted[i] == y;
    }
  }
}
