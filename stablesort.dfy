/**
  A stable sort by a small natural-number key, as Python's `sorted(xs, key=f)`
  behaves when every key lies in `0..m-1`: the result is the key classes
  `0, 1, ..., m-1` one after the other, each class in input order.

  The definitions and lemmas are generic in the element type and the key
  function, so that they say nothing about how a key is computed.
 */
module StableSort {

  /** The members of `xs` whose key is `n`, in their order in `xs`. */
  function Bucket<T>(xs: seq<T>, key: T -> nat, n: nat): (r: seq<T>)
    ensures |r| <= |xs|
  {
    if xs == [] then []
    else
      var prev := Bucket(xs[..|xs| - 1], key, n);
      var x := xs[|xs| - 1];
      if key(x) == n then prev + [x] else prev
  }

  /** The key classes `0..m-1` of `xs`, one after the other. */
  function Buckets<T>(xs: seq<T>, key: T -> nat, m: nat): seq<T>
  {
    if m == 0 then [] else Buckets(xs, key, m - 1) + Bucket(xs, key, m - 1)
  }

  predicate SortedBy<T>(xs: seq<T>, key: T -> nat)
  {
    forall i, j :: 0 <= i < j < |xs| ==> key(xs[i]) <= key(xs[j])
  }

  predicate UniqueBy<T, K(==)>(xs: seq<T>, k: T -> K)
  {
    forall i, j :: 0 <= i < j < |xs| ==> k(xs[i]) != k(xs[j])
  }

  // ---------------------------------------------------------------------------
  // Membership

  /** A key class holds members of `xs` with that key only. */
  lemma {:induction false} BucketMembers<T>(xs: seq<T>, key: T -> nat, n: nat)
    ensures forall x :: x in Bucket(xs, key, n) ==> x in xs && key(x) == n
  {
    if xs != [] {
      var prev := xs[..|xs| - 1];
      BucketMembers(prev, key, n);
      assert forall y :: y in prev ==> y in xs;
    }
  }

  /** The first `m` classes hold members of `xs` with a key below `m` only. */
  lemma {:induction false} BucketsMembers<T>(xs: seq<T>, key: T -> nat, m: nat)
    ensures forall x :: x in Buckets(xs, key, m) ==> x in xs && key(x) < m
  {
    if m > 0 {
      BucketsMembers(xs, key, m - 1);
      BucketMembers(xs, key, m - 1);
    }
  }

  // ---------------------------------------------------------------------------
  // Sortedness

  lemma ConcatSorted<T>(a: seq<T>, b: seq<T>, key: T -> nat)
    requires SortedBy(a, key) && SortedBy(b, key)
    requires forall x, y :: x in a && y in b ==> key(x) <= key(y)
    ensures SortedBy(a + b, key)
  {
    forall i, j | 0 <= i < j < |a + b| ensures key((a + b)[i]) <= key((a + b)[j]) {
      if i < |a| && j >= |a| {
        assert (a + b)[i] in a && (a + b)[j] in b;
      }
    }
  }

  lemma BucketSorted<T>(xs: seq<T>, key: T -> nat, n: nat)
    ensures SortedBy(Bucket(xs, key, n), key)
  {
    var w := Bucket(xs, key, n);
    BucketMembers(xs, key, n);
    forall i, j | 0 <= i < j < |w| ensures key(w[i]) <= key(w[j]) {
      assert w[i] in w && w[j] in w;
    }
  }

  lemma {:induction false} BucketsSorted<T>(xs: seq<T>, key: T -> nat, m: nat)
    ensures SortedBy(Buckets(xs, key, m), key)
  {
    if m > 0 {
      BucketsSorted(xs, key, m - 1);
      BucketSorted(xs, key, m - 1);
      BucketsMembers(xs, key, m - 1);
      BucketMembers(xs, key, m - 1);
      ConcatSorted(Buckets(xs, key, m - 1), Bucket(xs, key, m - 1), key);
    }
  }

  // ---------------------------------------------------------------------------
  // Stability

  /** Taking a key class distributes over concatenation. */
  lemma {:induction false} BucketConcat<T>(a: seq<T>, b: seq<T>, key: T -> nat, n: nat)
    ensures Bucket(a + b, key, n) == Bucket(a, key, n) + Bucket(b, key, n)
    decreases |b|
  {
    if b == [] {
      assert a + b == a;
    } else {
      assert (a + b)[..|a + b| - 1] == a + b[..|b| - 1];
      BucketConcat(a, b[..|b| - 1], key, n);
    }
  }

  /** Taking a key class of a key class keeps it whole or empties it. */
  lemma {:induction false} BucketTwice<T>(xs: seq<T>, key: T -> nat, m: nat, n: nat)
    ensures m == n ==> Bucket(Bucket(xs, key, m), key, n) == Bucket(xs, key, n)
    ensures m != n ==> Bucket(Bucket(xs, key, m), key, n) == []
    decreases |xs|
  {
    if xs != [] {
      var prev := xs[..|xs| - 1];
      BucketTwice(prev, key, m, n);
      var x := xs[|xs| - 1];
      if key(x) == m {
        BucketConcat(Bucket(prev, key, m), [x], key, n);
        assert Bucket([x], key, n) == if m == n then [x] else [] by {
          assert [x][..0] == [];
        }
      }
    }
  }

  /** Class `n` of the first `m` classes: class `n` of the first `m - 1`, then class `n` of class `m - 1`. */
  lemma BucketsConcat<T>(xs: seq<T>, key: T -> nat, m: nat, n: nat)
    requires m > 0
    ensures Bucket(Buckets(xs, key, m), key, n)
      == Bucket(Buckets(xs, key, m - 1), key, n) + Bucket(Bucket(xs, key, m - 1), key, n)
  {
    BucketConcat(Buckets(xs, key, m - 1), Bucket(xs, key, m - 1), key, n);
  }

  /** A class `n >= m` has no member among the first `m` classes. */
  lemma BucketsAbove<T>(xs: seq<T>, key: T -> nat, m: nat, n: nat)
    requires n >= m
    ensures Bucket(Buckets(xs, key, m), key, n) == []
  {
    var s := Buckets(xs, key, m);
    BucketsMembers(xs, key, m);
    assert forall i :: 0 <= i < |s| ==> s[i] in s;
    BucketNone(s, key, n);
  }

  /** Class `n < m` of the first `m` classes is class `n` of the input: the sort is stable. */
  lemma {:induction false} BucketsStable<T>(xs: seq<T>, key: T -> nat, m: nat, n: nat)
    requires n < m
    ensures Bucket(Buckets(xs, key, m), key, n) == Bucket(xs, key, n)
  {
    BucketsConcat(xs, key, m, n);
    BucketTwice(xs, key, m - 1, n);
    if n < m - 1 {
      BucketsStable(xs, key, m - 1, n);
      Glue(Bucket(Buckets(xs, key, m), key, n), Bucket(Buckets(xs, key, m - 1), key, n),
        Bucket(Bucket(xs, key, m - 1), key, n), Bucket(xs, key, n), []);
    } else {
      BucketsAbove(xs, key, m - 1, n);
      Glue(Bucket(Buckets(xs, key, m), key, n), Bucket(Buckets(xs, key, m - 1), key, n),
        Bucket(Bucket(xs, key, m - 1), key, n), [], Bucket(xs, key, n));
    }
  }

  /** If `whole` is `a + b`, `a` is `a'` and `b` is `b'`, then `whole` is `a' + b'`. */
  lemma Glue<T>(whole: seq<T>, a: seq<T>, b: seq<T>, a': seq<T>, b': seq<T>)
    requires whole == a + b && a == a' && b == b'
    ensures whole == a' + b' && (a' == [] ==> whole == b') && (b' == [] ==> whole == a')
  {
  }

  /** A class no member's key reaches is empty. */
  lemma {:induction false} BucketNone<T>(xs: seq<T>, key: T -> nat, n: nat)
    requires forall i :: 0 <= i < |xs| ==> key(xs[i]) != n
    ensures Bucket(xs, key, n) == []
    decreases |xs|
  {
    if xs != [] {
      BucketNone(xs[..|xs| - 1], key, n);
    }
  }

  // ---------------------------------------------------------------------------
  // Permutation

  /** One more element of `xs` joins its own key class only. */
  lemma BucketLast<T>(xs: seq<T>, key: T -> nat, n: nat)
    requires xs != []
    ensures multiset(Bucket(xs, key, n)) ==
      multiset(Bucket(xs[..|xs| - 1], key, n)) +
      if key(xs[|xs| - 1]) == n then multiset{xs[|xs| - 1]} else multiset{}
  {
  }

  /** `x` joins the classes below `n` or class `n`, so it joins the classes below `n + 1`. */
  lemma AddToOneClass<T>(a: multiset<T>, a': multiset<T>, b: multiset<T>, b': multiset<T>,
                            x: T, r: nat, n: nat)
    requires a == a' + if r < n then multiset{x} else multiset{}
    requires b == b' + if r == n then multiset{x} else multiset{}
    ensures a + b == a' + b' + if r < n + 1 then multiset{x} else multiset{}
  {
  }

  /** One more element of `xs` lands in the first `m` classes exactly when its key is below `m`. */
  lemma {:induction false} BucketsLast<T>(xs: seq<T>, key: T -> nat, m: nat)
    requires xs != []
    ensures multiset(Buckets(xs, key, m)) ==
      multiset(Buckets(xs[..|xs| - 1], key, m)) +
      if key(xs[|xs| - 1]) < m then multiset{xs[|xs| - 1]} else multiset{}
  {
    var prev, x := xs[..|xs| - 1], xs[|xs| - 1];
    if m > 0 {
      BucketsLast(xs, key, m - 1);
      BucketLast(xs, key, m - 1);
      var a, a' := multiset(Buckets(xs, key, m - 1)), multiset(Buckets(prev, key, m - 1));
      var b, b' := multiset(Bucket(xs, key, m - 1)), multiset(Bucket(prev, key, m - 1));
      assert multiset(Buckets(xs, key, m)) == a + b;
      assert multiset(Buckets(prev, key, m)) == a' + b';
      AddToOneClass(a, a', b, b', x, key(x), m - 1);
    }
  }

  lemma {:induction false} BucketsEmpty<T>(key: T -> nat, m: nat)
    ensures Buckets([], key, m) == []
  {
    if m > 0 {
      BucketsEmpty(key, m - 1);
    }
  }

  /** When every key is below `m`, the first `m` classes are a permutation of `xs`. */
  lemma {:induction false} BucketsPermute<T>(xs: seq<T>, key: T -> nat, m: nat)
    requires forall i :: 0 <= i < |xs| ==> key(xs[i]) < m
    ensures multiset(Buckets(xs, key, m)) == multiset(xs)
    decreases |xs|
  {
    if xs == [] {
      BucketsEmpty(key, m);
    } else {
      var prev, x := xs[..|xs| - 1], xs[|xs| - 1];
      BucketsPermute(prev, key, m);
      BucketsLast(xs, key, m);
      assert xs == prev + [x];
    }
  }

  // ---------------------------------------------------------------------------
  // Distinct keys of another kind survive the sort

  lemma {:induction false} BucketUnique<T, K>(xs: seq<T>, key: T -> nat, k: T -> K, n: nat)
    requires UniqueBy(xs, k)
    ensures UniqueBy(Bucket(xs, key, n), k)
    decreases |xs|
  {
    if xs != [] {
      var prev := xs[..|xs| - 1];
      assert UniqueBy(prev, k);
      BucketUnique(prev, key, k, n);
      BucketMembers(prev, key, n);
      var x := xs[|xs| - 1];
      var w := Bucket(prev, key, n);
      if key(x) == n {
        forall i, j | 0 <= i < j < |w + [x]| ensures k((w + [x])[i]) != k((w + [x])[j]) {
          if j == |w| {
            assert (w + [x])[i] in prev;
            var p :| 0 <= p < |prev| && prev[p] == (w + [x])[i];
            assert xs[p] == prev[p];
          }
        }
      }
    }
  }

  lemma ConcatUnique<T, K>(a: seq<T>, b: seq<T>, k: T -> K)
    requires UniqueBy(a, k) && UniqueBy(b, k)
    requires forall x, y :: x in a && y in b ==> k(x) != k(y)
    ensures UniqueBy(a + b, k)
  {
    forall i, j | 0 <= i < j < |a + b| ensures k((a + b)[i]) != k((a + b)[j]) {
      if i < |a| && j >= |a| {
        assert (a + b)[i] in a && (a + b)[j] in b;
      }
    }
  }

  /** Two members of a sequence with distinct `k`-values that share their `k`-value are the same member. */
  lemma SameKeySame<T, K>(xs: seq<T>, k: T -> K, x: T, y: T)
    requires UniqueBy(xs, k) && x in xs && y in xs && k(x) == k(y)
    ensures x == y
  {
    var i :| 0 <= i < |xs| && xs[i] == x;
    var j :| 0 <= j < |xs| && xs[j] == y;
    assert k(xs[i]) == k(xs[j]);
  }

  lemma {:induction false} BucketsUnique<T, K>(xs: seq<T>, key: T -> nat, k: T -> K, m: nat)
    requires UniqueBy(xs, k)
    ensures UniqueBy(Buckets(xs, key, m), k)
  {
    if m > 0 {
      var a, b := Buckets(xs, key, m - 1), Bucket(xs, key, m - 1);
      BucketsUnique(xs, key, k, m - 1);
      BucketUnique(xs, key, k, m - 1);
      BucketsMembers(xs, key, m - 1);
      BucketMembers(xs, key, m - 1);
      forall x, y | x in a && y in b ensures k(x) != k(y) {
        if k(x) == k(y) {
          SameKeySame(xs, k, x, y);
        }
      }
      ConcatUnique(a, b, k);
    }
  }
}
