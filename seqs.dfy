/**
  Generic sequence helpers: mapping a function over a sequence and keeping the
  present values of a sequence of options. Being generic in the function, the
  lemmas here never look into what the function computes.
 */
module Seqs {
  import opened Wrappers

  /** `f` applied to every element of `xs`. */
  function MapSeq<A, B>(f: A -> B, xs: seq<A>): (r: seq<B>)
    ensures |r| == |xs|
    ensures forall i :: 0 <= i < |xs| ==> r[i] == f(xs[i])
  {
    seq(|xs|, i requires 0 <= i < |xs| => f(xs[i]))
  }

  lemma MapSeqAppend<A, B>(f: A -> B, a: seq<A>, b: seq<A>)
    ensures MapSeq(f, a + b) == MapSeq(f, a) + MapSeq(f, b)
  {
  }

  lemma MapSeqOne<A, B>(f: A -> B, x: A, y: B)
    requires f(x) == y
    ensures MapSeq(f, [x]) == [y]
  {
  }

  lemma MapSeqPrefix<A, B>(f: A -> B, xs: seq<A>, i: nat)
    requires i <= |xs|
    ensures MapSeq(f, xs[..i]) == MapSeq(f, xs)[..i]
    ensures MapSeq(f, xs[i..]) == MapSeq(f, xs)[i..]
  {
  }

  lemma MapSeqSnoc<A, B>(f: A -> B, xs: seq<A>, i: nat)
    requires i < |xs|
    ensures MapSeq(f, xs[..i + 1]) == MapSeq(f, xs[..i]) + [f(xs[i])]
  {
  }

  /** The values of the present options, in order (a list comprehension with an `if`). */
  function Somes<T>(xs: seq<Option<T>>): (r: seq<T>)
    ensures |r| <= |xs|
  {
    if xs == [] then []
    else
      var x := xs[|xs| - 1];
      Somes(xs[..|xs| - 1]) + if x.Some? then [x.value] else []
  }

  lemma SomesSnoc<T>(xs: seq<Option<T>>, x: Option<T>)
    ensures Somes(xs + [x]) == Somes(xs) + if x.Some? then [x.value] else []
  {
    assert (xs + [x])[..|xs|] == xs;
  }

  /** Every value kept is one of the options' values. */
  lemma {:induction false} SomesFrom<T>(xs: seq<Option<T>>, k: nat)
    requires k < |Somes(xs)|
    ensures Some(Somes(xs)[k]) in xs
    decreases |xs|
  {
    var n := |xs| - 1;
    var prev := Somes(xs[..n]);
    if k < |prev| {
      SomesFrom(xs[..n], k);
      assert xs[..n] <= xs;
    }
  }

  /** When every option is present, all values are kept. */
  lemma {:induction false} SomesAll<T>(xs: seq<Option<T>>, ys: seq<T>)
    requires |xs| == |ys|
    requires forall i :: 0 <= i < |xs| ==> xs[i] == Some(ys[i])
    ensures Somes(xs) == ys
    decreases |xs|
  {
    if xs != [] {
      var n := |xs| - 1;
      SomesAll(xs[..n], ys[..n]);
      assert ys[..n] + [ys[n]] == ys;
    }
  }

  /** Keeping the values of a concatenation keeps those of each part, in order. */
  lemma {:induction false} SomesAppend<T>(a: seq<Option<T>>, b: seq<Option<T>>)
    ensures Somes(a + b) == Somes(a) + Somes(b)
    decreases |b|
  {
    if b == [] {
      assert a + b == a;
    } else {
      var n := |b| - 1;
      assert (a + b)[..|a + b| - 1] == a + b[..n];
      SomesAppend(a, b[..n]);
    }
  }

  /** The elements satisfying `p`, in order (a list comprehension with an `if`). */
  function Filter<T>(xs: seq<T>, p: T -> bool): (r: seq<T>)
    ensures |r| <= |xs|
  {
    if xs == [] then []
    else
      var n := |xs| - 1;
      Filter(xs[..n], p) + if p(xs[n]) then [xs[n]] else []
  }

  lemma FilterSnoc<T>(xs: seq<T>, p: T -> bool, j: nat)
    requires j < |xs|
    ensures Filter(xs[..j + 1], p) == Filter(xs[..j], p) + if p(xs[j]) then [xs[j]] else []
  {
    assert xs[..j + 1][..j] == xs[..j];
  }

  /** Every element kept is an element of `xs` satisfying `p`. */
  lemma {:induction false} FilterSound<T>(xs: seq<T>, p: T -> bool, k: nat)
    requires k < |Filter(xs, p)|
    ensures Filter(xs, p)[k] in xs && p(Filter(xs, p)[k])
    decreases |xs|
  {
    var n := |xs| - 1;
    if k < |Filter(xs[..n], p)| {
      FilterSound(xs[..n], p, k);
      assert xs[..n] <= xs;
    }
  }

  /** Every element satisfying `p` is kept. */
  lemma {:induction false} FilterComplete<T>(xs: seq<T>, p: T -> bool, i: nat)
    requires i < |xs| && p(xs[i])
    ensures xs[i] in Filter(xs, p)
    decreases |xs|
  {
    var n := |xs| - 1;
    if i < n {
      FilterComplete(xs[..n], p, i);
    }
  }

  /** Filtering distributes over concatenation. */
  lemma {:induction false} FilterAppend<T>(a: seq<T>, b: seq<T>, p: T -> bool)
    ensures Filter(a + b, p) == Filter(a, p) + Filter(b, p)
    decreases |b|
  {
    if b == [] {
      assert a + b == a;
    } else {
      var n := |b| - 1;
      assert (a + b)[..|a| + n] == a + b[..n];
      FilterAppend(a, b[..n], p);
    }
  }

  /** No element satisfying `p` leaves nothing. */
  lemma {:induction false} FilterNone<T>(xs: seq<T>, p: T -> bool)
    requires forall i :: 0 <= i < |xs| ==> !p(xs[i])
    ensures Filter(xs, p) == []
    decreases |xs|
  {
    if xs != [] {
      FilterNone(xs[..|xs| - 1], p);
    }
  }

  /** When every element satisfies `p`, nothing is dropped. */
  lemma {:induction false} FilterAll<T>(xs: seq<T>, p: T -> bool)
    requires forall i :: 0 <= i < |xs| ==> p(xs[i])
    ensures Filter(xs, p) == xs
    decreases |xs|
  {
    if xs != [] {
      var n := |xs| - 1;
      FilterAll(xs[..n], p);
      assert xs[..n] + [xs[n]] == xs;
    }
  }

  /** Filtering a prefix gives a prefix of the filtered sequence. */
  lemma {:induction false} FilterPrefix<T>(xs: seq<T>, p: T -> bool, n: nat)
    requires n <= |xs|
    ensures Filter(xs[..n], p) <= Filter(xs, p)
  {
    var a, b := xs[..n], xs[n..];
    assert a + b == xs;
    FilterAppend(a, b, p);
    var fa, fb := Filter(a, p), Filter(b, p);
    assert fa <= fa + fb;
  }

  /** `r` is `xs` with some elements left out and the others kept in order. */
  predicate IsSubsequence<T(==)>(r: seq<T>, xs: seq<T>)
    decreases |xs|
  {
    if r == [] then true
    else if xs == [] then false
    else
      (r[|r| - 1] == xs[|xs| - 1] && IsSubsequence(r[..|r| - 1], xs[..|xs| - 1]))
      || IsSubsequence(r, xs[..|xs| - 1])
  }

  /** `n` copies of `x`. */
  function Repeat<T>(x: T, n: nat): (r: seq<T>)
    ensures |r| == n
  {
    if n == 0 then [] else Repeat(x, n - 1) + [x]
  }

  /** The sum of `f` over the elements, added left to right. */
  function SumOf<T>(xs: seq<T>, f: T -> real): real
  {
    if xs == [] then 0.0 else SumOf(xs[..|xs| - 1], f) + f(xs[|xs| - 1])
  }

  lemma SumOfSnoc<T>(xs: seq<T>, x: T, f: T -> real)
    ensures SumOf(xs + [x], f) == SumOf(xs, f) + f(x)
  {
    assert (xs + [x])[..|xs|] == xs;
  }

  /** A sum of non-negative values is non-negative. */
  lemma {:induction false} SumOfNonNegative<T>(xs: seq<T>, f: T -> real)
    requires forall i :: 0 <= i < |xs| ==> f(xs[i]) >= 0.0
    ensures SumOf(xs, f) >= 0.0
    decreases |xs|
  {
    if xs != [] {
      SumOfNonNegative(xs[..|xs| - 1], f);
    }
  }

  /** A sum of values at most `c` is at most `c` times their number. */
  lemma {:induction false} SumOfAtMost<T>(xs: seq<T>, f: T -> real, c: real)
    requires forall i :: 0 <= i < |xs| ==> f(xs[i]) <= c
    ensures SumOf(xs, f) <= (|xs| as real) * c
    decreases |xs|
  {
    if xs != [] {
      SumOfAtMost(xs[..|xs| - 1], f, c);
    }
  }
}
