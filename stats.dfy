/**
 * Reductions over the list of per-layer averages that the scorer works on:
 * sum, maximum, minimum, the spread (maximum minus minimum) and the
 * arithmetic mean, all on exact reals. Each of them depends only on the
 * multiset of values, which is what makes a dimension's score independent of
 * the order in which the layers are listed.
 */
module Stats {

  function Sum(xs: seq<real>): real
  {
    if xs == [] then 0.0 else xs[0] + Sum(xs[1..])
  }

  /** The largest value (Python's max on a non-empty list). */
  function Max(xs: seq<real>): (m: real)
    requires xs != []
    ensures m in xs
    ensures forall i :: 0 <= i < |xs| ==> xs[i] <= m
  {
    if |xs| == 1 then xs[0]
    else
      var rest := Max(xs[1..]);
      if xs[0] >= rest then xs[0] else rest
  }

  /** The smallest value (Python's min on a non-empty list). */
  function Min(xs: seq<real>): (m: real)
    requires xs != []
    ensures m in xs
    ensures forall i :: 0 <= i < |xs| ==> m <= xs[i]
  {
    if |xs| == 1 then xs[0]
    else
      var rest := Min(xs[1..]);
      if xs[0] <= rest then xs[0] else rest
  }

  /** max(xs) - min(xs), and 0.0 for an empty list. */
  function Gap(xs: seq<real>): (g: real)
    ensures g >= 0.0
  {
    if xs == [] then 0.0 else Max(xs) - Min(xs)
  }

  /**
   * sum(xs) / len(xs), and 0.0 for an empty list. MeanBetweenMinAndMax
   * places it between the smallest and the largest value.
   */
  function Mean(xs: seq<real>): (m: real)
    ensures xs == [] ==> m == 0.0
  {
    if xs == [] then 0.0 else Sum(xs) / (|xs| as real)
  }

  /** Dividing a total that lies between n*lo and n*hi by n gives a value between lo and hi. */
  lemma QuotientBetween(total: real, n: real, lo: real, hi: real)
    requires n > 0.0
    requires n * lo <= total <= n * hi
    ensures lo <= total / n <= hi
  {
    assert total / n - lo == (total - n * lo) / n;
    assert hi - total / n == (n * hi - total) / n;
  }

  lemma {:induction false} SumBetween(xs: seq<real>, lo: real, hi: real)
    requires forall i :: 0 <= i < |xs| ==> lo <= xs[i] <= hi
    ensures (|xs| as real) * lo <= Sum(xs) <= (|xs| as real) * hi
  {
    if xs != [] {
      SumBetween(xs[1..], lo, hi);
      assert (|xs| as real) * lo == lo + (|xs[1..]| as real) * lo;
      assert (|xs| as real) * hi == hi + (|xs[1..]| as real) * hi;
    }
  }

  /** The mean of values that all lie in [lo, hi] lies in [lo, hi]. */
  lemma MeanBetween(xs: seq<real>, lo: real, hi: real)
    requires xs != []
    requires forall i :: 0 <= i < |xs| ==> lo <= xs[i] <= hi
    ensures lo <= Mean(xs) <= hi
  {
    SumBetween(xs, lo, hi);
    QuotientBetween(Sum(xs), |xs| as real, lo, hi);
  }

  /** The mean lies between the minimum and the maximum. */
  lemma MeanBetweenMinAndMax(xs: seq<real>)
    requires xs != []
    ensures Min(xs) <= Mean(xs) <= Max(xs)
  {
    MeanBetween(xs, Min(xs), Max(xs));
  }

  /**
   * The gap is the largest difference between any two of the values, and
   * some pair of values attains it.
   */
  lemma GapIsLargestPairwiseDifference(xs: seq<real>)
    requires xs != []
    ensures forall i, j :: 0 <= i < |xs| && 0 <= j < |xs| ==> xs[i] - xs[j] <= Gap(xs)
    ensures exists i, j :: 0 <= i < |xs| && 0 <= j < |xs| && xs[i] - xs[j] == Gap(xs)
  {
    var hi :| 0 <= hi < |xs| && xs[hi] == Max(xs);
    var lo :| 0 <= lo < |xs| && xs[lo] == Min(xs);
    assert xs[hi] - xs[lo] == Gap(xs);
  }

  /** Removing the element at position k takes it out of the sum. */
  lemma {:induction false} SumWithout(xs: seq<real>, k: nat)
    requires k < |xs|
    ensures Sum(xs) == xs[k] + Sum(xs[..k] + xs[k + 1..])
  {
    if k > 0 {
      SumWithout(xs[1..], k - 1);
      assert xs[1..][..k - 1] + xs[1..][k..] == (xs[..k] + xs[k + 1..])[1..];
    } else {
      assert xs[..k] + xs[k + 1..] == xs[1..];
    }
  }

  /** The sum depends only on the multiset of values. */
  lemma {:induction false} SumOfPermutation(xs: seq<real>, ys: seq<real>)
    requires multiset(xs) == multiset(ys)
    ensures Sum(xs) == Sum(ys)
  {
    if xs != [] {
      assert xs[0] in multiset(ys);
      var k :| 0 <= k < |ys| && ys[k] == xs[0];
      var rest := ys[..k] + ys[k + 1..];
      MultisetWithout(ys, k);
      MultisetTail(xs);
      MultisetCancel(multiset(xs[1..]), multiset(rest), xs[0]);
      SumOfPermutation(xs[1..], rest);
      SumWithout(ys, k);
    } else {
      assert |ys| == |multiset(ys)| == 0;
    }
  }

  lemma MaxMinOfPermutation(xs: seq<real>, ys: seq<real>)
    requires xs != [] && multiset(xs) == multiset(ys)
    ensures ys != [] && Max(xs) == Max(ys) && Min(xs) == Min(ys)
  {
    assert xs[0] in multiset(ys);
    assert Max(xs) in multiset(ys) && Max(ys) in multiset(xs);
    assert Min(xs) in multiset(ys) && Min(ys) in multiset(xs);
  }

  /** Gap and mean depend only on the multiset of values, not on their order. */
  lemma GapAndMeanOfPermutation(xs: seq<real>, ys: seq<real>)
    requires multiset(xs) == multiset(ys)
    ensures Gap(xs) == Gap(ys) && Mean(xs) == Mean(ys)
  {
    assert |xs| == |multiset(xs)| == |multiset(ys)| == |ys|;
    if xs != [] {
      MaxMinOfPermutation(xs, ys);
      SumOfPermutation(xs, ys);
    }
  }

  /** f applied to every element, in order. */
  function Map<T>(f: T -> real, xs: seq<T>): (r: seq<real>)
    ensures |r| == |xs|
    ensures forall i :: 0 <= i < |xs| ==> r[i] == f(xs[i])
  {
    if xs == [] then [] else [f(xs[0])] + Map(f, xs[1..])
  }

  /** Taking out the element at position k takes its one occurrence out of the multiset. */
  lemma MultisetWithout<T>(s: seq<T>, k: nat)
    requires k < |s|
    ensures multiset(s) == multiset(s[..k] + s[k + 1..]) + multiset{s[k]}
  {
    assert s == s[..k] + [s[k]] + s[k + 1..];
  }

  lemma MultisetTail<T>(s: seq<T>)
    requires s != []
    ensures multiset(s) == multiset(s[1..]) + multiset{s[0]}
  {
    assert s == [s[0]] + s[1..];
  }

  lemma MultisetCancel<T>(a: multiset<T>, b: multiset<T>, x: T)
    requires a + multiset{x} == b + multiset{x}
    ensures a == b
  {
    assert a == (a + multiset{x}) - multiset{x};
  }

  lemma MapWithout<T>(f: T -> real, xs: seq<T>, k: nat)
    requires k < |xs|
    ensures Map(f, xs[..k] + xs[k + 1..]) == Map(f, xs)[..k] + Map(f, xs)[k + 1..]
  {
    var m := Map(f, xs);
    var l, r := Map(f, xs[..k] + xs[k + 1..]), m[..k] + m[k + 1..];
    forall i | 0 <= i < |l|
      ensures l[i] == r[i]
    {
      if i < k {
        assert l[i] == f(xs[i]) == m[i];
      } else {
        assert l[i] == f(xs[i + 1]) == m[i + 1];
      }
    }
  }

  lemma MultisetOfMapWithout<T>(f: T -> real, xs: seq<T>, k: nat)
    requires k < |xs|
    ensures multiset(Map(f, xs)) == multiset(Map(f, xs[..k] + xs[k + 1..])) + multiset{f(xs[k])}
  {
    MapWithout(f, xs, k);
    MultisetWithout(Map(f, xs), k);
  }

  /** Applying f to a rearrangement of xs rearranges the results. */
  lemma {:induction false} MapOfPermutation<T>(f: T -> real, xs: seq<T>, ys: seq<T>)
    requires multiset(xs) == multiset(ys)
    ensures multiset(Map(f, xs)) == multiset(Map(f, ys))
  {
    if xs == [] {
      assert |ys| == |multiset(ys)| == 0;
    } else {
      assert xs[0] in multiset(ys);
      var k :| 0 <= k < |ys| && ys[k] == xs[0];
      var rest := ys[..k] + ys[k + 1..];
      MultisetWithout(ys, k);
      MultisetTail(xs);
      MultisetCancel(multiset(xs[1..]), multiset(rest), xs[0]);
      MapOfPermutation(f, xs[1..], rest);
      MultisetOfMapWithout(f, ys, k);
      MultisetTail(Map(f, xs));
      assert Map(f, xs)[1..] == Map(f, xs[1..]);
    }
  }

  lemma MapOfThree<T>(f: T -> real, x: T, y: T, z: T)
    ensures Map(f, [x, y, z]) == [f(x), f(y), f(z)]
  {
  }

  lemma SumOfThree(x: real, y: real, z: real)
    ensures Sum([x, y, z]) == x + y + z
  {
    assert [x, y, z][1..] == [y, z] && [y, z][1..] == [z] && [z][1..] == [];
    assert Sum([z]) == z + Sum([]);
    assert Sum([y, z]) == y + Sum([z]);
  }
}
