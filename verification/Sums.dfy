/** Totals over sequences, and the sizes of sequences without repetition. */
module Sums {

  /** The sum of `weight` over the elements of `xs`. */
  ghost function Total<T>(weight: T -> nat, xs: seq<T>): nat {
    if xs == [] then 0 else weight(xs[0]) + Total(weight, xs[1..])
  }

  /** Replacing one element changes a total by the difference of two weights. */
  lemma {:induction false} TotalUpdate<T>(weight: T -> nat, xs: seq<T>, i: nat, x: T)
    requires i < |xs|
    ensures Total(weight, xs[i := x]) + weight(xs[i]) == Total(weight, xs) + weight(x)
    decreases |xs|
  {
    if i == 0 {
      assert xs[0 := x][1..] == xs[1..];
    } else {
      assert xs[i := x][1..] == xs[1..][i - 1 := x];
      TotalUpdate(weight, xs[1..], i - 1, x);
    }
  }

  lemma {:induction false} TotalAppend<T>(weight: T -> nat, xs: seq<T>, x: T)
    ensures Total(weight, xs + [x]) == Total(weight, xs) + weight(x)
    decreases |xs|
  {
    if xs == [] {
      assert [x][1..] == [];
      assert xs + [x] == [x];
    } else {
      assert (xs + [x])[1..] == xs[1..] + [x];
      TotalAppend(weight, xs[1..], x);
    }
  }

  /** A total is at least each of its terms. */
  lemma {:induction false} TotalAtLeast<T>(weight: T -> nat, xs: seq<T>, i: nat)
    requires i < |xs|
    ensures weight(xs[i]) <= Total(weight, xs)
    decreases |xs|
  {
    if i > 0 {
      TotalAtLeast(weight, xs[1..], i - 1);
    }
  }

  /** A total of weights that never exceed `bound`. */
  lemma {:induction false} TotalAtMost<T>(weight: T -> nat, xs: seq<T>, bound: nat)
    requires forall i | 0 <= i < |xs| :: weight(xs[i]) <= bound
    ensures Total(weight, xs) <= bound * |xs|
    decreases |xs|
  {
    if xs != [] {
      TotalAtMost(weight, xs[1..], bound);
      assert bound * |xs| == bound + bound * |xs[1..]|;
    }
  }

  lemma {:induction false} TotalZero<T>(weight: T -> nat, xs: seq<T>)
    requires forall i | 0 <= i < |xs| :: weight(xs[i]) == 0
    ensures Total(weight, xs) == 0
    decreases |xs|
  {
    if xs != [] {
      TotalZero(weight, xs[1..]);
    }
  }

  /** One weight below another gives one total below the other. */
  lemma {:induction false} TotalMonotone<T>(low: T -> nat, high: T -> nat, xs: seq<T>)
    requires forall i | 0 <= i < |xs| :: low(xs[i]) <= high(xs[i])
    ensures Total(low, xs) <= Total(high, xs)
    decreases |xs|
  {
    if xs != [] {
      TotalMonotone(low, high, xs[1..]);
    }
  }

  ghost predicate Distinct<T(!new)>(xs: seq<T>) {
    forall i, j | 0 <= i < j < |xs| :: xs[i] != xs[j]
  }

  ghost function Elements<T>(xs: seq<T>): set<T> {
    set x | x in xs
  }

  /** Without repetition, as many elements as positions. */
  lemma {:induction false} DistinctSize<T(!new)>(xs: seq<T>)
    requires Distinct(xs)
    ensures |Elements(xs)| == |xs|
    decreases |xs|
  {
    if xs != [] {
      var n := |xs| - 1;
      DistinctSize(xs[..n]);
      assert xs == xs[..n] + [xs[n]];
      assert Elements(xs) == Elements(xs[..n]) + {xs[n]};
      assert xs[n] !in xs[..n];
    }
  }

  /** Removing the elements of a shorter list from those of a longer one. */
  lemma DifferenceSize<T(!new)>(xs: seq<T>, ys: seq<T>)
    requires Distinct(xs) && Distinct(ys)
    requires Elements(ys) <= Elements(xs)
    ensures |Elements(xs) - Elements(ys)| == |xs| - |ys|
  {
    DistinctSize(xs);
    DistinctSize(ys);
  }

  function Below(n: nat): (r: set<nat>)
    ensures forall x: nat :: x in r <==> x < n
  {
    if n == 0 then {} else Below(n - 1) + {n - 1}
  }

  lemma {:induction false} BelowSize(n: nat)
    ensures |Below(n)| == n
  {
    if n > 0 {
      BelowSize(n - 1);
      assert Below(n) == Below(n - 1) + {n - 1};
    }
  }

  /** Without repetition, no more positions than possible elements. */
  lemma DistinctBelow(xs: seq<nat>, n: nat)
    requires Distinct(xs) && forall x | x in xs :: x < n
    ensures |xs| <= n
  {
    DistinctSize(xs);
    BelowSize(n);
    SubsetSize(Elements(xs), Below(n));
  }

  lemma SubsetSize<T>(a: set<T>, b: set<T>)
    requires a <= b
    ensures |a| <= |b|
  {
    assert b == a + (b - a);
  }
}
