/**
 * The array reductions the frontend applies to history columns:
 * `reduce((a, b) => a + b, 0)`, `Math.max(...xs)`, `Math.min(...xs)` and
 * `filter(Boolean).length`.
 */
module Aggregates {
  import opened Wrappers
  import opened Json

  /** `Math.abs(x)` / Python's `abs(x)`. */
  function Abs(x: real): real {
    if x < 0.0 then -x else x
  }

  /** `xs.reduce((a, b) => a + b, 0)`, a left fold: the last element is added last. */
  function Sum(xs: seq<real>): real {
    if xs == [] then 0.0 else Sum(xs[..|xs| - 1]) + xs[|xs| - 1]
  }

  /** `Math.max(...xs)` on a non-empty list. */
  function Max(xs: seq<real>): (m: real)
    requires |xs| > 0
    ensures m in xs
    ensures forall i :: 0 <= i < |xs| ==> xs[i] <= m
  {
    if |xs| == 1 then xs[0]
    else
      var m := Max(xs[..|xs| - 1]);
      assert forall i :: 0 <= i < |xs| - 1 ==> xs[..|xs| - 1][i] == xs[i];
      if xs[|xs| - 1] > m then xs[|xs| - 1] else m
  }

  /** `Math.min(...xs)` on a non-empty list. */
  function Min(xs: seq<real>): (m: real)
    requires |xs| > 0
    ensures m in xs
    ensures forall i :: 0 <= i < |xs| ==> m <= xs[i]
  {
    if |xs| == 1 then xs[0]
    else
      var m := Min(xs[..|xs| - 1]);
      assert forall i :: 0 <= i < |xs| - 1 ==> xs[..|xs| - 1][i] == xs[i];
      if xs[|xs| - 1] < m then xs[|xs| - 1] else m
  }

  /** `reduce(+, 0) / length`; `None` stands for the NaN that 0 / 0 gives. */
  function Mean(xs: seq<real>): Option<real> {
    if |xs| == 0 then None else Some(Sum(xs) / (|xs| as real))
  }

  /** `records.map(r => r[key] || 0)`. */
  function Column(records: seq<Record>, key: string): (c: seq<real>)
    ensures |c| == |records|
    ensures forall i :: 0 <= i < |records| ==> c[i] == NumOr0(records[i], key)
  {
    seq(|records|, i requires 0 <= i < |records| => NumOr0(records[i], key))
  }

  /** `bs.filter(Boolean).length`. */
  function CountTrue(bs: seq<bool>): (n: nat)
    ensures n <= |bs|
    ensures n == 0 <==> forall i :: 0 <= i < |bs| ==> !bs[i]
    ensures n == |bs| <==> forall i :: 0 <= i < |bs| ==> bs[i]
  {
    if bs == [] then 0
    else
      var n := CountTrue(bs[1..]);
      assert forall i :: 1 <= i < |bs| ==> bs[1..][i - 1] == bs[i];
      (if bs[0] then 1 else 0) + n
  }

  /** A sum of zeros is zero. */
  lemma {:induction false} SumOfZeros(xs: seq<real>)
    requires forall i :: 0 <= i < |xs| ==> xs[i] == 0.0
    ensures Sum(xs) == 0.0
  {
    if xs != [] {
      SumOfZeros(xs[..|xs| - 1]);
    }
  }

  /** A sum of values that are all at most `hi` is at most length times `hi`. */
  lemma {:induction false} SumAtMost(xs: seq<real>, hi: real)
    requires forall i :: 0 <= i < |xs| ==> xs[i] <= hi
    ensures Sum(xs) <= (|xs| as real) * hi
  {
    if xs != [] {
      var init := xs[..|xs| - 1];
      SumAtMost(init, hi);
      var k := |init| as real;
      assert (k + 1.0) * hi == k * hi + hi;
    }
  }

  /** A sum of values that are all at least `lo` is at least length times `lo`. */
  lemma {:induction false} SumAtLeast(xs: seq<real>, lo: real)
    requires forall i :: 0 <= i < |xs| ==> lo <= xs[i]
    ensures (|xs| as real) * lo <= Sum(xs)
  {
    if xs != [] {
      var init := xs[..|xs| - 1];
      SumAtLeast(init, lo);
      var k := |init| as real;
      assert (k + 1.0) * lo == k * lo + lo;
    }
  }

  /** The mean of a non-empty list of values in [lo, hi] lies in [lo, hi]. */
  lemma MeanWithin(xs: seq<real>, lo: real, hi: real)
    requires |xs| > 0
    requires forall i :: 0 <= i < |xs| ==> lo <= xs[i] <= hi
    ensures Mean(xs).Some? && lo <= Mean(xs).value <= hi
  {
    var n, s := |xs| as real, Sum(xs);
    assert s <= n * hi by { SumAtMost(xs, hi); }
    assert n * lo <= s by { SumAtLeast(xs, lo); }
    assert lo <= s / n <= hi by { DivideBounds(s, n, lo, hi); }
    assert Mean(xs) == Some(s / n);
  }

  /** The mean of a non-empty list lies between its minimum and its maximum. */
  lemma MeanBetween(xs: seq<real>)
    requires |xs| > 0
    ensures Mean(xs).Some? && Min(xs) <= Mean(xs).value <= Max(xs)
  {
    MeanWithin(xs, Min(xs), Max(xs));
  }

  lemma DivideBounds(s: real, n: real, lo: real, hi: real)
    requires n > 0.0
    requires n * lo <= s <= n * hi
    ensures lo <= s / n <= hi
  {
    assert lo == n * lo / n;
    assert hi == n * hi / n;
  }
}
