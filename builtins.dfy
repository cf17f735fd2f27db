/** The Python builtins the report code relies on: `range`, `zip`, `max`,
    `min`, `sum` and the mean `sum(xs) / len(xs)`, on the numbers of Utils. */
module Builtins {
  import opened Wrappers
  import opened Utils

  /** `range(start, stop, step)` for a positive step. */
  function Range(start: int, stop: int, step: nat): (r: seq<int>)
    requires step > 0
    ensures |r| > 0 ==> r[0] == start
    ensures forall i :: 0 < i < |r| ==> r[i] == r[i - 1] + step
    ensures forall x :: x in r ==> start <= x < stop
    decreases stop - start
  {
    if start >= stop then [] else [start] + Range(start + step, stop, step)
  }

  /** A range that ends `n` steps after its start holds exactly `n` values,
      the i-th of them `start + i * step`. */
  lemma {:induction false} RangeSteps(start: int, n: nat, step: nat)
    requires step > 0
    ensures var r := Range(start, start + n * step, step);
      |r| == n && forall i :: 0 <= i < n ==> r[i] == start + i * step
    decreases n
  {
    if n > 0 {
      var r := Range(start, start + n * step, step);
      assert start + step + (n - 1) * step == start + n * step;
      RangeSteps(start + step, n - 1, step);
      var tail := Range(start + step, start + step + (n - 1) * step, step);
      assert r == [start] + tail;
      forall i | 0 < i < n ensures r[i] == start + i * step {
        assert r[i] == tail[i - 1] == start + step + (i - 1) * step;
      }
    }
  }

  /** `zip(a, b)`: pairs up to the shorter of the two. */
  function Zip<A, B>(a: seq<A>, b: seq<B>): (r: seq<(A, B)>)
    ensures |r| == if |a| <= |b| then |a| else |b|
    ensures forall i :: 0 <= i < |r| ==> r[i] == (a[i], b[i])
    decreases |a|
  {
    if a == [] || b == [] then [] else [(a[0], b[0])] + Zip(a[1..], b[1..])
  }

  /** `max(xs)`: the first largest element; ValueError on an empty list. */
  function Max(xs: seq<Num>): (r: Result<Num>)
    ensures r.Ok? <==> |xs| > 0
    ensures r.Ok? ==> r.value in xs && forall x :: x in xs ==> ToReal(x) <= ToReal(r.value)
    decreases |xs|
  {
    if |xs| == 0 then Err(ValueError)
    else if |xs| == 1 then Ok(xs[0])
    else
      var m := Max(xs[..|xs| - 1]).value;
      assert xs == xs[..|xs| - 1] + [xs[|xs| - 1]];
      Ok(if ToReal(xs[|xs| - 1]) > ToReal(m) then xs[|xs| - 1] else m)
  }

  /** `min(xs)`: the first smallest element; ValueError on an empty list. */
  function Min(xs: seq<Num>): (r: Result<Num>)
    ensures r.Ok? <==> |xs| > 0
    ensures r.Ok? ==> r.value in xs && forall x :: x in xs ==> ToReal(r.value) <= ToReal(x)
    decreases |xs|
  {
    if |xs| == 0 then Err(ValueError)
    else if |xs| == 1 then Ok(xs[0])
    else
      var m := Min(xs[..|xs| - 1]).value;
      assert xs == xs[..|xs| - 1] + [xs[|xs| - 1]];
      Ok(if ToReal(xs[|xs| - 1]) < ToReal(m) then xs[|xs| - 1] else m)
  }

  /** The value of `sum(xs)`. */
  function Sum(xs: seq<Num>): real
    decreases |xs|
  {
    if xs == [] then 0.0 else Sum(xs[..|xs| - 1]) + ToReal(xs[|xs| - 1])
  }

  /** `sum(xs)` of a list of ints. */
  function Total(xs: seq<int>): int
    decreases |xs|
  {
    if xs == [] then 0 else Total(xs[..|xs| - 1]) + xs[|xs| - 1]
  }

  /** `sum(xs) / len(xs)`; ZeroDivisionError on an empty list. */
  function Mean(xs: seq<Num>): (r: Result<real>)
    ensures r.Ok? <==> |xs| > 0
  {
    if |xs| == 0 then Err(ZeroDivisionError) else Ok(Sum(xs) / |xs| as real)
  }

  /** A sum of `n` values lies between `n` times the smallest and `n` times
      the largest. */
  lemma {:induction false} SumBounds(xs: seq<Num>, lo: real, hi: real)
    requires forall x :: x in xs ==> lo <= ToReal(x) <= hi
    ensures |xs| as real * lo <= Sum(xs) <= |xs| as real * hi
    decreases |xs|
  {
    if xs != [] {
      var init := xs[..|xs| - 1];
      assert forall x :: x in init ==> x in xs;
      SumBounds(init, lo, hi);
      assert xs[|xs| - 1] in xs;
      assert |xs| as real * lo == |init| as real * lo + lo;
      assert |xs| as real * hi == |init| as real * hi + hi;
    }
  }

  /** The mean of a non-empty list lies between its minimum and maximum. */
  lemma MeanBetween(xs: seq<Num>)
    requires |xs| > 0
    ensures ToReal(Min(xs).value) <= Mean(xs).value <= ToReal(Max(xs).value)
  {
    var lo, hi := ToReal(Min(xs).value), ToReal(Max(xs).value);
    SumBetween(xs, lo, hi);
    MeanWithin(xs, lo, hi);
  }

  lemma MeanWithin(xs: seq<Num>, lo: real, hi: real)
    requires |xs| > 0 && |xs| as real * lo <= Sum(xs) <= |xs| as real * hi
    ensures lo <= Mean(xs).value <= hi
  {
    DivideBounds(Sum(xs), |xs| as real, lo, hi);
  }

  lemma SumBetween(xs: seq<Num>, lo: real, hi: real)
    requires |xs| > 0 && lo == ToReal(Min(xs).value) && hi == ToReal(Max(xs).value)
    ensures |xs| as real * lo <= Sum(xs) <= |xs| as real * hi
  {
    SumBounds(xs, lo, hi);
  }

  lemma DivideBounds(s: real, n: real, lo: real, hi: real)
    requires n > 0.0 && n * lo <= s <= n * hi
    ensures lo <= s / n <= hi
  {
  }

  /** The total of a list of non-negative ints is at least each element. */
  lemma {:induction false} TotalBounds(xs: seq<int>, i: nat)
    requires forall x :: x in xs ==> x >= 0
    requires i < |xs|
    ensures xs[i] <= Total(xs)
    decreases |xs|
  {
    var init := xs[..|xs| - 1];
    assert forall x :: x in init ==> x in xs;
    if i < |xs| - 1 {
      TotalBounds(init, i);
      TotalNonNegative(init);
      assert xs[|xs| - 1] in xs;
    } else {
      TotalNonNegative(init);
    }
  }

  lemma {:induction false} TotalNonNegative(xs: seq<int>)
    requires forall x :: x in xs ==> x >= 0
    ensures Total(xs) >= 0
    decreases |xs|
  {
    if xs != [] {
      var init := xs[..|xs| - 1];
      assert forall x :: x in init ==> x in xs;
      TotalNonNegative(init);
      assert xs[|xs| - 1] in xs;
    }
  }
}
