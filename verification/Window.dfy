/** The bounded inter-arrival history of the failure detector, and its statistics. Times
    and samples are reals. */
module Window {

  function Sum(xs: seq<real>): real {
    if xs == [] then 0.0 else Sum(xs[..|xs| - 1]) + xs[|xs| - 1]
  }

  function Square(x: real): real { x * x }

  /** The sum of squared deviations from `m`. */
  function Deviations(xs: seq<real>, m: real): real {
    if xs == [] then 0.0 else Deviations(xs[..|xs| - 1], m) + Square(xs[|xs| - 1] - m)
  }

  function Mean(xs: seq<real>): real
    requires xs != []
  {
    Sum(xs) / |xs| as real
  }

  /** Population variance. */
  function Variance(xs: seq<real>): real
    requires xs != []
  {
    Deviations(xs, Mean(xs)) / |xs| as real
  }

  /** The last `k` elements, or all of them when there are fewer. */
  function LastOf(xs: seq<real>, k: nat): (r: seq<real>)
    ensures |r| == if |xs| < k then |xs| else k
  {
    if |xs| <= k then xs else xs[|xs| - k..]
  }

  /** Keeping the last `k` after each sample is keeping the last `k` of all samples. */
  lemma LastOfAppend(xs: seq<real>, x: real, k: nat)
    requires k > 0
    ensures LastOf(LastOf(xs, k) + [x], k) == LastOf(xs + [x], k)
  {
  }

  // ---------- the statistics do not depend on storage order ----------

  lemma {:induction false} SumConcat(a: seq<real>, b: seq<real>)
    ensures Sum(a + b) == Sum(a) + Sum(b)
  {
    if b == [] {
      assert a + b == a;
    } else {
      assert (a + b)[..|a + b| - 1] == a + b[..|b| - 1];
      SumConcat(a, b[..|b| - 1]);
    }
  }

  lemma {:induction false} DeviationsConcat(a: seq<real>, b: seq<real>, m: real)
    ensures Deviations(a + b, m) == Deviations(a, m) + Deviations(b, m)
  {
    if b == [] {
      assert a + b == a;
    } else {
      assert (a + b)[..|a + b| - 1] == a + b[..|b| - 1];
      DeviationsConcat(a, b[..|b| - 1], m);
    }
  }

  /** A wrapped buffer holds the gaps rotated; mean and variance do not see it. */
  lemma StatisticsIgnoreRotation(a: seq<real>, b: seq<real>)
    requires a + b != []
    ensures Mean(a + b) == Mean(b + a) && Variance(a + b) == Variance(b + a)
  {
    SumConcat(a, b);
    SumConcat(b, a);
    DeviationsConcat(a, b, Mean(a + b));
    DeviationsConcat(b, a, Mean(a + b));
  }

  // ---------- what mean and variance mean ----------

  lemma {:induction false} DeviationsNonNegative(xs: seq<real>, m: real)
    ensures Deviations(xs, m) >= 0.0
    ensures Deviations(xs, m) == 0.0 <==> forall i: nat :: i < |xs| ==> xs[i] == m
  {
    if xs != [] {
      var rest, last := xs[..|xs| - 1], xs[|xs| - 1];
      DeviationsNonNegative(rest, m);
      SquareSign(last - m);
      assert forall i: nat :: i < |rest| ==> rest[i] == xs[i];
    }
  }

  lemma SquareSign(x: real)
    ensures Square(x) >= 0.0 && (Square(x) == 0.0 <==> x == 0.0)
  {
    assert Square(-x) == Square(x);
    if x < 0.0 {
      PositiveProduct(-x, -x, Square(-x));
    } else if x > 0.0 {
      PositiveProduct(x, x, Square(x));
    }
  }

  lemma PositiveProduct(x: real, y: real, p: real)
    requires p == x * y && x > 0.0 && y > 0.0
    ensures p > 0.0
  {
  }

  lemma DivideBack(a: real, n: real)
    requires n != 0.0
    ensures (a / n) * n == a && (a * n) / n == a
  {
  }

  lemma {:induction false} SumOfEqual(xs: seq<real>, v: real)
    requires forall i: nat :: i < |xs| ==> xs[i] == v
    ensures Sum(xs) == v * |xs| as real
  {
    if xs != [] { SumOfEqual(xs[..|xs| - 1], v); }
  }

  /** Variance is never negative, and zero exactly when all gaps are equal. */
  lemma VarianceZeroIff(xs: seq<real>)
    requires xs != []
    ensures Variance(xs) >= 0.0
    ensures Variance(xs) == 0.0 <==> forall i: nat, j: nat :: i < |xs| && j < |xs| ==> xs[i] == xs[j]
  {
    DeviationsNonNegative(xs, Mean(xs));
    if forall i: nat, j: nat :: i < |xs| && j < |xs| ==> xs[i] == xs[j] {
      SumOfEqual(xs, xs[0]);
      assert Mean(xs) == xs[0];
    }
  }

  // The cross terms and the squares of the mean, summed up term by term, so that no proof
  // about sequences has to multiply.

  function Scaled(xs: seq<real>, m: real): real {
    if xs == [] then 0.0 else Scaled(xs[..|xs| - 1], m) + m * xs[|xs| - 1]
  }

  function Times(c: real, n: nat): real {
    if n == 0 then 0.0 else Times(c, n - 1) + c
  }

  lemma SquareOfDifference(x: real, m: real)
    ensures Square(x - m) == Square(x - 0.0) - 2.0 * (m * x) + Square(m)
  {
  }

  lemma TimesSum(m: real, a: real, b: real)
    ensures m * (a + b) == m * a + m * b
  {
  }

  lemma {:induction false} ScaledIsProduct(xs: seq<real>, m: real, sum: real)
    requires sum == Sum(xs)
    ensures Scaled(xs, m) == m * sum
  {
    if xs != [] {
      var rest, x := xs[..|xs| - 1], xs[|xs| - 1];
      ScaledIsProduct(rest, m, sum - x);
      TimesSum(m, sum - x, x);
    }
  }

  lemma {:induction false} SquareTimes(m: real, n: nat)
    ensures m * Times(m, n) == Times(Square(m), n)
  {
    if n > 0 {
      SquareTimes(m, n - 1);
      TimesSum(m, Times(m, n - 1), m);
    }
  }

  lemma {:induction false} TimesIsProduct(c: real, n: nat)
    ensures Times(c, n) == c * n as real
  {
    if n > 0 {
      TimesIsProduct(c, n - 1);
      TimesSum(c, (n - 1) as real, 1.0);
    }
  }

  lemma {:induction false} DeviationsExpand(xs: seq<real>, m: real)
    ensures Deviations(xs, m) == Deviations(xs, 0.0) - 2.0 * Scaled(xs, m) + Times(Square(m), |xs|)
  {
    if xs != [] {
      DeviationsExpand(xs[..|xs| - 1], m);
      SquareOfDifference(xs[|xs| - 1], m);
    }
  }

  lemma SplitQuotient(a: real, b: real, n: real, q: real)
    requires n != 0.0 && q == a / n
    ensures (a - b * n) / n == q - b
  {
    assert q * n == a;
    assert (q - b) * n == a - b * n;
  }

  /** Around the mean the cross terms are as many squares of it. */
  lemma CrossTerms(xs: seq<real>, m: real)
    requires Sum(xs) == Times(m, |xs|)
    ensures Scaled(xs, m) == Times(Square(m), |xs|)
  {
    ScaledIsProduct(xs, m, Times(m, |xs|));
    SquareTimes(m, |xs|);
  }

  lemma QuotientOfTimes(d: real, d0: real, c: real, n: nat)
    requires n > 0 && d == d0 - Times(c, n)
    ensures d / n as real == d0 / n as real - c
  {
    TimesIsProduct(c, n);
    SplitQuotient(d0, c, n as real, d0 / n as real);
  }

  lemma MeanTimes(xs: seq<real>)
    requires xs != []
    ensures Sum(xs) == Times(Mean(xs), |xs|)
  {
    TimesIsProduct(Mean(xs), |xs|);
    DivideBack(Sum(xs), |xs| as real);
  }

  function SquaresOf(xs: seq<real>): (squares: seq<real>)
    ensures |squares| == |xs|
  {
    if xs == [] then [] else SquaresOf(xs[..|xs| - 1]) + [xs[|xs| - 1] * xs[|xs| - 1]]
  }

  lemma {:induction false} DeviationsFromZero(xs: seq<real>)
    ensures Deviations(xs, 0.0) == Sum(SquaresOf(xs))
  {
    if xs != [] {
      DeviationsFromZero(xs[..|xs| - 1]);
      assert SquaresOf(xs)[..|xs| - 1] == SquaresOf(xs[..|xs| - 1]);
    }
  }

  lemma VarianceFromZero(xs: seq<real>)
    requires xs != []
    ensures Variance(xs) == Deviations(xs, 0.0) / |xs| as real - Square(Mean(xs))
  {
    MeanTimes(xs);
    CrossTerms(xs, Mean(xs));
    DeviationsExpand(xs, Mean(xs));
    QuotientOfTimes(Deviations(xs, Mean(xs)), Deviations(xs, 0.0), Square(Mean(xs)), |xs|);
  }

  /** The two-pass form equals the one-pass form over the reals: mean of squares minus
      squared mean. */
  lemma VarianceIsMeanOfSquares(xs: seq<real>)
    requires xs != []
    ensures Variance(xs) == Sum(SquaresOf(xs)) / |xs| as real - Mean(xs) * Mean(xs)
  {
    VarianceFromZero(xs);
    DeviationsFromZero(xs);
  }

  // ---------- the ring buffer ----------

  /** The valid samples of a buffer in arrival order, oldest first. */
  function Unrolled(buf: seq<real>, head: nat, n: nat): (gaps: seq<real>)
    requires n <= |buf| && head <= |buf|
    ensures |gaps| == n
  {
    if n < |buf| then buf[..n] else buf[head..] + buf[..head]
  }

  /** The slot after `head`, wrapped around. */
  function After(head: nat, length: nat): nat {
    if head + 1 == length then 0 else head + 1
  }

  lemma WrapsAround(head: nat, length: nat)
    requires head < length
    ensures (head + 1) % length == After(head, length) < length
  {
    if head + 1 < length { assert (head + 1) % length == head + 1; }
  }

  lemma PushWhenFull(buf: seq<real>, head: nat, x: real)
    requires head < |buf|
    ensures Unrolled(buf[head := x], After(head, |buf|), |buf|) == (Unrolled(buf, head, |buf|) + [x])[1..]
  {
    var after := buf[head := x];
    var kept := buf[head + 1..] + buf[..head];
    assert (Unrolled(buf, head, |buf|) + [x])[1..] == kept + [x];
    if head + 1 == |buf| {
      assert after == buf[..head] + [x];
    } else {
      assert after[head + 1..] == buf[head + 1..] && after[..head + 1] == buf[..head] + [x];
    }
  }

  lemma PushWhileFilling(buf: seq<real>, n: nat, x: real)
    requires n < |buf|
    ensures Unrolled(buf[n := x], After(n, |buf|), n + 1) == Unrolled(buf, n, n) + [x]
  {
    assert buf[n := x][..n + 1] == buf[..n] + [x];
  }

  lemma PushUnrolled(buf: seq<real>, head: nat, n: nat, x: real)
    requires n <= |buf| && head < |buf| && (n < |buf| ==> head == n)
    ensures Unrolled(buf[head := x], After(head, |buf|), if n < |buf| then n + 1 else n)
            == LastOf(Unrolled(buf, head, n) + [x], |buf|)
  {
    if n < |buf| { PushWhileFilling(buf, n, x); } else { PushWhenFull(buf, head, x); }
  }

  /** `gaps` is the abstract value: the valid samples in arrival order, oldest first. */
  class SlidingWindow {
    const buf: array<real>
    var head: nat
    var n: nat
    ghost var gaps: seq<real>

    ghost predicate Valid()
      reads this, buf
    {
      && n <= buf.Length
      && (if n < buf.Length then head == n else head < buf.Length || head == 0)
      && gaps == Unrolled(buf[..], head, n)
    }

    constructor (capacity: nat)
      ensures Valid() && fresh(buf) && buf.Length == capacity && gaps == []
    {
      buf := new real[capacity](_ => 0.0);
      head, n, gaps := 0, 0, [];
    }

    /** A full window forgets its oldest sample for the new one. */
    method Push(sample: real)
      requires Valid() && buf.Length > 0
      modifies this, buf
      ensures Valid() && gaps == LastOf(old(gaps) + [sample], buf.Length)
    {
      ghost var stored, h, k := buf[..], head, n;
      WrapsAround(head, buf.Length);
      buf[head] := sample;
      head := (head + 1) % buf.Length;
      if n < buf.Length {
        n := n + 1;
      }
      gaps := LastOf(gaps + [sample], buf.Length);
      assert gaps == Unrolled(buf[..], head, n) by {
        PushUnrolled(stored, h, k, sample);
        assert buf[..] == stored[h := sample];
      }
    }

    method Count() returns (count: nat)
      requires Valid()
      ensures count == |gaps|
    {
      count := n;
    }

    /** The storage order is a rotation of the arrival order. */
    lemma StoredOrder()
      requires Valid() && n > 0
      ensures Mean(buf[..n]) == Mean(gaps) && Variance(buf[..n]) == Variance(gaps)
    {
      if n == buf.Length {
        assert buf[..n] == buf[..][..head] + buf[..][head..];
        StatisticsIgnoreRotation(buf[..][..head], buf[..][head..]);
      } else {
        assert buf[..n] == buf[..][..n];
      }
    }

    method ComputeMean() returns (m: real)
      requires Valid() && n > 0
      ensures m == Mean(gaps)
    {
      var sum := 0.0;
      for i := 0 to n
        invariant sum == Sum(buf[..i])
      {
        sum := sum + buf[i];
        assert buf[..i + 1][..i] == buf[..i];
      }
      StoredOrder();
      m := sum / n as real;
    }

    method ComputeVariance() returns (v: real)
      requires Valid() && n > 0
      ensures v == Variance(gaps)
    {
      var m := ComputeMean();
      var ss := 0.0;
      for i := 0 to n
        invariant ss == Deviations(buf[..i], m)
      {
        var d := buf[i] - m;
        ss := ss + d * d;
        assert buf[..i + 1][..i] == buf[..i];
      }
      StoredOrder();
      v := ss / n as real;
    }
  }
}
