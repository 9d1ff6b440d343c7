/** What the suspicion score depends on: the silence measured from the mean of the gaps, in
    spreads, and nothing else. */
module Suspicion {
  import opened Window
  import opened Phi

  // ---------- the score in standard form ----------

  lemma QuotientIs(t: real, z: real, d: real)
    requires d > 0.0 && t == z * d
    ensures t / d == z
  {
    DivideBack(z, d);
  }

  /** The spread of a window: the standard deviation, but at least 0.05 seconds. */
  predicate IsSpread(nm: Numerics, gaps: seq<real>, spread: real)
    requires gaps != []
  {
    var deviation := nm.sqrt(Variance(gaps));
    (spread == deviation && deviation >= 0.05) || (spread == 0.05 && deviation <= 0.05)
  }

  lemma TailByQuotient(nm: Numerics, mean: real, variance: real, t: real, z: real)
    requires nm.sqrt2 > 0.0 && z == (t - mean) / Unit(nm, variance)
    ensures Tail(nm, mean, variance, t) == 0.5 * nm.erfc(z)
  {
  }

  lemma UnitIs(nm: Numerics, gaps: seq<real>, spread: real)
    requires nm.sqrt2 > 0.0 && gaps != [] && IsSpread(nm, gaps, spread)
    ensures Unit(nm, Variance(gaps)) == spread * nm.sqrt2
  {
    assert StdDev(nm, Variance(gaps)) == spread;
  }

  /** A silence of `z` spreads times the square root of two beyond the mean scores -log10 of
      half of erfc(z), and 20 at most. Every silence has this form. */
  lemma ScoreInSpreads(nm: Numerics, gaps: seq<real>, lastApplied: real, now: real, spread: real, d: real, z: real)
    requires nm.sqrt2 > 0.0 && |gaps| >= 2 && IsSpread(nm, gaps, spread) && d == spread * nm.sqrt2
    requires now - lastApplied - Mean(gaps) == z * d
    ensures
      var p := 0.5 * nm.erfc(z);
      Score(nm, gaps, lastApplied, now)
      == if p <= 0.0 then 20.0 else if -nm.log10(p) > 20.0 then 20.0 else -nm.log10(p)
  {
    UnitIs(nm, gaps, spread);
    QuotientIs(now - lastApplied - Mean(gaps), z, Unit(nm, Variance(gaps)));
    TailByQuotient(nm, Mean(gaps), Variance(gaps), now - lastApplied, z);
  }

  lemma SpreadOf(nm: Numerics, gaps: seq<real>, t: real) returns (spread: real, d: real, z: real)
    requires nm.sqrt2 > 0.0 && |gaps| >= 2
    ensures IsSpread(nm, gaps, spread) && d == spread * nm.sqrt2 && t == z * d
  {
    spread, d := StdDev(nm, Variance(gaps)), Unit(nm, Variance(gaps));
    z := t / d;
    DivideBack(t, d);
  }

  /** A worker that beats exactly on its mean is scored by the middle of the distribution. */
  lemma ScoreOnSchedule(nm: Numerics, gaps: seq<real>, lastApplied: real, now: real)
    requires nm.sqrt2 > 0.0 && |gaps| >= 2 && now - lastApplied == Mean(gaps)
    ensures
      var p := 0.5 * nm.erfc(0.0);
      Score(nm, gaps, lastApplied, now)
      == if p <= 0.0 then 20.0 else if -nm.log10(p) > 20.0 then 20.0 else -nm.log10(p)
  {
    var spread, d, z := SpreadOf(nm, gaps, 0.0);
    ScoreInSpreads(nm, gaps, lastApplied, now, spread, d, 0.0);
  }

  /** A perfectly regular worker is given 0.05 seconds of spread. */
  lemma ScoreOfRegular(nm: Numerics, gaps: seq<real>, gap: real, lastApplied: real, d: real, z: real)
    requires nm.sqrt2 > 0.0 && nm.sqrt(0.0) == 0.0 && |gaps| >= 2 && d == 0.05 * nm.sqrt2
    requires forall i: nat :: i < |gaps| ==> gaps[i] == gap
    ensures
      var p := 0.5 * nm.erfc(z);
      Score(nm, gaps, lastApplied, lastApplied + gap + z * d)
      == if p <= 0.0 then 20.0 else if -nm.log10(p) > 20.0 then 20.0 else -nm.log10(p)
  {
    VarianceZeroIff(gaps);
    MeanOfEqual(gaps, gap);
    ScoreInSpreads(nm, gaps, lastApplied, lastApplied + gap + z * d, 0.05, d, z);
  }

  lemma MeanOfEqual(gaps: seq<real>, gap: real)
    requires gaps != [] && forall i: nat :: i < |gaps| ==> gaps[i] == gap
    ensures Mean(gaps) == gap
  {
    SumOfEqual(gaps, gap);
    DivideBack(gap, |gaps| as real);
  }

  // ---------- shifting ----------

  function Shifted(xs: seq<real>, d: real): (ys: seq<real>)
    ensures |ys| == |xs| && forall i: nat :: i < |xs| ==> ys[i] == xs[i] + d
  {
    seq(|xs|, i requires 0 <= i < |xs| => xs[i] + d)
  }

  lemma {:induction false} SumShifted(xs: seq<real>, d: real)
    ensures Sum(Shifted(xs, d)) == Sum(xs) + Times(d, |xs|)
  {
    if xs != [] {
      SumShifted(xs[..|xs| - 1], d);
      assert Shifted(xs, d)[..|xs| - 1] == Shifted(xs[..|xs| - 1], d);
    }
  }

  lemma {:induction false} DeviationsShifted(xs: seq<real>, d: real, m: real)
    ensures Deviations(Shifted(xs, d), m + d) == Deviations(xs, m)
  {
    if xs != [] {
      DeviationsShifted(xs[..|xs| - 1], d, m);
      assert Shifted(xs, d)[..|xs| - 1] == Shifted(xs[..|xs| - 1], d);
      assert xs[|xs| - 1] + d - (m + d) == xs[|xs| - 1] - m;
    }
  }

  lemma QuotientOfSum(a: real, b: real, n: real)
    requires n != 0.0
    ensures (a + b * n) / n == a / n + b
  {
    DivideBack(a, n);
    DivideBack(a / n + b, n);
    assert (a / n + b) * n == a / n * n + b * n;
  }

  lemma MeanShifted(xs: seq<real>, d: real)
    requires xs != []
    ensures Mean(Shifted(xs, d)) == Mean(xs) + d && Variance(Shifted(xs, d)) == Variance(xs)
  {
    SumShifted(xs, d);
    TimesIsProduct(d, |xs|);
    QuotientOfSum(Sum(xs), d, |xs| as real);
    DeviationsShifted(xs, d, Mean(xs));
  }

  /** One amount more in every gap and in the silence leaves the score as it was. */
  lemma ScoreIgnoresShift(nm: Numerics, gaps: seq<real>, d: real, lastApplied: real, now: real)
    requires nm.sqrt2 > 0.0
    ensures Score(nm, Shifted(gaps, d), lastApplied, now + d) == Score(nm, gaps, lastApplied, now)
  {
    if |gaps| >= 2 {
      MeanShifted(gaps, d);
      var spread, unit, z := SpreadOf(nm, gaps, now - lastApplied - Mean(gaps));
      ScoreInSpreads(nm, gaps, lastApplied, now, spread, unit, z);
      ScoreInSpreads(nm, Shifted(gaps, d), lastApplied, now + d, spread, unit, z);
    }
  }

  // ---------- stretching ----------

  function Product(x: real, y: real): real { x * y }

  function Stretched(xs: seq<real>, c: real): (ys: seq<real>)
    ensures |ys| == |xs|
  {
    if xs == [] then [] else Stretched(xs[..|xs| - 1], c) + [Product(c, xs[|xs| - 1])]
  }

  lemma StretchedOfMore(xs: seq<real>, x: real, c: real)
    ensures Stretched(xs + [x], c) == Stretched(xs, c) + [Product(c, x)]
  {
    assert (xs + [x])[..|xs|] == xs;
  }

  lemma SumOfMore(xs: seq<real>, x: real)
    ensures Sum(xs + [x]) == Sum(xs) + x
  {
    assert (xs + [x])[..|xs|] == xs;
  }

  lemma ProductOfSum(c: real, before: real, x: real, sum: real)
    requires before == Product(c, sum - x)
    ensures before + Product(c, x) == Product(c, sum)
  {
  }

  lemma {:induction false} SumStretched(xs: seq<real>, c: real)
    ensures Sum(Stretched(xs, c)) == Product(c, Sum(xs))
  {
    if xs != [] {
      var rest, x := xs[..|xs| - 1], xs[|xs| - 1];
      SumStretched(rest, c);
      assert xs == rest + [x];
      StretchedOfMore(rest, x, c);
      SumOfMore(Stretched(rest, c), Product(c, x));
      ProductOfSum(c, Sum(Stretched(rest, c)), x, Sum(xs));
    }
  }

  lemma SquareOfProduct(c: real, x: real, m: real, cm: real, cc: real)
    requires cm == Product(c, m) && cc == Product(c, c)
    ensures Square(Product(c, x) - cm) == Product(cc, Square(x - m))
  {
    assert c * x - cm == c * (x - m);
    assert Square(c * (x - m)) == c * c * Square(x - m);
  }

  /** The squared deviations from `m`, one by one. */
  function Terms(xs: seq<real>, m: real): (terms: seq<real>)
    ensures |terms| == |xs|
  {
    if xs == [] then [] else Terms(xs[..|xs| - 1], m) + [Square(xs[|xs| - 1] - m)]
  }

  lemma {:induction false} SumOfTerms(xs: seq<real>, m: real)
    ensures Deviations(xs, m) == Sum(Terms(xs, m))
  {
    if xs != [] { SumOfTerms(xs[..|xs| - 1], m); }
  }

  lemma TermsOfMore(xs: seq<real>, x: real, m: real)
    ensures Terms(xs + [x], m) == Terms(xs, m) + [Square(x - m)]
  {
    assert (xs + [x])[..|xs|] == xs;
  }

  lemma {:induction false} TermsStretched(xs: seq<real>, c: real, m: real, cm: real, cc: real)
    requires cm == Product(c, m) && cc == Product(c, c)
    ensures Terms(Stretched(xs, c), cm) == Stretched(Terms(xs, m), cc)
  {
    if xs != [] {
      var rest, x := xs[..|xs| - 1], xs[|xs| - 1];
      TermsStretched(rest, c, m, cm, cc);
      assert xs == rest + [x];
      StretchedOfMore(rest, x, c);
      TermsOfMore(Stretched(rest, c), Product(c, x), cm);
      TermsOfMore(rest, x, m);
      SquareOfProduct(c, x, m, cm, cc);
      StretchedOfMore(Terms(rest, m), Square(x - m), cc);
    }
  }

  lemma DeviationsStretched(xs: seq<real>, c: real, m: real, cm: real, cc: real)
    requires cm == Product(c, m) && cc == Product(c, c)
    ensures Deviations(Stretched(xs, c), cm) == Product(cc, Deviations(xs, m))
  {
    SumOfTerms(xs, m);
    SumOfTerms(Stretched(xs, c), cm);
    TermsStretched(xs, c, m, cm, cc);
    SumStretched(Terms(xs, m), cc);
  }

  lemma QuotientStretched(c: real, a: real, n: real, q: real, p: real, q': real)
    requires n != 0.0 && q == a / n && p == Product(c, a) && q' == p / n
    ensures q' == Product(c, q)
  {
    assert q * n == a;
    assert c * q * n == p;
  }

  lemma MeanStretched(xs: seq<real>, c: real)
    requires xs != []
    ensures Mean(Stretched(xs, c)) == Product(c, Mean(xs))
  {
    SumStretched(xs, c);
    QuotientStretched(c, Sum(xs), |xs| as real, Mean(xs), Sum(Stretched(xs, c)), Mean(Stretched(xs, c)));
  }

  lemma VarianceStretched(xs: seq<real>, c: real, cc: real)
    requires xs != [] && cc == Product(c, c)
    ensures Variance(Stretched(xs, c)) == Product(cc, Variance(xs))
  {
    var m, cm := Mean(xs), Mean(Stretched(xs, c));
    MeanStretched(xs, c);
    DeviationsStretched(xs, c, m, cm, cc);
    QuotientStretched(cc, Deviations(xs, m), |xs| as real, Variance(xs),
                      Deviations(Stretched(xs, c), cm), Variance(Stretched(xs, c)));
  }

  lemma SameSpreads(c: real, t: real, d: real, z: real, t': real, d': real)
    requires t == z * d && t' == Product(c, t) && d' == Product(c, d)
    ensures t' == z * d'
  {
    assert c * (z * d) == z * (c * d);
  }

  lemma StretchUnit(c: real, spread: real, cspread: real, sqrt2: real)
    requires cspread == Product(c, spread)
    ensures cspread * sqrt2 == Product(c, spread * sqrt2)
  {
  }

  lemma SpreadsOf(t: real, d: real) returns (z: real)
    requires d > 0.0
    ensures t == z * d
  {
    z := t / d;
    DivideBack(t, d);
  }

  /** Two windows see the same number of spreads. */
  lemma EqualScores(nm: Numerics, gaps: seq<real>, gaps': seq<real>, lastApplied: real, now: real, now': real,
                    spread: real, spread': real, z: real)
    requires nm.sqrt2 > 0.0 && |gaps| >= 2 && |gaps'| >= 2
    requires IsSpread(nm, gaps, spread) && IsSpread(nm, gaps', spread')
    requires now - lastApplied - Mean(gaps) == z * (spread * nm.sqrt2)
    requires now' - lastApplied - Mean(gaps') == z * (spread' * nm.sqrt2)
    ensures Score(nm, gaps', lastApplied, now') == Score(nm, gaps, lastApplied, now)
  {
    ScoreInSpreads(nm, gaps, lastApplied, now, spread, spread * nm.sqrt2, z);
    ScoreInSpreads(nm, gaps', lastApplied, now', spread', spread' * nm.sqrt2, z);
  }

  /** The stretched window has the stretched spread. */
  lemma SpreadStretched(nm: Numerics, gaps: seq<real>, c: real, cc: real, v: real, cspread: real)
    requires gaps != [] && cc == Product(c, c) && v == Product(cc, Variance(gaps))
    requires nm.sqrt(v) == cspread >= 0.05
    ensures IsSpread(nm, Stretched(gaps, c), cspread)
  {
    VarianceStretched(gaps, c, cc);
  }

  /** One factor `c` on all gaps and on the silence leaves the score as it was, while the spread
      stays above its floor and the square root takes the factor out: `v` is the variance of
      the stretched window, and `cspread` the stretched spread. */
  lemma ScoreIgnoresStretch(nm: Numerics, gaps: seq<real>, c: real, v: real, spread: real, cspread: real,
                            lastApplied: real, now: real, now': real)
    requires nm.sqrt2 > 0.0 && |gaps| >= 2
    requires now' - lastApplied == Product(c, now - lastApplied)
    requires v == Product(Product(c, c), Variance(gaps)) && cspread == Product(c, spread)
    requires nm.sqrt(Variance(gaps)) == spread >= 0.05 && nm.sqrt(v) == cspread >= 0.05
    ensures Score(nm, Stretched(gaps, c), lastApplied, now') == Score(nm, gaps, lastApplied, now)
  {
    SpreadStretched(nm, gaps, c, Product(c, c), v, cspread);
    var z := SameCount(gaps, c, now - lastApplied, now' - lastApplied, spread, cspread, nm.sqrt2);
    EqualScores(nm, gaps, Stretched(gaps, c), lastApplied, now, now', spread, cspread, z);
  }

  /** Both silences are the same number of spreads beyond their means. */
  lemma SameCount(gaps: seq<real>, c: real, silence: real, silence': real, spread: real, cspread: real, sqrt2: real)
    returns (z: real)
    requires gaps != [] && sqrt2 > 0.0 && spread >= 0.05
    requires silence' == Product(c, silence) && cspread == Product(c, spread)
    ensures silence - Mean(gaps) == z * (spread * sqrt2)
    ensures silence' - Mean(Stretched(gaps, c)) == z * (cspread * sqrt2)
  {
    PositiveProduct(spread, sqrt2, spread * sqrt2);
    z := SpreadsOf(silence - Mean(gaps), spread * sqrt2);
    StretchedSilence(gaps, c, silence, silence', silence - Mean(gaps));
    StretchUnit(c, spread, cspread, sqrt2);
    SameSpreads(c, silence - Mean(gaps), spread * sqrt2, z, silence' - Mean(Stretched(gaps, c)), cspread * sqrt2);
  }

  lemma StretchedSilence(gaps: seq<real>, c: real, silence: real, silence': real, t: real)
    requires gaps != [] && silence' == Product(c, silence) && t == silence - Mean(gaps)
    ensures silence' - Mean(Stretched(gaps, c)) == Product(c, t)
  {
    MeanStretched(gaps, c);
    ProductOfSum(c, Product(c, t), Mean(gaps), silence);
  }
}
