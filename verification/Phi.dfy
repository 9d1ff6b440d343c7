/** The phi-accrual score and the per-worker state machine, as functions of the folded
    arrivals. The normal tail, the logarithm and the square root are parameters. */
module Phi {
  import opened Window

  /** Stand-ins for `math.Erfc`, `math.Log10`, `math.Sqrt` and the square root of two. */
  datatype Numerics = Numerics(erfc: real -> real, log10: real -> real, sqrt: real -> real, sqrt2: real)

  /** Range and monotonicity of the stand-ins. */
  ghost predicate NumericsOk(nm: Numerics) {
    && nm.sqrt2 > 0.0
    && (forall x :: 0.0 <= nm.erfc(x) <= 2.0)
    && (forall x, y :: x <= y ==> nm.erfc(y) <= nm.erfc(x))
    && (forall x :: 0.0 < x <= 1.0 ==> nm.log10(x) <= 0.0)
    && (forall x, y :: 0.0 < x <= y ==> nm.log10(x) <= nm.log10(y))
  }

  const MAX_PHI: real := 20.0
  const MIN_STD_DEV: real := 0.05

  datatype State = Alive | Suspect | Dead

  datatype Config = Config(windowSize: nat, phiSuspect: real, phiDead: real, nm: Numerics)

  /** What the detector keeps about one worker, with its window in arrival order. */
  datatype Entry = Entry(state: State, gaps: seq<real>, lastApplied: real)

  /** The standard deviation, but never less than the floor. */
  function StdDev(nm: Numerics, variance: real): (s: real)
    ensures s >= MIN_STD_DEV
  {
    var s := nm.sqrt(variance);
    if s < MIN_STD_DEV then MIN_STD_DEV else s
  }

  /** What the silence beyond the mean is measured in. */
  function Unit(nm: Numerics, variance: real): (d: real)
    requires nm.sqrt2 > 0.0
    ensures d > 0.0
  {
    PositiveProduct(StdDev(nm, variance), nm.sqrt2, StdDev(nm, variance) * nm.sqrt2);
    StdDev(nm, variance) * nm.sqrt2
  }

  /** The probability, under the fitted normal, that the next beat comes later than `t`. */
  function Tail(nm: Numerics, mean: real, variance: real, t: real): real
    requires nm.sqrt2 > 0.0
  {
    0.5 * nm.erfc((t - mean) / Unit(nm, variance))
  }

  /** The capped -log10 of a tail probability. */
  function Capped(nm: Numerics, pLater: real): real {
    if pLater <= 0.0 then MAX_PHI
    else if -nm.log10(pLater) > MAX_PHI then MAX_PHI
    else -nm.log10(pLater)
  }

  /** How anomalous the silence since `lastApplied` is at time `now`. */
  function Score(nm: Numerics, gaps: seq<real>, lastApplied: real, now: real): real
    requires nm.sqrt2 > 0.0
  {
    if |gaps| < 2 then 0.0 else Capped(nm, Tail(nm, Mean(gaps), Variance(gaps), now - lastApplied))
  }

  lemma CappedOk(nm: Numerics, p: real, q: real)
    requires NumericsOk(nm) && q <= p <= 1.0
    ensures 0.0 <= Capped(nm, p) <= Capped(nm, q) <= MAX_PHI
  {
  }

  lemma QuotientMonotone(x: real, y: real, d: real)
    requires x <= y && d > 0.0
    ensures x / d <= y / d
  {
  }

  lemma TailFalls(nm: Numerics, mean: real, variance: real, t: real, t': real)
    requires NumericsOk(nm) && t <= t'
    ensures Tail(nm, mean, variance, t') <= Tail(nm, mean, variance, t) <= 1.0
  {
    var d := Unit(nm, variance);
    QuotientMonotone(t - mean, t' - mean, d);
    assert nm.erfc((t' - mean) / d) <= nm.erfc((t - mean) / d) <= 2.0;
  }

  /** Suspicion never improves in silence: phi lies in [0, 20] and, for a fixed window, does
      not fall as time goes on. */
  lemma ScoreGrowsInSilence(nm: Numerics, gaps: seq<real>, lastApplied: real, now: real, later: real)
    requires NumericsOk(nm) && now <= later
    ensures 0.0 <= Score(nm, gaps, lastApplied, now) <= Score(nm, gaps, lastApplied, later) <= 20.0
  {
    if |gaps| >= 2 {
      var mean, variance := Mean(gaps), Variance(gaps);
      TailFalls(nm, mean, variance, now - lastApplied, later - lastApplied);
      CappedOk(nm, Tail(nm, mean, variance, now - lastApplied), Tail(nm, mean, variance, later - lastApplied));
    }
  }

  // ---------- how far suspicion climbs ----------

  ghost predicate LogReaches(nm: Numerics, bound: real) {
    exists x :: 0.0 < x <= 1.0 && nm.log10(x) <= bound
  }

  ghost predicate TailReaches(nm: Numerics, eps: real) {
    exists z :: nm.erfc(z) <= eps
  }

  /** The logarithm has no lower bound near zero, and the tail vanishes. */
  ghost predicate NumericsReach(nm: Numerics) {
    && (forall bound :: LogReaches(nm, bound))
    && (forall eps :: eps > 0.0 ==> TailReaches(nm, eps))
  }

  lemma QuotientAtLeast(t: real, z: real, d: real)
    requires d > 0.0 && t >= z * d
    ensures t / d >= z
  {
    DivideBack(z, d);
    QuotientMonotone(z * d, t, d);
  }

  lemma CappedReaches(nm: Numerics, x: real, p: real)
    requires NumericsOk(nm) && 0.0 < x <= 1.0 && nm.log10(x) <= -MAX_PHI && p <= x
    ensures Capped(nm, p) == MAX_PHI
  {
  }

  /** Long enough silence drives the score of a window with two samples to its cap. */
  lemma SilenceIsCertain(nm: Numerics, gaps: seq<real>, lastApplied: real) returns (certain: real)
    requires NumericsOk(nm) && NumericsReach(nm) && |gaps| >= 2
    ensures forall now :: now >= certain ==> Score(nm, gaps, lastApplied, now) == 20.0
  {
    assert LogReaches(nm, -MAX_PHI);
    var x :| 0.0 < x <= 1.0 && nm.log10(x) <= -MAX_PHI;
    assert TailReaches(nm, 2.0 * x);
    var z :| nm.erfc(z) <= 2.0 * x;
    var mean, variance := Mean(gaps), Variance(gaps);
    var d := Unit(nm, variance);
    certain := lastApplied + mean + z * d;
    forall now | now >= certain ensures Score(nm, gaps, lastApplied, now) == 20.0 {
      QuotientAtLeast(now - lastApplied - mean, z, d);
      assert nm.erfc((now - lastApplied - mean) / d) <= nm.erfc(z);
      CappedReaches(nm, x, Tail(nm, mean, variance, now - lastApplied));
    }
  }

  // ---------- one worker in one scan ----------

  /** A strictly advanced LastSeen is a fresh beat. */
  predicate Advanced(e: Entry, lastSeen: real) {
    lastSeen > e.lastApplied
  }

  function Fold(cfg: Config, e: Entry, lastSeen: real): Entry {
    if Advanced(e, lastSeen) then
      e.(gaps := LastOf(e.gaps + [lastSeen - e.lastApplied], cfg.windowSize), lastApplied := lastSeen)
    else e
  }

  /** The switch of the state machine. */
  function Advance(cfg: Config, s: State, phi: real): State {
    match s
    case Alive => if phi > cfg.phiDead then Dead else if phi > cfg.phiSuspect then Suspect else Alive
    case Suspect => if phi > cfg.phiDead then Dead else if phi <= cfg.phiSuspect then Alive else Suspect
    case Dead => Dead
  }

  function ScoreOf(cfg: Config, e: Entry, now: real): real
    requires cfg.nm.sqrt2 > 0.0
  {
    Score(cfg.nm, e.gaps, e.lastApplied, now)
  }

  /** Fold, score, advance: what a scan does with a worker it knows. */
  function Scored(cfg: Config, e: Entry, lastSeen: real, now: real): Entry
    requires cfg.nm.sqrt2 > 0.0
  {
    var f := Fold(cfg, e, lastSeen);
    f.(state := Advance(cfg, f.state, ScoreOf(cfg, f, now)))
  }

  /** A newcomer has no history; its first arrival only starts the clock. */
  function Born(lastSeen: real): Entry {
    Entry(Alive, [], lastSeen)
  }

  function Classify(cfg: Config, phi: real): State {
    if phi > cfg.phiDead then Dead else if phi > cfg.phiSuspect then Suspect else Alive
  }

  /** The state after a scan does not depend on the state before it, as long as no corpse
      is kept. */
  lemma AdvanceIsHistoryFree(cfg: Config, s: State, t: State, phi: real)
    requires s != Dead && t != Dead
    ensures Advance(cfg, s, phi) == Advance(cfg, t, phi) == Classify(cfg, phi)
  {
  }

  /** Whatever the rounding of the score, a worker with fewer than two samples dies in a
      scan if and only if the death threshold is negative. */
  lemma ColdDeathIff(cfg: Config, e: Entry, lastSeen: real, now: real)
    requires cfg.nm.sqrt2 > 0.0 && e.state != Dead && |Fold(cfg, e, lastSeen).gaps| < 2
    ensures Scored(cfg, e, lastSeen, now).state == Dead <==> cfg.phiDead < 0.0
  {
  }

  /** A SUSPECT worker returns to ALIVE only by a new arrival: with nothing to fold and time
      not running back, it stays suspect or dies. */
  lemma RecoveryNeedsArrival(cfg: Config, e: Entry, scanned: real, lastSeen: real, now: real)
    requires NumericsOk(cfg.nm) && scanned <= now
    requires e.state == Suspect && ScoreOf(cfg, e, scanned) > cfg.phiSuspect
    requires Scored(cfg, e, lastSeen, now).state == Alive
    ensures Advanced(e, lastSeen)
  {
    ScoreGrowsInSilence(cfg.nm, e.gaps, e.lastApplied, scanned, now);
  }
}
