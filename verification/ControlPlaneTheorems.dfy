/** Whole-run facts about the failure detector. */
module ControlPlaneTheorems {
  import opened Window
  import opened Phi
  import opened Registry
  import opened Scan
  import opened ControlPlane
  import opened ControlPlaneSafety

  lemma StartIsOk(cfg: Config)
    requires cfg.nm.sqrt2 > 0.0
    ensures PlaneInv(cfg, START)
  {
  }

  lemma RunIsOk(cfg: Config, ops: seq<Op>, p: Plane)
    requires ConfigOk(cfg) && PlaneRun(cfg, START, ops, p)
    ensures PlaneInv(cfg, p) && NoCorpse(p.entries)
  {
    StartIsOk(cfg);
    RunKeepsPlaneInv(cfg, START, ops, p);
    NoCorpseKept(cfg, p);
  }

  // ---------- death needs a fresh life ----------

  /** Worker `id` registers and is sighted, in this order, between two places of the log. */
  ghost predicate Reborn(log: seq<Event>, id: string, from: nat, to: nat) {
    exists a: nat, s: nat ::
      from < a < s < to <= |log| && log[a] == Registered(id) && log[s].Sighted? && log[s].id == id
  }

  /** Worker `id` registers, is sighted, and has two arrivals folded, in this order and at
      rising times, between two places of the log. */
  ghost predicate FreshLife(log: seq<Event>, id: string, from: nat, to: nat) {
    exists a: nat, s: nat, b: nat, c: nat :: from < a < s < b < c < to <= |log| && WarmUp(log, id, a, s, b, c)
  }

  predicate WarmUp(log: seq<Event>, id: string, a: nat, s: nat, b: nat, c: nat)
    requires a < |log| && s < |log| && b < |log| && c < |log|
  {
    && log[a] == Registered(id)
    && log[s].Sighted? && log[b].Folded? && log[c].Folded?
    && log[s].id == log[b].id == log[c].id == id
    && log[s].at < log[b].at < log[c].at
  }

  /** What a worker's life stands for: a registration after its last eviction, a sighting
      after that, and then the folds. */
  lemma {:induction false} LifeStandsFor(log: seq<Event>, id: string, from: nat)
    returns (a: nat, s: nat, b: nat, c: nat)
    requires from < |log| && log[from] == Evicted(id)
    ensures
      var life, at := LifeOf(log, id), Arrivals(log, id);
      && (life != Absent ==> from < a < |log| && log[a] == Registered(id))
      && (life.Watched? ==>
            && |at| == life.folds + 1 && a < s < |log| && log[s] == Sighted(id, at[0])
            && (life.folds >= 1 ==> s < b < |log| && log[b] == Folded(id, at[1]))
            && (life.folds >= 2 ==> b < c < |log| && log[c] == Folded(id, at[2])))
  {
    a, s, b, c := 0, 0, 0, 0;
    var n := |log| - 1;
    if from < n {
      a, s, b, c := LifeStandsFor(log[..n], id, from);
      if log[n].id == id {
        match log[n]
        case Registered(_) => if LifeOf(log[..n], id).Absent? { a := n; }
        case Sighted(_, _) => s := n;
        case Folded(_, _) =>
          if LifeOf(log[..n], id) == Watched(0) { b := n; }
          if LifeOf(log[..n], id) == Watched(1) { c := n; }
        case _ =>
      }
    }
  }

  /** Between two evictions of one worker it registers anew and is sighted anew; and, with a
      death threshold that is not negative, two strictly rising arrivals are folded after
      that sighting, whatever registry operations come between the phases of the scans. */
  lemma EvictionNeedsFreshLife(cfg: Config, ops: seq<Op>, p: Plane, id: string, i: nat, j: nat)
    requires ConfigOk(cfg) && PlaneRun(cfg, START, ops, p)
    requires i < j < |p.log| && p.log[i] == p.log[j] == Evicted(id)
    ensures Reborn(p.log, id, i, j)
    ensures cfg.phiDead >= 0.0 ==> FreshLife(p.log, id, i, j)
  {
    RunIsOk(cfg, ops, p);
    var log := p.log[..j];
    var a, s, b, c := LifeStandsFor(log, id, i);
    assert Matured(cfg, log, id);
    assert p.log[a] == log[a] && p.log[s] == log[s];
    if cfg.phiDead >= 0.0 {
      assert WarmUp(p.log, id, a, s, b, c);
    }
  }

  /** The eviction an event belongs to. */
  lemma {:induction false} EvictionBefore(log: seq<Event>, id: string) returns (e: nat)
    requires Pending(log) == [id]
    ensures e < |log| && log[e] == Evicted(id)
    ensures forall k: nat :: e < k < |log| ==> !log[k].Emitted?
  {
    var n := |log| - 1;
    e := n;
    if !log[n].Evicted? { e := EvictionBefore(log[..n], id); }
  }

  /** Death needs a fresh life: between two DeadEvents for the same worker lie the eviction
      of its first death, a later registration and sighting, and two folds after that. */
  lemma DeathNeedsFreshLife(cfg: Config, ops: seq<Op>, p: Plane, id: string, i: nat, j: nat) returns (e: nat)
    requires ConfigOk(cfg) && PlaneRun(cfg, START, ops, p)
    requires i < j < |p.log| && p.log[i] == p.log[j] == Emitted(id)
    ensures e < i && p.log[e] == Evicted(id) && Reborn(p.log, id, e, j)
    ensures cfg.phiDead >= 0.0 ==> FreshLife(p.log, id, e, j)
  {
    RunIsOk(cfg, ops, p);
    assert Pending(p.log[..i]) == [p.log[i].id] && Pending(p.log[..j]) == [p.log[j].id];
    e := EvictionBefore(p.log[..i], id);
    var e2 := EvictionBefore(p.log[..j], id);
    assert p.log[..j][i] == p.log[i];
    EvictionNeedsFreshLife(cfg, ops, p, id, e, e2);
    LivesWiden(p.log, id, e, e2, j);
  }

  lemma LivesWiden(log: seq<Event>, id: string, from: nat, to: nat, to': nat)
    requires to <= to' <= |log|
    ensures Reborn(log, id, from, to) ==> Reborn(log, id, from, to')
    ensures FreshLife(log, id, from, to) ==> FreshLife(log, id, from, to')
  {
  }

  // ---------- exactly when the death threshold protects newcomers ----------

  /** In no run does a verdict kill a worker with fewer than two arrivals folded since its
      first sighting. */
  ghost predicate NobodyDiesCold(cfg: Config)
    requires cfg.nm.sqrt2 > 0.0
  {
    forall ops, p, now, id :: DiesIn(cfg, ops, p, now, id) ==> |Arrivals(Judged(cfg, p, now).log, id)| >= 3
  }

  /** After the run `ops` a verdict at time `now` kills worker `id`. */
  ghost predicate DiesIn(cfg: Config, ops: seq<Op>, p: Plane, now: real, id: string)
    requires cfg.nm.sqrt2 > 0.0
  {
    && PlaneRun(cfg, START, ops, p) && p.stage.Snapped?
    && id in Judge(cfg, p.entries, p.stage.snapshot, now).deaths
  }

  /** The dead of a verdict have matured, and leave their folds in the log. */
  lemma DeathsMatured(cfg: Config, ops: seq<Op>, p: Plane, now: real, id: string)
    requires ConfigOk(cfg) && DiesIn(cfg, ops, p, now, id)
    ensures Matured(cfg, Judged(cfg, p, now).log, id)
    ensures cfg.phiDead >= 0.0 ==> |Arrivals(Judged(cfg, p, now).log, id)| >= 3
  {
    RunIsOk(cfg, ops, p);
    VerdictKeepsInv(cfg, p, now);
    WatchedArrivals(Judged(cfg, p, now).log, id);
  }

  const NEWCOMER := WorkerInfo("w", "", 0, 0.0, 0.0)

  lemma OneStep(cfg: Config, p: Plane, op: Op, ops: seq<Op>, p': Plane)
    requires cfg.nm.sqrt2 > 0.0 && CanDo(p, op) && PlaneRun(cfg, Do(cfg, p, op), ops, p')
    ensures PlaneRun(cfg, p, [op] + ops, p')
  {
    assert ([op] + ops)[1..] == ops;
  }

  lemma ScanOfOne(cfg: Config, entries: map<string, Entry>, w: WorkerInfo, now: real)
    requires cfg.nm.sqrt2 > 0.0
    ensures ScanAll(cfg, entries, [w], now) == ScanWorker(cfg, Progress(entries, []), w, now)
    ensures forall log: seq<Event> :: NotedAll(log, entries, [w]) == log + Noted(entries, w)
    ensures IdsOf([w]) == {w.id}
  {
    assert [w][..0] == [];
  }

  const KNOWN: map<string, Entry> := map["w" := Born(0.0)]

  const SIGHTED := Plane(map["w" := NEWCOMER], KNOWN, Idle, 0.0, [Registered("w"), Sighted("w", 0.0)])

  const RESIGHTED := SIGHTED.(stage := Snapped([NEWCOMER]))

  /** A worker registers, is sighted, and is in the snapshot of the next scan. */
  lemma SightingRun(cfg: Config)
    requires cfg.nm.sqrt2 > 0.0
    ensures exists ops :: PlaneRun(cfg, START, ops, RESIGHTED)
  {
    var p1 := Plane(map["w" := NEWCOMER], map[], Idle, 0.0, [Registered("w")]);
    var p2 := p1.(stage := Snapped([NEWCOMER]));
    FirstScan(cfg, p2, SIGHTED);
    assert IsSnapshot([NEWCOMER], p1.facts);
    assert Do(cfg, START, Register("w", "", 0, 0.0)) == p1;
    OneStep(cfg, SIGHTED, TakeSnapshot([NEWCOMER]), [], RESIGHTED);
    OneStep(cfg, p2, Verdict(0.0), [TakeSnapshot([NEWCOMER])], RESIGHTED);
    OneStep(cfg, p1, TakeSnapshot([NEWCOMER]), [Verdict(0.0)] + [TakeSnapshot([NEWCOMER])], RESIGHTED);
    OneStep(cfg, START, Register("w", "", 0, 0.0),
            [TakeSnapshot([NEWCOMER])] + ([Verdict(0.0)] + [TakeSnapshot([NEWCOMER])]), RESIGHTED);
  }

  lemma FirstScan(cfg: Config, p: Plane, p': Plane)
    requires cfg.nm.sqrt2 > 0.0 && p.stage == Snapped([NEWCOMER]) && p.entries == map[]
    requires p' == Plane(p.facts, map["w" := Born(0.0)], Idle, 0.0, p.log + [Sighted("w", 0.0)])
    ensures Judged(cfg, p, 0.0) == p'
  {
    ScanOfOne(cfg, p.entries, NEWCOMER, 0.0);
    assert ScanWorker(cfg, Progress(p.entries, []), NEWCOMER, 0.0) == Progress(map["w" := Born(0.0)], []);
    assert Reap(map["w" := Born(0.0)], {"w"}) == map["w" := Born(0.0)];
    assert NotedAll(p.log, p.entries, [NEWCOMER]) == p.log + [Sighted("w", 0.0)];
  }

  /** With a negative death threshold the second scan kills it on its first sighting alone. */
  lemma SecondScan(cfg: Config)
    requires cfg.nm.sqrt2 > 0.0 && cfg.phiDead < 0.0
    ensures "w" in Judge(cfg, RESIGHTED.entries, [NEWCOMER], 0.0).deaths
    ensures Arrivals(Judged(cfg, RESIGHTED, 0.0).log, "w") == [0.0]
  {
    ScanOfOne(cfg, RESIGHTED.entries, NEWCOMER, 0.0);
    ColdDeathIff(cfg, Born(0.0), 0.0, 0.0);
    assert NotedAll(RESIGHTED.log, RESIGHTED.entries, [NEWCOMER]) == RESIGHTED.log;
    assert RESIGHTED.log == [Registered("w")] + [Sighted("w", 0.0)];
    Append([Registered("w")], Sighted("w", 0.0), "w");
  }

  /** A warming-up worker is never declared dead, in any run and also after it was reaped and
      sighted afresh, if and only if the death threshold is not negative. */
  lemma ColdDeathExactly(cfg: Config)
    requires ConfigOk(cfg)
    ensures NobodyDiesCold(cfg) <==> cfg.phiDead >= 0.0
  {
    if cfg.phiDead >= 0.0 {
      forall ops, p, now, id | DiesIn(cfg, ops, p, now, id)
        ensures |Arrivals(Judged(cfg, p, now).log, id)| >= 3
      {
        DeathsMatured(cfg, ops, p, now, id);
      }
    } else {
      SightingRun(cfg);
      SecondScan(cfg);
      var ops :| PlaneRun(cfg, START, ops, RESIGHTED);
      assert DiesIn(cfg, ops, RESIGHTED, 0.0, "w");
    }
  }

  // ---------- exactly when silence kills ----------

  /** What the log will say of the worker's arrivals after the scan at hand; the time of the
      verdict does not matter for it. */
  function ArrivalsThen(p: Plane, id: string): seq<real>
    requires p.stage.Snapped?
  {
    Arrivals(NotedAll(p.log, p.entries, p.stage.snapshot), id)
  }

  lemma FoldedGaps(cfg: Config, p: Plane, w: WorkerInfo)
    requires ConfigOk(cfg) && PlaneInv(cfg, p) && p.stage.Snapped? && w in p.stage.snapshot && w.id in p.entries
    ensures |Fold(cfg, p.entries[w.id], w.lastSeen).gaps| >= 2 <==>
              cfg.windowSize >= 2 && |ArrivalsThen(p, w.id)| >= 3
  {
    var k: nat :| k < |p.stage.snapshot| && p.stage.snapshot[k] == w;
    NotesOn(cfg, p.log, p.entries, p.stage.snapshot, k);
    assert EntryOk(cfg, p, w.id);
    NotedTracks(cfg, p.log, NotedAll(p.log, p.entries, p.stage.snapshot), p.entries, w);
  }

  /** In every run, a known worker of the snapshot dies in the scan at hand if that scan comes
      late enough, if and only if the death threshold is negative, or is below the cap of the
      score, the window can hold two samples and two arrivals were folded since the first
      sighting. */
  lemma SilenceKills(cfg: Config, ops: seq<Op>, p: Plane, w: WorkerInfo)
    requires ConfigOk(cfg) && NumericsOk(cfg.nm) && NumericsReach(cfg.nm)
    requires PlaneRun(cfg, START, ops, p) && p.stage.Snapped? && w in p.stage.snapshot && w.id in p.entries
    ensures
      (exists from :: DiesFrom(cfg, p.entries, p.stage.snapshot, w.id, from))
      <==> cfg.phiDead < 0.0 || (cfg.phiDead < 20.0 && cfg.windowSize >= 2 && |ArrivalsThen(p, w.id)| >= 3)
  {
    RunIsOk(cfg, ops, p);
    FoldedGaps(cfg, p, w);
    SilenceKillsIff(cfg, p.entries, p.stage.snapshot, w);
  }

  /** With the death threshold at the cap or above, no verdict of any run kills anybody. */
  lemma NobodyDiesAboveCap(cfg: Config, ops: seq<Op>, p: Plane, now: real, id: string)
    requires ConfigOk(cfg) && NumericsOk(cfg.nm) && cfg.phiDead >= 20.0
    ensures !DiesIn(cfg, ops, p, now, id)
  {
    if DiesIn(cfg, ops, p, now, id) {
      RunIsOk(cfg, ops, p);
      DeathsAreDistinct(cfg, p.entries, p.stage.snapshot, now);
      var w :| w in p.stage.snapshot && w.id == id;
      DeathScores(cfg, p.entries, p.stage.snapshot, now, w);
      var f := Fold(cfg, p.entries[id], w.lastSeen);
      ScoreGrowsInSilence(cfg.nm, f.gaps, f.lastApplied, now, now);
    }
  }

  // ---------- the telescoping window ----------

  lemma {:induction false} TelescopeFrom(a: seq<real>, m: nat)
    requires m < |a|
    ensures Sum(Diffs(a)[m..]) == a[|a| - 1] - a[m]
  {
    var n := |a| - 1;
    if m < n {
      TelescopeFrom(a[..n], m);
      assert a == a[..n] + [a[n]];
      assert Diffs(a) == Diffs(a[..n]) + [a[n] - a[n - 1]];
      var gap := a[n] - a[n - 1];
      assert Diffs(a)[m..] == Diffs(a[..n])[m..] + [gap];
      SumOfOneMore(Diffs(a[..n])[m..], gap);
    }
  }

  lemma SumOfOneMore(xs: seq<real>, x: real)
    ensures Sum(xs + [x]) == Sum(xs) + x
  {
    assert (xs + [x])[..|xs|] == xs;
  }

  /** The window of `e` over the arrivals `a`: the last min(k, size) of the k gaps, all
      strictly positive, summing up to the time since the arrival folded that many folds
      earlier. */
  ghost predicate Telescopes(e: Entry, a: seq<real>, size: nat) {
    && a != [] && e.lastApplied == a[|a| - 1]
    && |e.gaps| == (if |a| - 1 < size then |a| - 1 else size)
    && AreLastGaps(e.gaps, a)
    && Sum(e.gaps) == Span(e, a)
  }

  /** The time between the last arrival and the one folded `|e.gaps|` folds before it. */
  function Span(e: Entry, a: seq<real>): real
    requires |e.gaps| < |a|
  {
    a[|a| - 1] - a[|a| - 1 - |e.gaps|]
  }

  /** Of the last `n` gaps of `a`, the `i`-th. */
  function GapAt(a: seq<real>, n: nat, i: nat): real
    requires n < |a| && i < n
  {
    a[|a| - n + i] - a[|a| - n + i - 1]
  }

  ghost predicate AreLastGaps(gaps: seq<real>, a: seq<real>)
    requires |gaps| < |a|
  {
    forall i: nat :: i < |gaps| ==> gaps[i] == GapAt(a, |gaps|, i) > 0.0
  }

  lemma LastGapsTelescope(e: Entry, a: seq<real>, size: nat)
    requires a != [] && Increasing(a) && e.lastApplied == a[|a| - 1] && e.gaps == LastOf(Diffs(a), size)
    ensures Telescopes(e, a, size)
  {
    LastGaps(a, size, e.gaps);
    SumOfLastGaps(a, size, e.gaps);
  }

  lemma SumOfLastGaps(a: seq<real>, size: nat, gaps: seq<real>)
    requires a != [] && gaps == LastOf(Diffs(a), size)
    ensures |gaps| < |a| && Sum(gaps) == a[|a| - 1] - a[|a| - 1 - |gaps|]
  {
    var from := |a| - 1 - |gaps|;
    TelescopeFrom(a, from);
    assert gaps == Diffs(a)[from..];
  }

  lemma LastGaps(a: seq<real>, size: nat, gaps: seq<real>)
    requires a != [] && Increasing(a) && gaps == LastOf(Diffs(a), size)
    ensures |gaps| == (if |a| - 1 < size then |a| - 1 else size) && AreLastGaps(gaps, a)
  {
    var from := |a| - 1 - |gaps|;
    assert gaps == Diffs(a)[from..];
    forall i: nat | i < |gaps| ensures gaps[i] == GapAt(a, |gaps|, i) > 0.0 {
      OneGap(a, |gaps|, i);
    }
  }

  lemma OneGap(a: seq<real>, n: nat, i: nat)
    requires Increasing(a) && i < n < |a|
    ensures Diffs(a)[|a| - 1 - n..][i] == GapAt(a, n, i) > 0.0
  {
    assert Diffs(a)[|a| - 1 - n..][i] == Diffs(a)[|a| - 1 - n + i];
  }

  lemma MeanIsSpan(e: Entry, a: seq<real>, size: nat)
    requires Telescopes(e, a, size) && e.gaps != []
    ensures Mean(e.gaps) == Span(e, a) / |e.gaps| as real
  {
  }

  lemma KnownTelescopes(cfg: Config, ops: seq<Op>, p: Plane, id: string)
    requires ConfigOk(cfg) && PlaneRun(cfg, START, ops, p) && id in p.entries
    ensures Telescopes(p.entries[id], Arrivals(p.log, id), cfg.windowSize)
  {
    RunIsOk(cfg, ops, p);
    assert EntryOk(cfg, p, id);
    LastGapsTelescope(p.entries[id], Arrivals(p.log, id), cfg.windowSize);
  }

  /** Telescoping window: in every run, the buffer of a known worker holds exactly the last
      gaps between its arrivals since first sighting, and its mean is their span over the
      count. */
  lemma WindowTelescopes(cfg: Config, ops: seq<Op>, p: Plane, id: string)
    requires ConfigOk(cfg) && PlaneRun(cfg, START, ops, p) && id in p.entries
    ensures
      var e, a := p.entries[id], Arrivals(p.log, id);
      && Telescopes(e, a, cfg.windowSize)
      && (e.gaps != [] ==> Mean(e.gaps) == Span(e, a) / |e.gaps| as real)
  {
    KnownTelescopes(cfg, ops, p, id);
    if p.entries[id].gaps != [] { MeanIsSpan(p.entries[id], Arrivals(p.log, id), cfg.windowSize); }
  }

  // ---------- suspicion does not improve in silence ----------

  /** Over scans at times that do not run back, a SUSPECT worker is ALIVE after a scan only
      if that scan folded a new arrival of it. */
  lemma RecoveryFoldsArrival(cfg: Config, ops: seq<Op>, p: Plane, now: real, id: string) returns (at: real)
    requires ConfigOk(cfg) && NumericsOk(cfg.nm) && PlaneRun(cfg, START, ops, p)
    requires CanDo(p, Verdict(now)) && p.scanned <= now
    requires id in p.entries && p.entries[id].state == Suspect
    requires var p' := Do(cfg, p, Verdict(now)); id in p'.entries && p'.entries[id].state == Alive
    ensures at > p.entries[id].lastApplied && Do(cfg, p, Verdict(now)).entries[id].lastApplied == at
    ensures Arrivals(Do(cfg, p, Verdict(now)).log, id) == Arrivals(p.log, id) + [at]
  {
    RunIsOk(cfg, ops, p);
    assert EntryOk(cfg, p, id);
    var snapshot := p.stage.snapshot;
    var k: nat :| k < |snapshot| && snapshot[k].id == id;
    RecoveredFolds(cfg, p.entries, snapshot, now, p.scanned, k);
    NotesOn(cfg, p.log, p.entries, snapshot, k);
    at := snapshot[k].lastSeen;
  }

  // ---------- an undisturbed scan is one of the runs ----------

  /** What phase 3 adds to the log. */
  function Burials(deaths: seq<string>): seq<Event> {
    if deaths == [] then [] else [Evicted(deaths[0]), Emitted(deaths[0])] + Burials(deaths[1..])
  }

  lemma {:induction false} BurialRun(cfg: Config, p: Plane, deaths: seq<string>) returns (ops: seq<Op>, p': Plane)
    requires cfg.nm.sqrt2 > 0.0 && p.stage == NextStage(deaths)
    ensures PlaneRun(cfg, p, ops, p')
    ensures p' == p.(facts := p.facts - SetOf(deaths), stage := Idle, log := p.log + Burials(deaths))
    decreases |deaths|
  {
    if deaths == [] {
      ops, p' := [], p;
      assert p.facts - SetOf([]) == p.facts;
    } else {
      var p1 := Do(cfg, p, Evict);
      var p2 := Do(cfg, p1, Emit);
      ops, p' := BurialRun(cfg, p2, deaths[1..]);
      OneStep(cfg, p1, Emit, ops, p');
      OneStep(cfg, p, Evict, [Emit] + ops, p');
      ops := [Evict] + ([Emit] + ops);
      assert SetOf(deaths) == {deaths[0]} + SetOf(deaths[1..]);
      assert p.facts - {deaths[0]} - SetOf(deaths[1..]) == p.facts - SetOf(deaths);
      assert p.log + Burials(deaths) == p2.log + Burials(deaths[1..]);
    }
  }

  /** What `ScanOnce` does in one go, with no registry operation in between, is a run of the
      step system, so all that holds for its runs holds for it. */
  lemma ScanIsRun(cfg: Config, p: Plane, snapshot: seq<WorkerInfo>, now: real) returns (ops: seq<Op>, p': Plane)
    requires cfg.nm.sqrt2 > 0.0 && p.stage.Idle? && IsSnapshot(snapshot, p.facts)
    ensures PlaneRun(cfg, p, ops, p') && p'.stage.Idle?
    ensures
      var j := Judge(cfg, p.entries, snapshot, now);
      && p'.entries == j.entries
      && p'.facts == p.facts - SetOf(j.deaths)
      && p'.log == NotedAll(p.log, p.entries, snapshot) + Burials(j.deaths)
  {
    var p1 := Do(cfg, p, TakeSnapshot(snapshot));
    var p2 := Do(cfg, p1, Verdict(now));
    ops, p' := BurialRun(cfg, p2, Judge(cfg, p.entries, snapshot, now).deaths);
    OneStep(cfg, p1, Verdict(now), ops, p');
    OneStep(cfg, p, TakeSnapshot(snapshot), [Verdict(now)] + ops, p');
    ops := [TakeSnapshot(snapshot)] + ([Verdict(now)] + ops);
  }
}
