/** One scan of the detector over a snapshot of the registry, as a function on values. */
module Scan {
  import opened Phi
  import opened Registry

  /** Entries so far, and the ids declared dead so far, in scan order. */
  datatype Progress = Progress(entries: map<string, Entry>, deaths: seq<string>)

  /** One turn of the loop: first sighting, or fold, score and advance; a worker entering
      DEAD is recorded and its entry dropped. */
  function ScanWorker(cfg: Config, p: Progress, w: WorkerInfo, now: real): Progress
    requires cfg.nm.sqrt2 > 0.0
  {
    if w.id !in p.entries then p.(entries := p.entries[w.id := Born(w.lastSeen)])
    else
      var e := Scored(cfg, p.entries[w.id], w.lastSeen, now);
      if e.state == Dead then Progress(p.entries - {w.id}, p.deaths + [w.id])
      else p.(entries := p.entries[w.id := e])
  }

  function ScanAll(cfg: Config, entries: map<string, Entry>, snapshot: seq<WorkerInfo>, now: real): Progress
    requires cfg.nm.sqrt2 > 0.0
  {
    if snapshot == [] then Progress(entries, [])
    else ScanWorker(cfg, ScanAll(cfg, entries, snapshot[..|snapshot| - 1], now), snapshot[|snapshot| - 1], now)
  }

  /** Drops the entries of workers that are gone from the registry. */
  function Reap(entries: map<string, Entry>, seen: set<string>): map<string, Entry> {
    map id | id in entries && id in seen :: entries[id]
  }

  /** Phase 2 of a scan. */
  function Judge(cfg: Config, entries: map<string, Entry>, snapshot: seq<WorkerInfo>, now: real): Progress
    requires cfg.nm.sqrt2 > 0.0
  {
    var p := ScanAll(cfg, entries, snapshot, now);
    p.(entries := Reap(p.entries, IdsOf(snapshot)))
  }

  function SetOf(ids: seq<string>): set<string> {
    set id | id in ids
  }

  predicate NoCorpse(entries: map<string, Entry>) {
    forall id :: id in entries ==> entries[id].state != Dead
  }

  /** The worker dies in this scan. */
  predicate Dies(cfg: Config, entries: map<string, Entry>, w: WorkerInfo, now: real)
    requires cfg.nm.sqrt2 > 0.0
  {
    w.id in entries && Scored(cfg, entries[w.id], w.lastSeen, now).state == Dead
  }

  // ---------- the loop, worker by worker ----------

  lemma {:induction false} ScanLeavesOthers(cfg: Config, entries: map<string, Entry>, snapshot: seq<WorkerInfo>,
                                            now: real, id: string)
    requires cfg.nm.sqrt2 > 0.0 && id !in IdsOf(snapshot)
    ensures
      var p := ScanAll(cfg, entries, snapshot, now);
      && (id in p.entries <==> id in entries) && (id in entries ==> p.entries[id] == entries[id])
      && id !in p.deaths
  {
    if snapshot != [] {
      assert snapshot[|snapshot| - 1].id in IdsOf(snapshot);
      assert IdsOf(snapshot[..|snapshot| - 1]) <= IdsOf(snapshot);
      ScanLeavesOthers(cfg, entries, snapshot[..|snapshot| - 1], now, id);
    }
  }

  /** What the loop leaves for the `k`-th worker of the snapshot. */
  ghost predicate ScannedOk(cfg: Config, entries: map<string, Entry>, w: WorkerInfo, now: real, p: Progress)
    requires cfg.nm.sqrt2 > 0.0
  {
    && (w.id in p.deaths <==> Dies(cfg, entries, w, now))
    && (w.id in p.entries <==> !Dies(cfg, entries, w, now))
    && (w.id in p.entries ==>
          p.entries[w.id] == if w.id in entries then Scored(cfg, entries[w.id], w.lastSeen, now) else Born(w.lastSeen))
  }

  lemma DistinctPrefix(snapshot: seq<WorkerInfo>)
    requires DistinctIds(snapshot) && snapshot != []
    ensures DistinctIds(snapshot[..|snapshot| - 1])
    ensures snapshot[|snapshot| - 1].id !in IdsOf(snapshot[..|snapshot| - 1])
  {
  }

  lemma {:induction false} ScanReaches(cfg: Config, entries: map<string, Entry>, snapshot: seq<WorkerInfo>,
                                       now: real, k: nat)
    requires cfg.nm.sqrt2 > 0.0 && DistinctIds(snapshot) && k < |snapshot|
    ensures ScannedOk(cfg, entries, snapshot[k], now, ScanAll(cfg, entries, snapshot, now))
  {
    var n := |snapshot| - 1;
    DistinctPrefix(snapshot);
    if k == n {
      ScanLeavesOthers(cfg, entries, snapshot[..n], now, snapshot[n].id);
    } else {
      ScanReaches(cfg, entries, snapshot[..n], now, k);
      assert snapshot[k].id != snapshot[n].id;
    }
  }

  ghost predicate DistinctStrings(ids: seq<string>) {
    forall i: nat, j: nat :: i < j < |ids| ==> ids[i] != ids[j]
  }

  lemma {:induction false} DeathsAreDistinct(cfg: Config, entries: map<string, Entry>, snapshot: seq<WorkerInfo>,
                                             now: real)
    requires cfg.nm.sqrt2 > 0.0 && DistinctIds(snapshot)
    ensures
      var p := ScanAll(cfg, entries, snapshot, now);
      DistinctStrings(p.deaths) && forall id :: id in p.deaths ==> id in IdsOf(snapshot)
  {
    if snapshot != [] {
      var n := |snapshot| - 1;
      DistinctPrefix(snapshot);
      DeathsAreDistinct(cfg, entries, snapshot[..n], now);
      assert snapshot == snapshot[..n] + [snapshot[n]];
      assert snapshot[n].id in IdsOf(snapshot);
      assert IdsOf(snapshot[..n]) <= IdsOf(snapshot);
    }
  }

  // ---------- the whole scan ----------

  /** The outcome for worker `w`: a newcomer is born, a known worker is classified by the
      score of its folded window alone. */
  ghost predicate VerdictOk(cfg: Config, entries: map<string, Entry>, w: WorkerInfo, now: real, p: Progress)
    requires cfg.nm.sqrt2 > 0.0
  {
    if w.id !in entries then w.id in p.entries && p.entries[w.id] == Born(w.lastSeen)
    else
      var f := Fold(cfg, entries[w.id], w.lastSeen);
      var state := Classify(cfg, ScoreOf(cfg, f, now));
      if state == Dead then w.id in p.deaths
      else w.id in p.entries && p.entries[w.id] == f.(state := state)
  }

  /** Scan exactness: the stored keys are the snapshot's ids minus the deaths; no stored
      entry is a corpse; deaths are distinct and are exactly the known workers whose score
      passed the death threshold; a known survivor's state depends only on its score, and a
      newcomer is born ALIVE with an empty window. */
  lemma ScanIsExact(cfg: Config, entries: map<string, Entry>, snapshot: seq<WorkerInfo>, now: real)
    requires cfg.nm.sqrt2 > 0.0 && DistinctIds(snapshot) && NoCorpse(entries)
    ensures
      var p := Judge(cfg, entries, snapshot, now);
      && p.entries.Keys == IdsOf(snapshot) - SetOf(p.deaths)
      && NoCorpse(p.entries) && DistinctStrings(p.deaths)
      && (forall id :: id in p.deaths ==> id in entries && id in IdsOf(snapshot))
      && forall w :: w in snapshot ==> VerdictOk(cfg, entries, w, now, p)
  {
    var all := ScanAll(cfg, entries, snapshot, now);
    DeathsAreDistinct(cfg, entries, snapshot, now);
    forall w | w in snapshot ensures ScannedOk(cfg, entries, w, now, all) {
      var k: nat :| k < |snapshot| && snapshot[k] == w;
      ScanReaches(cfg, entries, snapshot, now, k);
    }
    forall w | w in snapshot && w.id in entries
      ensures Scored(cfg, entries[w.id], w.lastSeen, now).state
              == Classify(cfg, ScoreOf(cfg, Fold(cfg, entries[w.id], w.lastSeen), now))
    {
      AdvanceIsHistoryFree(cfg, entries[w.id].state, Alive, ScoreOf(cfg, Fold(cfg, entries[w.id], w.lastSeen), now));
    }
  }

  /** Nobody is declared dead on fewer than two samples, as long as the death threshold is
      not negative. */
  lemma DeathsHadSamples(cfg: Config, entries: map<string, Entry>, snapshot: seq<WorkerInfo>, now: real, w: WorkerInfo)
    requires cfg.nm.sqrt2 > 0.0 && cfg.phiDead >= 0.0 && DistinctIds(snapshot) && NoCorpse(entries)
    requires w in snapshot && w.id in Judge(cfg, entries, snapshot, now).deaths
    ensures w.id in entries && |Fold(cfg, entries[w.id], w.lastSeen).gaps| >= 2
  {
    ScanIsExact(cfg, entries, snapshot, now);
  }

  /** Scanned at time `from` or later, worker `id` dies. */
  ghost predicate DiesFrom(cfg: Config, entries: map<string, Entry>, snapshot: seq<WorkerInfo>, id: string, from: real)
    requires cfg.nm.sqrt2 > 0.0
  {
    forall now :: now >= from ==> id in Judge(cfg, entries, snapshot, now).deaths
  }

  /** A death takes a score above the threshold. */
  lemma DeathScores(cfg: Config, entries: map<string, Entry>, snapshot: seq<WorkerInfo>, now: real, w: WorkerInfo)
    requires cfg.nm.sqrt2 > 0.0 && DistinctIds(snapshot) && NoCorpse(entries) && w in snapshot
    ensures w.id in Judge(cfg, entries, snapshot, now).deaths <==>
              w.id in entries && ScoreOf(cfg, Fold(cfg, entries[w.id], w.lastSeen), now) > cfg.phiDead
  {
    ScanIsExact(cfg, entries, snapshot, now);
    assert VerdictOk(cfg, entries, w, now, Judge(cfg, entries, snapshot, now));
  }

  lemma SilenceKills(cfg: Config, entries: map<string, Entry>, snapshot: seq<WorkerInfo>, w: WorkerInfo)
    requires NumericsOk(cfg.nm) && NumericsReach(cfg.nm) && DistinctIds(snapshot) && NoCorpse(entries)
    requires w in snapshot && w.id in entries && |Fold(cfg, entries[w.id], w.lastSeen).gaps| >= 2
    requires cfg.phiDead < 20.0
    ensures exists from :: DiesFrom(cfg, entries, snapshot, w.id, from)
  {
    var f := Fold(cfg, entries[w.id], w.lastSeen);
    var certain := SilenceIsCertain(cfg.nm, f.gaps, f.lastApplied);
    forall now | now >= certain ensures w.id in Judge(cfg, entries, snapshot, now).deaths {
      DeathScores(cfg, entries, snapshot, now, w);
    }
    assert DiesFrom(cfg, entries, snapshot, w.id, certain);
  }

  /** Completeness: a known worker that falls silent is declared dead once the silence is long
      enough, if and only if the death threshold is negative, or is below the cap of the
      score and the window holds two samples. */
  lemma SilenceKillsIff(cfg: Config, entries: map<string, Entry>, snapshot: seq<WorkerInfo>, w: WorkerInfo)
    requires NumericsOk(cfg.nm) && NumericsReach(cfg.nm) && DistinctIds(snapshot) && NoCorpse(entries)
    requires w in snapshot && w.id in entries
    ensures
      (exists from :: DiesFrom(cfg, entries, snapshot, w.id, from))
      <==> cfg.phiDead < 0.0 || (cfg.phiDead < 20.0 && |Fold(cfg, entries[w.id], w.lastSeen).gaps| >= 2)
  {
    var f := Fold(cfg, entries[w.id], w.lastSeen);
    forall now
      ensures w.id in Judge(cfg, entries, snapshot, now).deaths <==> ScoreOf(cfg, f, now) > cfg.phiDead
      ensures 0.0 <= ScoreOf(cfg, f, now) <= 20.0
    {
      DeathScores(cfg, entries, snapshot, now, w);
      ScoreGrowsInSilence(cfg.nm, f.gaps, f.lastApplied, now, now);
    }
    if cfg.phiDead < 0.0 {
      assert DiesFrom(cfg, entries, snapshot, w.id, 0.0);
    } else if cfg.phiDead < 20.0 && |f.gaps| >= 2 {
      SilenceKills(cfg, entries, snapshot, w);
    } else {
      forall from ensures !DiesFrom(cfg, entries, snapshot, w.id, from) {
        assert w.id !in Judge(cfg, entries, snapshot, from).deaths;
      }
    }
  }

  /** A suspect that a scan finds alive had a newer arrival folded. */
  lemma RecoveredFolds(cfg: Config, entries: map<string, Entry>, snapshot: seq<WorkerInfo>, now: real,
                       scanned: real, k: nat)
    requires NumericsOk(cfg.nm) && DistinctIds(snapshot) && k < |snapshot| && scanned <= now
    requires snapshot[k].id in entries && entries[snapshot[k].id].state == Suspect
    requires ScoreOf(cfg, entries[snapshot[k].id], scanned) > cfg.phiSuspect
    requires
      var after := Judge(cfg, entries, snapshot, now).entries;
      snapshot[k].id in after && after[snapshot[k].id].state == Alive
    ensures Advanced(entries[snapshot[k].id], snapshot[k].lastSeen)
    ensures
      var after := Judge(cfg, entries, snapshot, now).entries;
      after[snapshot[k].id].lastApplied == snapshot[k].lastSeen
  {
    ScanReaches(cfg, entries, snapshot, now, k);
    RecoveryNeedsArrival(cfg, entries[snapshot[k].id], scanned, snapshot[k].lastSeen, now);
  }
}
