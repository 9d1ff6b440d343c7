/** What one verdict and one undisturbed scan do to a worker, in terms of its score, its times
    and the thresholds alone. */
module Verdicts {
  import opened Window
  import opened Phi
  import opened Registry
  import opened Scan
  import opened ControlPlane
  import opened ControlPlaneSafety
  import opened ControlPlaneTheorems

  /** The later of the arrival folded last and the one the snapshot shows. */
  function Latest(e: Entry, lastSeen: real): real {
    if lastSeen > e.lastApplied then lastSeen else e.lastApplied
  }

  /** The window with the gap to a later arrival, and the oldest gap gone once it is full. */
  function WindowThen(size: nat, e: Entry, lastSeen: real): seq<real> {
    if lastSeen > e.lastApplied then LastOf(e.gaps + [lastSeen - e.lastApplied], size) else e.gaps
  }

  lemma FoldedIs(cfg: Config, e: Entry, lastSeen: real)
    ensures Fold(cfg, e, lastSeen) == Entry(e.state, WindowThen(cfg.windowSize, e, lastSeen), Latest(e, lastSeen))
  {
  }

  /** All a verdict needs to know of the run before it. */
  lemma ReadyForVerdict(cfg: Config, ops: seq<Op>, p: Plane)
    requires ConfigOk(cfg) && PlaneRun(cfg, START, ops, p) && p.stage.Snapped?
    ensures NoCorpse(p.entries) && DistinctIds(p.stage.snapshot)
  {
    RunIsOk(cfg, ops, p);
  }

  lemma ScoredByThresholds(cfg: Config, entries: map<string, Entry>, snapshot: seq<WorkerInfo>, now: real,
                           w: WorkerInfo)
    requires cfg.nm.sqrt2 > 0.0 && DistinctIds(snapshot) && NoCorpse(entries) && w in snapshot && w.id in entries
    ensures
      var f := Fold(cfg, entries[w.id], w.lastSeen);
      var after, score := Judge(cfg, entries, snapshot, now).entries, Score(cfg.nm, f.gaps, f.lastApplied, now);
      && (w.id !in after <==> score > cfg.phiDead)
      && (w.id in after ==> after[w.id] == f.(state := if score > cfg.phiSuspect then Suspect else Alive))
  {
    ScanIsExact(cfg, entries, snapshot, now);
    assert VerdictOk(cfg, entries, w, now, Judge(cfg, entries, snapshot, now));
  }

  /** What a verdict leaves of the entry `e` of a worker last seen at `lastSeen`: an arrival
      later than the last folded one is folded, whatever the difference; the worker dies if
      and only if its score is then above the death threshold; otherwise it is SUSPECT if and
      only if the score is above the suspicion threshold, and ALIVE if not. */
  ghost predicate LeavesBehind(cfg: Config, e: Entry, lastSeen: real, now: real, id: string, after: map<string, Entry>)
    requires cfg.nm.sqrt2 > 0.0
  {
    var gaps, latest := WindowThen(cfg.windowSize, e, lastSeen), Latest(e, lastSeen);
    var score := Score(cfg.nm, gaps, latest, now);
    && (id !in after <==> score > cfg.phiDead)
    && (id in after ==> after[id] == Entry(if score > cfg.phiSuspect then Suspect else Alive, gaps, latest))
  }

  lemma KnownInScan(cfg: Config, entries: map<string, Entry>, snapshot: seq<WorkerInfo>, now: real, w: WorkerInfo)
    requires cfg.nm.sqrt2 > 0.0 && DistinctIds(snapshot) && NoCorpse(entries) && w in snapshot && w.id in entries
    ensures LeavesBehind(cfg, entries[w.id], w.lastSeen, now, w.id, Judge(cfg, entries, snapshot, now).entries)
  {
    FoldedIs(cfg, entries[w.id], w.lastSeen);
    ScoredByThresholds(cfg, entries, snapshot, now, w);
  }

  lemma ArrivalsNoted(cfg: Config, log: seq<Event>, entries: map<string, Entry>, snapshot: seq<WorkerInfo>,
                      w: WorkerInfo)
    requires DistinctIds(snapshot) && w in snapshot
    ensures
      var next := NotedAll(log, entries, snapshot);
      Arrivals(next, w.id)
      == if w.id !in entries then [w.lastSeen]
         else Arrivals(log, w.id) + (if w.lastSeen > entries[w.id].lastApplied then [w.lastSeen] else [])
  {
    var k: nat :| k < |snapshot| && snapshot[k] == w;
    NotesOn(cfg, log, entries, snapshot, k);
  }

  /** A known worker of the snapshot after the verdict, in every run; its arrivals gain the time
      the snapshot shows if and only if that is later than the last. */
  lemma KnownAfterVerdict(cfg: Config, ops: seq<Op>, p: Plane, now: real, w: WorkerInfo)
    requires ConfigOk(cfg) && PlaneRun(cfg, START, ops, p) && p.stage.Snapped?
    requires w in p.stage.snapshot && w.id in p.entries
    ensures
      var e, p' := p.entries[w.id], Do(cfg, p, Verdict(now));
      && LeavesBehind(cfg, e, w.lastSeen, now, w.id, p'.entries)
      && Arrivals(p'.log, w.id)
         == Arrivals(p.log, w.id) + (if w.lastSeen > e.lastApplied then [w.lastSeen] else [])
  {
    ReadyForVerdict(cfg, ops, p);
    KnownInScan(cfg, p.entries, p.stage.snapshot, now, w);
    ArrivalsNoted(cfg, p.log, p.entries, p.stage.snapshot, w);
  }

  /** A worker seen for the first time is ALIVE with an empty window, and its clock starts at
      the arrival the snapshot shows. */
  lemma NewcomerAfterVerdict(cfg: Config, ops: seq<Op>, p: Plane, now: real, w: WorkerInfo)
    requires ConfigOk(cfg) && PlaneRun(cfg, START, ops, p) && p.stage.Snapped?
    requires w in p.stage.snapshot && w.id !in p.entries
    ensures
      var p' := Do(cfg, p, Verdict(now));
      && w.id in p'.entries && p'.entries[w.id] == Entry(Alive, [], w.lastSeen)
      && Arrivals(p'.log, w.id) == [w.lastSeen]
  {
    ReadyForVerdict(cfg, ops, p);
    ScanIsExact(cfg, p.entries, p.stage.snapshot, now);
    assert VerdictOk(cfg, p.entries, w, now, Judge(cfg, p.entries, p.stage.snapshot, now));
    ArrivalsNoted(cfg, p.log, p.entries, p.stage.snapshot, w);
  }

  /** A worker that is not in the snapshot is forgotten without a death, and nothing is noted
      about it. */
  lemma AbsentAfterVerdict(cfg: Config, ops: seq<Op>, p: Plane, now: real, id: string)
    requires ConfigOk(cfg) && PlaneRun(cfg, START, ops, p) && p.stage.Snapped?
    requires forall w :: w in p.stage.snapshot ==> w.id != id
    ensures
      var p' := Do(cfg, p, Verdict(now));
      && id !in p'.entries && Arrivals(p'.log, id) == Arrivals(p.log, id)
      && (p'.stage.Burying? ==> id !in p'.stage.deaths)
  {
    ReadyForVerdict(cfg, ops, p);
    ScanIsExact(cfg, p.entries, p.stage.snapshot, now);
    NotesOnOthers(cfg, p.log, p.entries, p.stage.snapshot, id);
  }

  // ---------- a registry operation, then an undisturbed scan ----------

  /** After operation `op` of the registry the next snapshot shows `facts`, and the verdict at
      time `now` leads to `p'`. */
  ghost predicate ScannedAfter(cfg: Config, p: Plane, op: Op, snapshot: seq<WorkerInfo>, now: real, p': Plane)
    requires cfg.nm.sqrt2 > 0.0
  {
    && p.stage.Idle? && CanDo(p, op) && !op.TakeSnapshot? && IsSnapshot(snapshot, Do(cfg, p, op).facts)
    && p' == Do(cfg, Do(cfg, Do(cfg, p, op), TakeSnapshot(snapshot)), Verdict(now))
  }

  lemma {:induction false} RunOn(cfg: Config, p: Plane, ops: seq<Op>, mid: Plane, op: Op)
    requires cfg.nm.sqrt2 > 0.0 && PlaneRun(cfg, p, ops, mid) && CanDo(mid, op)
    ensures PlaneRun(cfg, p, ops + [op], Do(cfg, mid, op))
    decreases |ops|
  {
    if ops == [] {
      assert [op][1..] == [];
    } else {
      RunOn(cfg, Do(cfg, p, ops[0]), ops[1..], mid, op);
      assert (ops + [op])[1..] == ops[1..] + [op];
    }
  }

  lemma BeforeVerdict(cfg: Config, ops: seq<Op>, p: Plane, op: Op, snapshot: seq<WorkerInfo>) returns (m: Plane)
    requires cfg.nm.sqrt2 > 0.0 && PlaneRun(cfg, START, ops, p) && p.stage.Idle? && CanDo(p, op)
    requires (op.Heartbeat? || op.Register? || op.Deregister?) && IsSnapshot(snapshot, Do(cfg, p, op).facts)
    ensures m == Do(cfg, Do(cfg, p, op), TakeSnapshot(snapshot))
    ensures PlaneRun(cfg, START, ops + [op] + [TakeSnapshot(snapshot)], m)
    ensures m.stage == Snapped(snapshot) && m.entries == p.entries && m.facts == Do(cfg, p, op).facts
    ensures m.log == Do(cfg, p, op).log
  {
    RunOn(cfg, START, ops, p, op);
    RunOn(cfg, START, ops + [op], Do(cfg, p, op), TakeSnapshot(snapshot));
    m := Do(cfg, Do(cfg, p, op), TakeSnapshot(snapshot));
  }

  /** A snapshot shows each registered worker as the registry knows it. */
  lemma ShownInSnapshot(snapshot: seq<WorkerInfo>, facts: map<string, WorkerInfo>, id: string)
    requires IsSnapshot(snapshot, facts)
    ensures id in facts ==> facts[id] in snapshot
    ensures id !in facts ==> forall w :: w in snapshot ==> w.id != id
  {
    if id in facts { assert id in IdsOf(snapshot); }
    forall w | w in snapshot ensures w.id in IdsOf(snapshot) {}
  }

  /** A heartbeat of a registered worker that is later than the last folded arrival is folded
      by the next scan. */
  lemma BeatIsFolded(cfg: Config, ops: seq<Op>, p: Plane, id: string, load: real, at: real,
                     snapshot: seq<WorkerInfo>, now: real, p': Plane)
    requires ConfigOk(cfg) && PlaneRun(cfg, START, ops, p)
    requires id in p.facts && id in p.entries && at > p.entries[id].lastApplied
    requires ScannedAfter(cfg, p, Heartbeat(id, load, at), snapshot, now, p')
    ensures Arrivals(p'.log, id) == Arrivals(p.log, id) + [at]
    ensures id in p'.entries ==> p'.entries[id].lastApplied == at
  {
    var m := BeforeVerdict(cfg, ops, p, Heartbeat(id, load, at), snapshot);
    ShownInSnapshot(snapshot, m.facts, id);
    KnownAfterVerdict(cfg, ops + [Heartbeat(id, load, at)] + [TakeSnapshot(snapshot)], m, now, m.facts[id]);
  }

  /** A heartbeat of an unknown worker registers nobody. */
  lemma StrayBeatIsIgnored(cfg: Config, p: Plane, id: string, load: real, at: real)
    requires cfg.nm.sqrt2 > 0.0 && id !in p.facts
    ensures Do(cfg, p, Heartbeat(id, load, at)) == p
  {
  }

  /** A worker that registers, known or not, is seen by the next scan at the time of its
      registration: as a newcomer, or as an arrival if that is later than the last. */
  lemma RegistrationIsSeen(cfg: Config, ops: seq<Op>, p: Plane, id: string, addr: string, capacity: nat, at: real,
                           snapshot: seq<WorkerInfo>, now: real, p': Plane)
    requires ConfigOk(cfg) && PlaneRun(cfg, START, ops, p)
    requires ScannedAfter(cfg, p, Register(id, addr, capacity, at), snapshot, now, p')
    ensures id !in p.entries ==> id in p'.entries && p'.entries[id] == Entry(Alive, [], at)
    ensures id in p.entries && id in p'.entries ==> p'.entries[id].lastApplied == Latest(p.entries[id], at)
  {
    var op := Register(id, addr, capacity, at);
    var m := BeforeVerdict(cfg, ops, p, op, snapshot);
    ShownInSnapshot(snapshot, m.facts, id);
    if id in p.entries {
      KnownAfterVerdict(cfg, ops + [op] + [TakeSnapshot(snapshot)], m, now, m.facts[id]);
    } else {
      NewcomerAfterVerdict(cfg, ops + [op] + [TakeSnapshot(snapshot)], m, now, m.facts[id]);
    }
  }

  /** A worker that deregisters is forgotten by the next scan, and is not a death. */
  lemma LeavingIsNoDeath(cfg: Config, ops: seq<Op>, p: Plane, id: string,
                         snapshot: seq<WorkerInfo>, now: real, p': Plane)
    requires ConfigOk(cfg) && PlaneRun(cfg, START, ops, p)
    requires ScannedAfter(cfg, p, Deregister(id), snapshot, now, p')
    ensures id !in p'.facts && id !in p'.entries && (p'.stage.Burying? ==> id !in p'.stage.deaths)
  {
    var m := BeforeVerdict(cfg, ops, p, Deregister(id), snapshot);
    ShownInSnapshot(snapshot, m.facts, id);
    AbsentAfterVerdict(cfg, ops + [Deregister(id)] + [TakeSnapshot(snapshot)], m, now, id);
  }

  /** Each death is evicted: the eviction takes the first of the doomed out of the registry and
      leaves everybody else there. */
  lemma EvictionRemoves(cfg: Config, p: Plane)
    requires cfg.nm.sqrt2 > 0.0 && CanDo(p, Evict)
    ensures
      var p', id := Do(cfg, p, Evict), p.stage.deaths[0];
      && id !in p'.facts && p'.log == p.log + [Evicted(id)]
      && forall other :: other != id ==>
           (other in p'.facts <==> other in p.facts) && (other in p.facts ==> p'.facts[other] == p.facts[other])
  {
  }
}
