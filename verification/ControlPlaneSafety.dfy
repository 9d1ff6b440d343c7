/** Every registry operation and every phase of a scan keeps the invariant of ControlPlane,
    in any interleaving. */
module ControlPlaneSafety {
  import opened Window
  import opened Phi
  import opened Registry
  import opened Scan
  import opened ControlPlane

  // ---------- what one scan adds to the log ----------

  /** The scan folds an arrival of worker `w`. */
  predicate Folds(entries: map<string, Entry>, w: WorkerInfo) {
    w.id in entries && Advanced(entries[w.id], w.lastSeen)
  }

  /** What the log says of worker `w` before and after it was noted. */
  ghost predicate NotedOk(log: seq<Event>, next: seq<Event>, entries: map<string, Entry>, w: WorkerInfo) {
    var life, a := LifeOf(log, w.id), Arrivals(log, w.id);
    if w.id !in entries then
      Arrivals(next, w.id) == [w.lastSeen] && LifeOf(next, w.id) == if life.Absent? then Absent else Watched(0)
    else if Folds(entries, w) then
      Arrivals(next, w.id) == a + [w.lastSeen] && LifeOf(next, w.id) == Lived(life, Folded(w.id, w.lastSeen), w.id)
    else
      Arrivals(next, w.id) == a && LifeOf(next, w.id) == life
  }

  lemma NoteOne(cfg: Config, log: seq<Event>, entries: map<string, Entry>, w: WorkerInfo, id: string)
    ensures
      var next := log + Noted(entries, w);
      && Pending(next) == Pending(log)
      && (LogOk(cfg, log) ==> LogOk(cfg, next))
      && (if id == w.id then NotedOk(log, next, entries, w)
          else LifeOf(next, id) == LifeOf(log, id) && Arrivals(next, id) == Arrivals(log, id))
  {
    if Noted(entries, w) == [] {
      assert log + Noted(entries, w) == log;
    } else {
      Append(log, Noted(entries, w)[0], id);
      if LogOk(cfg, log) { AppendKeepsLogOk(cfg, log, Noted(entries, w)[0]); }
    }
  }

  lemma {:induction false} NotesOnOthers(cfg: Config, log: seq<Event>, entries: map<string, Entry>,
                                         snapshot: seq<WorkerInfo>, id: string)
    ensures
      var next := NotedAll(log, entries, snapshot);
      && Pending(next) == Pending(log)
      && (LogOk(cfg, log) ==> LogOk(cfg, next))
      && (id !in IdsOf(snapshot) ==> LifeOf(next, id) == LifeOf(log, id) && Arrivals(next, id) == Arrivals(log, id))
  {
    if snapshot != [] {
      var n := |snapshot| - 1;
      NotesOnOthers(cfg, log, entries, snapshot[..n], id);
      NoteOne(cfg, NotedAll(log, entries, snapshot[..n]), entries, snapshot[n], id);
      assert snapshot[n].id in IdsOf(snapshot) && IdsOf(snapshot[..n]) <= IdsOf(snapshot);
    }
  }

  /** What the scan noted about the `k`-th worker of its snapshot. */
  lemma {:induction false} NotesOn(cfg: Config, log: seq<Event>, entries: map<string, Entry>,
                                   snapshot: seq<WorkerInfo>, k: nat)
    requires DistinctIds(snapshot) && k < |snapshot|
    ensures NotedOk(log, NotedAll(log, entries, snapshot), entries, snapshot[k])
  {
    var n := |snapshot| - 1;
    DistinctPrefix(snapshot);
    if k == n {
      NotesOnOthers(cfg, log, entries, snapshot[..n], snapshot[n].id);
    } else {
      NotesOn(cfg, log, entries, snapshot[..n], k);
    }
    NoteOne(cfg, NotedAll(log, entries, snapshot[..n]), entries, snapshot[n], snapshot[k].id);
  }

  // ---------- the verdict ----------

  lemma ExtendArrivals(a: seq<real>, at: real)
    requires a != [] && Increasing(a) && at > a[|a| - 1]
    ensures Increasing(a + [at])
    ensures Diffs(a + [at]) == Diffs(a) + [at - a[|a| - 1]]
  {
  }

  /** A fold extends the arrivals, and the window goes on holding their last gaps. */
  lemma FoldTracks(cfg: Config, e: Entry, a: seq<real>, lastSeen: real)
    requires cfg.windowSize > 0 && Tracks(cfg.windowSize, e, a) && Advanced(e, lastSeen)
    ensures Tracks(cfg.windowSize, Fold(cfg, e, lastSeen), a + [lastSeen])
  {
    ExtendArrivals(a, lastSeen);
    LastOfAppend(Diffs(a), lastSeen - e.lastApplied, cfg.windowSize);
  }

  /** Folded or not, the entry tracks what the log now says. */
  lemma NotedTracks(cfg: Config, log: seq<Event>, next: seq<Event>, entries: map<string, Entry>, w: WorkerInfo)
    requires cfg.windowSize > 0 && w.id in entries && LifeOf(log, w.id).Watched?
    requires Tracks(cfg.windowSize, entries[w.id], Arrivals(log, w.id)) && NotedOk(log, next, entries, w)
    ensures Tracks(cfg.windowSize, Fold(cfg, entries[w.id], w.lastSeen), Arrivals(next, w.id))
    ensures LifeOf(next, w.id).Watched?
  {
    if Folds(entries, w) { FoldTracks(cfg, entries[w.id], Arrivals(log, w.id), w.lastSeen); }
  }

  /** The state a scan leaves a survivor in matches its score at that scan. */
  lemma ClassifiedOk(cfg: Config, f: Entry, now: real)
    requires cfg.nm.sqrt2 > 0.0 && Classify(cfg, ScoreOf(cfg, f, now)) != Dead
    ensures StateOk(cfg, f.(state := Classify(cfg, ScoreOf(cfg, f, now))), now)
  {
  }

  /** A window with two gaps stands for two folds since the first sighting. */
  lemma TwoGapsMature(cfg: Config, log: seq<Event>, id: string, e: Entry)
    requires LifeOf(log, id).Watched? && Tracks(cfg.windowSize, e, Arrivals(log, id))
    requires cfg.phiDead >= 0.0 ==> |e.gaps| >= 2
    ensures Matured(cfg, log, id)
  {
    WatchedArrivals(log, id);
  }

  /** What a verdict owes to worker `w` of its snapshot. */
  ghost predicate ServedOk(cfg: Config, p: Plane, p': Plane, w: WorkerInfo, deaths: seq<string>)
    requires cfg.nm.sqrt2 > 0.0
  {
    && (w.id in p'.entries ==> EntryOk(cfg, p', w.id))
    && (w.id in deaths ==> w.id in p.entries && w.id !in p'.entries && Matured(cfg, p'.log, w.id))
  }

  lemma KnownServed(cfg: Config, p: Plane, now: real, w: WorkerInfo)
    requires ConfigOk(cfg) && NoCorpse(p.entries) && p.stage.Snapped? && DistinctIds(p.stage.snapshot)
    requires w in p.stage.snapshot && w.id in p.entries && EntryOk(cfg, p, w.id)
    requires NotedOk(p.log, Judged(cfg, p, now).log, p.entries, w)
    ensures ServedOk(cfg, p, Judged(cfg, p, now), w, Judge(cfg, p.entries, p.stage.snapshot, now).deaths)
  {
    var p', j := Judged(cfg, p, now), Judge(cfg, p.entries, p.stage.snapshot, now);
    var f := Fold(cfg, p.entries[w.id], w.lastSeen);
    NotedTracks(cfg, p.log, p'.log, p.entries, w);
    ScanIsExact(cfg, p.entries, p.stage.snapshot, now);
    assert VerdictOk(cfg, p.entries, w, now, j);
    if w.id in j.deaths {
      if cfg.phiDead >= 0.0 { DeathsHadSamples(cfg, p.entries, p.stage.snapshot, now, w); }
      TwoGapsMature(cfg, p'.log, w.id, f);
    } else {
      ClassifiedOk(cfg, f, now);
    }
  }

  lemma NewcomerServed(cfg: Config, p: Plane, now: real, w: WorkerInfo)
    requires ConfigOk(cfg) && NoCorpse(p.entries) && p.stage.Snapped? && DistinctIds(p.stage.snapshot)
    requires w in p.stage.snapshot && w.id !in p.entries && LifeOf(p.log, w.id) != Absent
    requires NotedOk(p.log, Judged(cfg, p, now).log, p.entries, w)
    ensures ServedOk(cfg, p, Judged(cfg, p, now), w, Judge(cfg, p.entries, p.stage.snapshot, now).deaths)
  {
    ScanIsExact(cfg, p.entries, p.stage.snapshot, now);
    assert VerdictOk(cfg, p.entries, w, now, Judge(cfg, p.entries, p.stage.snapshot, now));
  }

  lemma VerdictOnWorker(cfg: Config, p: Plane, now: real, w: WorkerInfo)
    requires ConfigOk(cfg) && PlaneInv(cfg, p) && p.stage.Snapped? && w in p.stage.snapshot
    ensures ServedOk(cfg, p, Judged(cfg, p, now), w, Judge(cfg, p.entries, p.stage.snapshot, now).deaths)
  {
    var k: nat :| k < |p.stage.snapshot| && p.stage.snapshot[k] == w;
    NotesOn(cfg, p.log, p.entries, p.stage.snapshot, k);
    NoCorpseKept(cfg, p);
    if w.id in p.entries { KnownServed(cfg, p, now, w); } else { NewcomerServed(cfg, p, now, w); }
  }

  lemma NoCorpseKept(cfg: Config, p: Plane)
    requires cfg.nm.sqrt2 > 0.0 && PlaneInv(cfg, p)
    ensures NoCorpse(p.entries)
  {
    assert forall id :: id in p.entries ==> EntryOk(cfg, p, id);
  }

  lemma VerdictKeepsInv(cfg: Config, p: Plane, now: real)
    requires ConfigOk(cfg) && PlaneInv(cfg, p) && p.stage.Snapped?
    ensures PlaneInv(cfg, Judged(cfg, p, now))
  {
    var snapshot, p' := p.stage.snapshot, Judged(cfg, p, now);
    var deaths := Judge(cfg, p.entries, snapshot, now).deaths;
    NotesOnOthers(cfg, p.log, p.entries, snapshot, "");
    NoCorpseKept(cfg, p);
    ScanIsExact(cfg, p.entries, snapshot, now);
    forall id | id in p'.entries || id in deaths
      ensures id in p'.entries ==> EntryOk(cfg, p', id)
      ensures id in deaths ==> id !in p'.entries && Matured(cfg, p'.log, id)
    {
      var w :| w in snapshot && w.id == id;
      VerdictOnWorker(cfg, p, now, w);
    }
    forall id | id in p'.facts ensures LifeOf(p'.log, id) != Absent {
      LifeSurvivesNotes(cfg, p.log, p.entries, snapshot, id);
    }
  }

  lemma LifeSurvivesNotes(cfg: Config, log: seq<Event>, entries: map<string, Entry>,
                          snapshot: seq<WorkerInfo>, id: string)
    requires DistinctIds(snapshot)
    ensures LifeOf(log, id) != Absent ==> LifeOf(NotedAll(log, entries, snapshot), id) != Absent
  {
    NotesOnOthers(cfg, log, entries, snapshot, id);
    if id in IdsOf(snapshot) {
      var k: nat :| k < |snapshot| && snapshot[k].id == id;
      NotesOn(cfg, log, entries, snapshot, k);
    }
  }

  // ---------- the other steps ----------

  /** Another event of the log changes nothing that is said about worker `id`'s arrivals. */
  ghost predicate SameLife(log: seq<Event>, next: seq<Event>, id: string) {
    && Arrivals(next, id) == Arrivals(log, id)
    && (LifeOf(next, id) == LifeOf(log, id) || (LifeOf(log, id) == Absent && LifeOf(next, id) == Known))
  }

  lemma SameEntry(cfg: Config, p: Plane, p': Plane, id: string)
    requires cfg.nm.sqrt2 > 0.0 && id in p.entries && EntryOk(cfg, p, id)
    requires p'.entries == p.entries && p'.scanned == p.scanned && SameLife(p.log, p'.log, id)
    ensures EntryOk(cfg, p', id)
  {
  }

  lemma SameDoomed(cfg: Config, p: Plane, p': Plane, deaths: seq<string>)
    requires DoomedOk(cfg, p, deaths) && p'.entries == p.entries
    requires forall id :: id in deaths ==> SameLife(p.log, p'.log, id)
    ensures DoomedOk(cfg, p', deaths)
  {
  }

  lemma RegisterKeepsInv(cfg: Config, p: Plane, op: Op)
    requires cfg.nm.sqrt2 > 0.0 && PlaneInv(cfg, p) && op.Register?
    ensures PlaneInv(cfg, Do(cfg, p, op))
  {
    var p' := Do(cfg, p, op);
    forall id ensures SameLife(p.log, p'.log, id) && (id == op.id ==> LifeOf(p'.log, id) != Absent) {
      Append(p.log, Registered(op.id), id);
    }
    Append(p.log, Registered(op.id), op.id);
    AppendKeepsLogOk(cfg, p.log, Registered(op.id));
    forall id | id in p'.entries ensures EntryOk(cfg, p', id) { SameEntry(cfg, p, p', id); }
    match p.stage
    case Burying(deaths) => SameDoomed(cfg, p, p', deaths);
    case Emitting(_, rest) => SameDoomed(cfg, p, p', rest);
    case _ =>
  }

  lemma EvictKeepsInv(cfg: Config, p: Plane)
    requires cfg.nm.sqrt2 > 0.0 && PlaneInv(cfg, p) && CanDo(p, Evict)
    ensures PlaneInv(cfg, Do(cfg, p, Evict))
  {
    var p', gone, rest := Do(cfg, p, Evict), p.stage.deaths[0], p.stage.deaths[1..];
    AppendKeepsLogOk(cfg, p.log, Evicted(gone));
    Append(p.log, Evicted(gone), gone);
    forall id | id != gone ensures SameLife(p.log, p'.log, id) && LifeOf(p'.log, id) == LifeOf(p.log, id) {
      Append(p.log, Evicted(gone), id);
    }
    forall id | id in p'.entries ensures EntryOk(cfg, p', id) { SameEntry(cfg, p, p', id); }
    assert DoomedOk(cfg, p, rest) && gone !in rest by {
      assert forall id :: id in rest ==> id in p.stage.deaths;
    }
    SameDoomed(cfg, p, p', rest);
  }

  lemma EmitKeepsInv(cfg: Config, p: Plane)
    requires cfg.nm.sqrt2 > 0.0 && PlaneInv(cfg, p) && CanDo(p, Emit)
    ensures PlaneInv(cfg, Do(cfg, p, Emit))
  {
    var p' := Do(cfg, p, Emit);
    AppendKeepsLogOk(cfg, p.log, Emitted(p.stage.id));
    forall id ensures SameLife(p.log, p'.log, id) && LifeOf(p'.log, id) == LifeOf(p.log, id) {
      Append(p.log, Emitted(p.stage.id), id);
    }
    Append(p.log, Emitted(p.stage.id), p.stage.id);
    forall id | id in p'.entries ensures EntryOk(cfg, p', id) { SameEntry(cfg, p, p', id); }
    SameDoomed(cfg, p, p', p.stage.rest);
  }

  lemma SnapshotKeepsInv(cfg: Config, p: Plane, op: Op)
    requires cfg.nm.sqrt2 > 0.0 && PlaneInv(cfg, p) && CanDo(p, op)
    requires op.TakeSnapshot? || op.Heartbeat? || op.Deregister?
    ensures PlaneInv(cfg, Do(cfg, p, op))
  {
    var p' := Do(cfg, p, op);
    forall id | id in p'.entries ensures EntryOk(cfg, p', id) { SameEntry(cfg, p, p', id); }
  }

  lemma OpKeepsInv(cfg: Config, p: Plane, op: Op)
    requires ConfigOk(cfg) && PlaneInv(cfg, p) && CanDo(p, op)
    ensures PlaneInv(cfg, Do(cfg, p, op))
  {
    match op
    case Register(_, _, _, _) => RegisterKeepsInv(cfg, p, op);
    case Verdict(now) => VerdictKeepsInv(cfg, p, now);
    case Evict => EvictKeepsInv(cfg, p);
    case Emit => EmitKeepsInv(cfg, p);
    case _ => SnapshotKeepsInv(cfg, p, op);
  }

  lemma {:induction false} RunKeepsPlaneInv(cfg: Config, p: Plane, ops: seq<Op>, p': Plane)
    requires ConfigOk(cfg) && PlaneInv(cfg, p) && PlaneRun(cfg, p, ops, p')
    ensures PlaneInv(cfg, p')
    decreases |ops|
  {
    if ops != [] {
      OpKeepsInv(cfg, p, ops[0]);
      RunKeepsPlaneInv(cfg, Do(cfg, p, ops[0]), ops[1..], p');
    }
  }
}
