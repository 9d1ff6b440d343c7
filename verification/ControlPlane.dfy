/** The registry and the scanner as one step system: registry operations may come between
    any two phases of a scan. The log records what happened to each worker. */
module ControlPlane {
  import opened Window
  import opened Phi
  import opened Registry
  import opened Scan

  datatype Event =
    | Registered(id: string)
    | Sighted(id: string, at: real)
    | Folded(id: string, at: real)
    | Evicted(id: string)
    | Emitted(id: string)

  /** Where the single scanner goroutine stands. */
  datatype Stage =
    | Idle
    | Snapped(snapshot: seq<WorkerInfo>)
    | Burying(deaths: seq<string>)
    | Emitting(id: string, rest: seq<string>)

  /** `scanned` is the time of the last verdict; `log` is history. */
  datatype Plane = Plane(
    facts: map<string, WorkerInfo>, entries: map<string, Entry>, stage: Stage, scanned: real, log: seq<Event>)

  datatype Op =
    | Register(id: string, addr: string, capacity: nat, at: real)
    | Heartbeat(id: string, load: real, at: real)
    | Deregister(id: string)
    | TakeSnapshot(snapshot: seq<WorkerInfo>)
    | Verdict(now: real)
    | Evict
    | Emit

  const START := Plane(map[], map[], Idle, 0.0, [])

  ghost predicate CanDo(p: Plane, op: Op) {
    match op
    case TakeSnapshot(snapshot) => p.stage.Idle? && IsSnapshot(snapshot, p.facts)
    case Verdict(_) => p.stage.Snapped?
    case Evict => p.stage.Burying? && p.stage.deaths != []
    case Emit => p.stage.Emitting?
    case _ => true
  }

  /** What the scan notes about a worker of the snapshot. */
  function Noted(entries: map<string, Entry>, w: WorkerInfo): seq<Event> {
    if w.id !in entries then [Sighted(w.id, w.lastSeen)]
    else if Advanced(entries[w.id], w.lastSeen) then [Folded(w.id, w.lastSeen)]
    else []
  }

  function NotedAll(log: seq<Event>, entries: map<string, Entry>, snapshot: seq<WorkerInfo>): seq<Event> {
    if snapshot == [] then log
    else NotedAll(log, entries, snapshot[..|snapshot| - 1]) + Noted(entries, snapshot[|snapshot| - 1])
  }

  function NextStage(deaths: seq<string>): Stage {
    if deaths == [] then Idle else Burying(deaths)
  }

  function Judged(cfg: Config, p: Plane, now: real): Plane
    requires cfg.nm.sqrt2 > 0.0 && p.stage.Snapped?
  {
    var j := Judge(cfg, p.entries, p.stage.snapshot, now);
    Plane(p.facts, j.entries, NextStage(j.deaths), now, NotedAll(p.log, p.entries, p.stage.snapshot))
  }

  ghost function Do(cfg: Config, p: Plane, op: Op): Plane
    requires cfg.nm.sqrt2 > 0.0 && CanDo(p, op)
  {
    match op
    case Register(id, addr, capacity, at) =>
      p.(facts := p.facts[id := WorkerInfo(id, addr, capacity, 0.0, at)], log := p.log + [Registered(id)])
    case Heartbeat(id, load, at) =>
      if id in p.facts then p.(facts := p.facts[id := p.facts[id].(load := load, lastSeen := at)]) else p
    case Deregister(id) => p.(facts := p.facts - {id})
    case TakeSnapshot(snapshot) => p.(stage := Snapped(snapshot))
    case Verdict(now) => Judged(cfg, p, now)
    case Evict =>
      var id := p.stage.deaths[0];
      p.(facts := p.facts - {id}, stage := Emitting(id, p.stage.deaths[1..]), log := p.log + [Evicted(id)])
    case Emit => p.(stage := NextStage(p.stage.rest), log := p.log + [Emitted(p.stage.id)])
  }

  ghost predicate PlaneRun(cfg: Config, p: Plane, ops: seq<Op>, p': Plane)
    requires cfg.nm.sqrt2 > 0.0
    decreases |ops|
  {
    if ops == [] then p == p'
    else CanDo(p, ops[0]) && PlaneRun(cfg, Do(cfg, p, ops[0]), ops[1..], p')
  }

  // ---------- what a log says about one worker ----------

  /** `Absent` until the worker registers after its last eviction; `Known` until a scan
      sights it; then the folds since its last first sighting. */
  datatype Life = Absent | Known | Watched(folds: nat)

  function LifeOf(log: seq<Event>, id: string): Life {
    if log == [] then Absent
    else Lived(LifeOf(log[..|log| - 1], id), log[|log| - 1], id)
  }

  function Lived(life: Life, e: Event, id: string): Life {
    if e.id != id then life
    else
      match e
      case Registered(_) => if life.Absent? then Known else life
      case Sighted(_, _) => if life.Absent? then Absent else Watched(0)
      case Folded(_, _) => if life.Watched? then Watched(life.folds + 1) else life
      case Evicted(_) => Absent
      case Emitted(_) => life
  }

  /** The arrivals folded since the worker's last first sighting, that one included. */
  function Arrivals(log: seq<Event>, id: string): seq<real> {
    if log == [] then []
    else
      var before, e := Arrivals(log[..|log| - 1], id), log[|log| - 1];
      if e.id != id then before
      else
        match e
        case Sighted(_, at) => [at]
        case Folded(_, at) => before + [at]
        case _ => before
  }

  /** The worker whose eviction still waits for its event. */
  function Pending(log: seq<Event>): seq<string> {
    if log == [] then []
    else
      match log[|log| - 1]
      case Evicted(id) => [id]
      case Emitted(_) => []
      case _ => Pending(log[..|log| - 1])
  }

  /** The worker was sighted in its present life and its arrivals since then rise strictly;
      with a death threshold that is not negative, two of them were folded. */
  ghost predicate Matured(cfg: Config, log: seq<Event>, id: string) {
    && LifeOf(log, id).Watched?
    && Increasing(Arrivals(log, id))
    && (cfg.phiDead >= 0.0 ==> LifeOf(log, id).folds >= 2)
  }

  /** Every eviction ends a matured life of its own, and every event belongs to the eviction
      just before it. */
  ghost predicate LogOk(cfg: Config, log: seq<Event>) {
    && (forall j: nat :: j < |log| && log[j].Evicted? ==> Matured(cfg, log[..j], log[j].id) && Pending(log[..j]) == [])
    && (forall j: nat :: j < |log| && log[j].Emitted? ==> Pending(log[..j]) == [log[j].id])
  }

  // ---------- gaps between arrivals ----------

  function Diffs(a: seq<real>): (d: seq<real>)
    ensures |d| == if a == [] then 0 else |a| - 1
  {
    seq(if a == [] then 0 else |a| - 1, i requires 0 <= i && i + 1 < |a| => a[i + 1] - a[i])
  }

  ghost predicate Increasing(a: seq<real>) {
    forall i: nat, j: nat :: i < j < |a| ==> a[i] < a[j]
  }

  // ---------- the invariant ----------

  /** The window holds the last gaps between the arrivals. */
  ghost predicate Tracks(size: nat, e: Entry, a: seq<real>) {
    && a != [] && Increasing(a) && e.lastApplied == a[|a| - 1]
    && e.gaps == LastOf(Diffs(a), size)
  }

  /** What the last verdict left: no corpse, and no suspect without a score to match. */
  ghost predicate StateOk(cfg: Config, e: Entry, scanned: real)
    requires cfg.nm.sqrt2 > 0.0
  {
    e.state != Dead && (e.state == Suspect ==> ScoreOf(cfg, e, scanned) > cfg.phiSuspect)
  }

  ghost predicate EntryOk(cfg: Config, p: Plane, id: string)
    requires cfg.nm.sqrt2 > 0.0 && id in p.entries
  {
    && LifeOf(p.log, id).Watched?
    && Tracks(cfg.windowSize, p.entries[id], Arrivals(p.log, id))
    && StateOk(cfg, p.entries[id], p.scanned)
  }

  ghost predicate DoomedOk(cfg: Config, p: Plane, deaths: seq<string>) {
    && DistinctStrings(deaths)
    && forall id :: id in deaths ==> id !in p.entries && Matured(cfg, p.log, id)
  }

  ghost predicate StageOk(cfg: Config, p: Plane) {
    match p.stage
    case Idle => Pending(p.log) == []
    case Snapped(snapshot) =>
      Pending(p.log) == [] && DistinctIds(snapshot) && forall w :: w in snapshot ==> LifeOf(p.log, w.id) != Absent
    case Burying(deaths) => Pending(p.log) == [] && deaths != [] && DoomedOk(cfg, p, deaths)
    case Emitting(id, rest) => Pending(p.log) == [id] && DoomedOk(cfg, p, rest)
  }

  ghost predicate PlaneInv(cfg: Config, p: Plane)
    requires cfg.nm.sqrt2 > 0.0
  {
    && LogOk(cfg, p.log)
    && (forall id :: id in p.facts ==> LifeOf(p.log, id) != Absent)
    && (forall id :: id in p.entries ==> EntryOk(cfg, p, id))
    && StageOk(cfg, p)
  }

  /** All the detector asks of its configuration. */
  predicate ConfigOk(cfg: Config) {
    cfg.nm.sqrt2 > 0.0 && cfg.windowSize > 0
  }

  // ---------- appending to the log ----------

  lemma Append(log: seq<Event>, e: Event, id: string)
    ensures LifeOf(log + [e], id) == Lived(LifeOf(log, id), e, id)
    ensures e.id != id || !(e.Sighted? || e.Folded?) ==> Arrivals(log + [e], id) == Arrivals(log, id)
    ensures e.Folded? && e.id == id ==> Arrivals(log + [e], id) == Arrivals(log, id) + [e.at]
    ensures e.Sighted? && e.id == id ==> Arrivals(log + [e], id) == [e.at]
    ensures Pending(log + [e]) == match e case Evicted(i) => [i] case Emitted(_) => [] case _ => Pending(log)
  {
    assert (log + [e])[..|log|] == log;
  }

  lemma AppendKeepsLogOk(cfg: Config, log: seq<Event>, e: Event)
    requires LogOk(cfg, log)
    requires e.Evicted? ==> Matured(cfg, log, e.id) && Pending(log) == []
    requires e.Emitted? ==> Pending(log) == [e.id]
    ensures LogOk(cfg, log + [e])
  {
    assert (log + [e])[..|log|] == log;
    assert forall j: nat :: j < |log| ==> (log + [e])[..j] == log[..j];
  }

  /** A watched worker's folds are its arrivals since the sighting. */
  lemma {:induction false} WatchedArrivals(log: seq<Event>, id: string)
    requires LifeOf(log, id).Watched?
    ensures |Arrivals(log, id)| == LifeOf(log, id).folds + 1
  {
    var n := |log| - 1;
    if LifeOf(log[..n], id).Watched? { WatchedArrivals(log[..n], id); }
  }
}
