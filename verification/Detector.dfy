/** The detector object: per-worker entries with their ring buffers, and the three-phase
    scan against the registry. */
module Detector {
  import opened Window
  import opened Phi
  import opened Registry
  import opened Scan

  datatype DeadEvent = DeadEvent(workerID: string, at: real)

  class DetectorEntry {
    var state: State
    const window: SlidingWindow
    var lastApplied: real

    ghost function Repr(): set<object> {
      {this, window, window.buf}
    }

    ghost predicate Valid(cfg: Config)
      reads window, window.buf
    {
      window.Valid() && window.buf.Length == cfg.windowSize
    }

    ghost function Value(): Entry
      reads this, window
    {
      Entry(state, window.gaps, lastApplied)
    }

    /** The object holds the entry `v`. */
    ghost predicate Shows(cfg: Config, v: Entry)
      reads this, window, window.buf
    {
      Valid(cfg) && Value() == v
    }

    constructor (windowSize: nat, lastSeen: real)
      ensures fresh(Repr()) && window.Valid() && window.buf.Length == windowSize
      ensures Value() == Born(lastSeen)
    {
      state := Alive;
      window := new SlidingWindow(windowSize);
      lastApplied := lastSeen;
    }

    /** The suspicion score of the silence up to `now`. */
    method ComputePhi(nm: Numerics, now: real) returns (phi: real)
      requires window.Valid() && nm.sqrt2 > 0.0
      ensures phi == Score(nm, Value().gaps, Value().lastApplied, now)
    {
      var count := window.Count();
      if count < 2 {
        return 0.0;
      }
      var mean := window.ComputeMean();
      var variance := window.ComputeVariance();
      phi := Capped(nm, Tail(nm, mean, variance, now - lastApplied));
    }

    /** Steps (1) to (3) of a scan for one known worker: fold a strictly newer arrival,
        score the silence, advance the state machine. */
    method Observe(cfg: Config, lastSeen: real, now: real)
      requires Valid(cfg) && cfg.windowSize > 0 && cfg.nm.sqrt2 > 0.0
      modifies Repr()
      ensures Valid(cfg) && Value() == Scored(cfg, old(Value()), lastSeen, now)
    {
      FoldArrival(cfg, lastSeen);
      var phi := ComputePhi(cfg.nm, now);
      match state {
        case Alive =>
          if phi > cfg.phiDead {
            state := Dead;
          } else if phi > cfg.phiSuspect {
            state := Suspect;
          }
        case Suspect =>
          if phi > cfg.phiDead {
            state := Dead;
          } else if phi <= cfg.phiSuspect {
            state := Alive;
          }
        case Dead =>
      }
    }

    method FoldArrival(cfg: Config, lastSeen: real)
      requires Valid(cfg) && cfg.windowSize > 0
      modifies Repr()
      ensures Valid(cfg) && Value() == Fold(cfg, old(Value()), lastSeen)
    {
      if lastSeen > lastApplied {
        var gap := lastSeen - lastApplied;
        window.Push(gap);
        assert window.gaps == Fold(cfg, old(Value()), lastSeen).gaps;
        lastApplied := lastSeen;
      }
    }
  }

  /** The entries are objects, each with a window and a buffer of its own; `values` is
      what they hold. */
  class Detector {
    const cfg: Config
    const reg: WorkerRegistry
    var entries: map<string, DetectorEntry>
    var events: seq<DeadEvent>
    ghost var values: map<string, Entry>
    ghost var Repr: set<object>

    /** No object of the one is an object of the other. */
    ghost predicate Apart(e: DetectorEntry, f: DetectorEntry) {
      e != f && e.window != f.window && e.window.buf != f.window.buf
    }

    /** Nothing of the registry is in `Repr`. */
    ghost predicate OnlyEntries()
      reads this`Repr
    {
      forall o :: o in Repr ==> o is DetectorEntry || o is SlidingWindow || o is array<real>
    }

    /** Every entry has a footprint of its own inside `Repr`. */
    ghost predicate Separate()
      reads this`Repr, this`entries
    {
      && (forall id :: id in entries ==> entries[id].Repr() <= Repr)
      && (forall id, other :: id in entries && other in entries && id != other ==> Apart(entries[id], entries[other]))
    }

    /** The entries hold `values`. */
    ghost predicate Shown()
      requires Separate()
      reads this`Repr, this`entries, this`values, Repr
    {
      values.Keys == entries.Keys && forall id :: id in entries ==> entries[id].Shows(cfg, values[id])
    }

    ghost predicate Valid()
      reads this`Repr, this`entries, this`values, Repr
    {
      cfg.windowSize > 0 && cfg.nm.sqrt2 > 0.0 && OnlyEntries() && Separate() && Shown()
    }

    constructor (reg: WorkerRegistry, cfg: Config)
      requires cfg.windowSize > 0 && cfg.nm.sqrt2 > 0.0
      ensures Valid() && this.reg == reg && this.cfg == cfg && entries == map[] && events == []
    {
      this.reg, this.cfg := reg, cfg;
      entries, events, values, Repr := map[], [], map[], {};
    }

    /** First sighting. */
    method Admit(w: WorkerInfo)
      requires Valid() && w.id !in entries
      modifies this`entries, this`values, this`Repr
      ensures Valid() && values == old(values)[w.id := Born(w.lastSeen)]
      ensures fresh(Repr - old(Repr))
    {
      var e := new DetectorEntry(cfg.windowSize, w.lastSeen);
      Insert(w.id, e, Born(w.lastSeen));
    }

    /** Stores an entry whose objects nobody else holds. */
    method Insert(id: string, e: DetectorEntry, ghost v: Entry)
      requires Valid() && id !in entries && e.Shows(cfg, v) && e.Repr() !! Repr
      modifies this`entries, this`values, this`Repr
      ensures Valid() && values == old(values)[id := v] && Repr == old(Repr) + e.Repr()
    {
      assert forall other :: other in entries ==> Apart(entries[other], e) && Apart(e, entries[other]);
      entries := entries[id := e];
      values := values[id := v];
      Repr := Repr + e.Repr();
      assert OnlyEntries() && Separate();
    }

    /** Forgets a worker; its objects are garbage. */
    method Drop(id: string)
      requires Valid()
      modifies this`entries, this`values
      ensures Valid() && values == old(values) - {id}
    {
      entries := entries - {id};
      values := values - {id};
    }

    /** A known worker: its entry moves in place, all others stay as they are. */
    method Observe(w: WorkerInfo, now: real)
      requires Valid() && w.id in entries
      modifies this`values, entries[w.id].Repr()
      ensures Valid() && values == old(values)[w.id := Scored(cfg, old(values)[w.id], w.lastSeen, now)]
      ensures entries[w.id].state == values[w.id].state
    {
      var e := entries[w.id];
      e.Observe(cfg, w.lastSeen, now);
      values := values[w.id := Scored(cfg, values[w.id], w.lastSeen, now)];
      forall id | id in entries ensures entries[id].Shows(cfg, values[id]) {
        if id != w.id { assert Apart(entries[id], e); }
      }
    }

    /** One turn of the scan. */
    method JudgeOne(w: WorkerInfo, now: real, deaths: seq<string>) returns (deaths': seq<string>)
      requires Valid()
      modifies this`entries, this`values, this`Repr, Repr
      ensures Valid() && fresh(Repr - old(Repr))
      ensures Progress(values, deaths') == ScanWorker(cfg, Progress(old(values), deaths), w, now)
    {
      deaths' := deaths;
      ghost var was := values;
      if w.id !in entries {
        Admit(w);
      } else {
        Observe(w, now);
        assert values == was[w.id := Scored(cfg, was[w.id], w.lastSeen, now)];
        assert values - {w.id} == was - {w.id};
        if entries[w.id].state == Dead {
          deaths' := deaths + [w.id];
          Drop(w.id);
        }
      }
    }

    /** Drops the entries of vanished workers. */
    method ReapUnseen(seen: set<string>)
      requires Valid()
      modifies this`entries, this`values
      ensures Valid() && values == Reap(old(values), seen)
    {
      var todo := entries.Keys;
      assert Reap(values, seen + todo) == values;
      while todo != {}
        invariant Valid() && values == Reap(old(values), seen + todo)
        decreases todo
      {
        var id :| id in todo;
        ReapStep(values, old(values), seen, todo, id);
        todo := todo - {id};
        if id !in seen {
          Drop(id);
        }
      }
      assert seen + todo == seen;
    }

    /** Phase 2: every worker of the snapshot, then the reaping of vanished ones. */
    method JudgeAll(snapshot: seq<WorkerInfo>, now: real) returns (deaths: seq<string>)
      requires Valid()
      modifies this`entries, this`values, this`Repr, Repr
      ensures Valid() && fresh(Repr - old(Repr))
      ensures Progress(values, deaths) == Judge(cfg, old(values), snapshot, now)
    {
      deaths := [];
      var seen: set<string> := {};
      ghost var was := values;
      for i := 0 to |snapshot|
        invariant Valid() && fresh(Repr - old(Repr))
        invariant ScannedUpTo(cfg, was, snapshot[..i], now, Progress(values, deaths), seen)
      {
        ScanOneMore(cfg, was, snapshot, i, now, Progress(values, deaths), seen);
        seen := seen + {snapshot[i].id};
        deaths := JudgeOne(snapshot[i], now, deaths);
      }
      assert snapshot[..|snapshot|] == snapshot;
      ReapUnseen(seen);
    }

    /** Phase 2 as the scan sees it: the registry stands apart. */
    method Judgement(snapshot: seq<WorkerInfo>, now: real) returns (deaths: seq<string>)
      requires Valid() && reg.Valid()
      modifies this`entries, this`values, this`Repr, Repr
      ensures Valid() && fresh(Repr - old(Repr))
      ensures reg.Valid() && reg.facts == old(reg.facts)
      ensures Progress(values, deaths) == Judge(cfg, old(values), snapshot, now)
    {
      assert reg !in Repr;
      deaths := JudgeAll(snapshot, now);
    }

    /** Evict one dead worker, then emit its event. */
    method BuryOne(id: string, now: real)
      requires reg.Valid()
      modifies this`events, reg
      ensures reg.Valid() && reg.facts == old(reg.facts) - {id}
      ensures events == old(events) + [DeadEvent(id, now)]
    {
      var existed := reg.Deregister(id);
      events := events + [DeadEvent(id, now)];
    }

    /** Phase 3: every death, in scan order. */
    method Bury(deaths: seq<string>, now: real)
      requires Valid() && reg.Valid()
      modifies this`events, reg
      ensures Valid() && values == old(values)
      ensures reg.Valid() && events == old(events) + EventsOf(deaths, now)
      ensures reg.facts == old(reg.facts) - SetOf(deaths)
    {
      ghost var facts, emitted := reg.facts, events;
      assert reg !in Repr;
      for i := 0 to |deaths|
        invariant reg.Valid() && Buried(facts, reg.facts, emitted, events, deaths[..i], now)
      {
        BuryOne(deaths[i], now);
        BuriedOneMore(facts, emitted, deaths, i, now);
      }
      assert deaths[..|deaths|] == deaths;
    }

    /** One scan: snapshot the facts, judge, evict and emit. */
    method ScanOnce(now: real) returns (ghost snapshot: seq<WorkerInfo>)
      requires Valid() && reg.Valid()
      modifies this`entries, this`values, this`events, this`Repr, Repr, reg
      ensures Valid() && reg.Valid()
      ensures IsSnapshot(snapshot, old(reg.facts))
      ensures
        var p := Judge(cfg, old(values), snapshot, now);
        && values == p.entries
        && events == old(events) + EventsOf(p.deaths, now)
        && reg.facts == old(reg.facts) - SetOf(p.deaths)
        && |events| == |old(events)| + |p.deaths|
        && forall i: nat :: i < |p.deaths| ==> events[|old(events)| + i] == DeadEvent(p.deaths[i], now)
    {
      var facts := reg.ListWorkers();
      snapshot := facts;
      var deaths := Judgement(facts, now);
      Bury(deaths, now);
    }
  }

  /** Where the loop of phase 2 stands after `done`. */
  ghost predicate ScannedUpTo(cfg: Config, entries: map<string, Entry>, done: seq<WorkerInfo>, now: real,
                              p: Progress, seen: set<string>)
    requires cfg.nm.sqrt2 > 0.0
  {
    p == ScanAll(cfg, entries, done, now) && seen == IdsOf(done)
  }

  /** One turn of that loop. */
  lemma ScanOneMore(cfg: Config, entries: map<string, Entry>, snapshot: seq<WorkerInfo>, i: nat, now: real,
                    p: Progress, seen: set<string>)
    requires cfg.nm.sqrt2 > 0.0 && i < |snapshot| && ScannedUpTo(cfg, entries, snapshot[..i], now, p, seen)
    ensures ScannedUpTo(cfg, entries, snapshot[..i + 1], now,
                        ScanWorker(cfg, p, snapshot[i], now), seen + {snapshot[i].id})
  {
    assert snapshot[..i + 1] == snapshot[..i] + [snapshot[i]];
    assert snapshot[..i + 1][..i] == snapshot[..i];
  }

  /** One turn of the reaping loop. */
  lemma ReapStep(now: map<string, Entry>, was: map<string, Entry>, seen: set<string>, todo: set<string>, id: string)
    requires now == Reap(was, seen + todo) && id in todo
    ensures (if id in seen then now else now - {id}) == Reap(was, seen + (todo - {id}))
  {
  }

  /** What phase 3 has done once `deaths` are buried. */
  predicate Buried(facts: map<string, WorkerInfo>, facts': map<string, WorkerInfo>,
                   events: seq<DeadEvent>, events': seq<DeadEvent>, deaths: seq<string>, now: real) {
    facts' == facts - SetOf(deaths) && events' == events + EventsOf(deaths, now)
  }

  lemma BuriedOneMore(facts: map<string, WorkerInfo>, events: seq<DeadEvent>, deaths: seq<string>, i: nat, now: real)
    requires i < |deaths|
    ensures forall facts', events' :: Buried(facts, facts', events, events', deaths[..i], now) ==>
              Buried(facts, facts' - {deaths[i]}, events, events' + [DeadEvent(deaths[i], now)], deaths[..i + 1], now)
  {
    assert deaths[..i + 1] == deaths[..i] + [deaths[i]];
    assert SetOf(deaths[..i + 1]) == SetOf(deaths[..i]) + {deaths[i]};
    assert EventsOf(deaths[..i + 1], now) == EventsOf(deaths[..i], now) + [DeadEvent(deaths[i], now)];
  }

  function EventsOf(deaths: seq<string>, now: real): seq<DeadEvent> {
    seq(|deaths|, i requires 0 <= i < |deaths| => DeadEvent(deaths[i], now))
  }
}
