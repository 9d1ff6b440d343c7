/** The control plane's fact store: which workers exist and when each was last heard of.
    Times are passed in, since the clock is the environment's. */
module Registry {

  datatype WorkerInfo = WorkerInfo(id: string, addr: string, capacity: nat, load: real, lastSeen: real)

  /** A snapshot lists every worker once, with its facts as they were. */
  ghost predicate IsSnapshot(out: seq<WorkerInfo>, facts: map<string, WorkerInfo>) {
    && IdsOf(out) == facts.Keys
    && DistinctIds(out)
    && forall w :: w in out ==> w.id in facts && facts[w.id] == w
  }

  function IdsOf(ws: seq<WorkerInfo>): set<string> {
    set w | w in ws :: w.id
  }

  ghost predicate DistinctIds(ws: seq<WorkerInfo>) {
    forall i: nat, j: nat :: i < j < |ws| ==> ws[i].id != ws[j].id
  }

  /** The stored record, changed in place by heartbeats. */
  class WorkerRecord {
    const id: string
    const addr: string
    const capacity: nat
    var load: real
    var lastSeen: real

    function Info(): WorkerInfo
      reads this
    {
      WorkerInfo(id, addr, capacity, load, lastSeen)
    }

    constructor (id: string, addr: string, capacity: nat, now: real)
      ensures Info() == WorkerInfo(id, addr, capacity, 0.0, now)
    {
      this.id, this.addr, this.capacity := id, addr, capacity;
      load, lastSeen := 0.0, now;
    }
  }

  /** `facts` is the abstract value of the store: what each registered worker reported. */
  class WorkerRegistry {
    var workers: map<string, WorkerRecord>
    ghost var facts: map<string, WorkerInfo>

    ghost predicate Valid()
      reads this, workers.Values
    {
      && facts.Keys == workers.Keys
      && forall id :: id in workers ==> workers[id].id == id && workers[id].Info() == facts[id]
    }

    constructor ()
      ensures Valid() && workers == map[] && facts == map[]
    {
      workers, facts := map[], map[];
    }

    /** Upsert: re-registering an id replaces its record. */
    method Register(id: string, addr: string, capacity: nat, now: real)
      requires Valid()
      modifies this
      ensures Valid() && facts == old(facts)[id := WorkerInfo(id, addr, capacity, 0.0, now)]
      ensures fresh(workers.Values - old(workers.Values))
    {
      var w := new WorkerRecord(id, addr, capacity, now);
      workers := workers[id := w];
      facts := facts[id := WorkerInfo(id, addr, capacity, 0.0, now)];
    }

    /** Idempotent: an unknown id is not an error. */
    method Deregister(id: string) returns (existed: bool)
      requires Valid()
      modifies this
      ensures Valid() && existed == (id in old(facts)) && facts == old(facts) - {id}
      ensures workers == old(workers) - {id}
    {
      existed := id in workers;
      workers, facts := workers - {id}, facts - {id};
    }

    /** A beat of an unknown id registers nobody. */
    method Heartbeat(id: string, load: real, now: real) returns (known: bool)
      requires Valid()
      modifies this`facts, workers.Values
      ensures Valid() && known == (id in old(facts))
      ensures facts == if known then old(facts)[id := old(facts)[id].(load := load, lastSeen := now)] else old(facts)
    {
      if id in workers {
        var w := workers[id];
        w.load := load;
        w.lastSeen := now;
        facts := facts[id := facts[id].(load := load, lastSeen := now)];
        return true;
      }
      return false;
    }

    /** Value copies: later beats do not show through. */
    method ListWorkers() returns (out: seq<WorkerInfo>)
      requires Valid()
      ensures IsSnapshot(out, facts)
      ensures forall id :: id in facts ==> facts[id] in out
    {
      out := [];
      var todo := workers.Keys;
      while todo != {}
        invariant todo <= workers.Keys
        invariant IdsOf(out) == workers.Keys - todo && DistinctIds(out)
        invariant forall w :: w in out ==> w.id in facts && facts[w.id] == w
        decreases todo
      {
        var id :| id in todo;
        todo := todo - {id};
        var w := workers[id].Info();
        assert IdsOf(out + [w]) == IdsOf(out) + {id};
        assert forall i: nat :: i < |out| ==> out[i].id in IdsOf(out);
        out := out + [w];
      }
    }
  }
}
