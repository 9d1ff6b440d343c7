/** The objects behind the race: one in-flight record with its latch and its cap-1 channel,
    and the table of all records. Each method body is one critical section. */
module Tracker {
  import opened Rpc
  import opened Budget
  import opened Race
  import opened RaceSafety
  import opened System

  /** What of a record is shared between goroutines: guarded counters, latch, channel. */
  datatype Shared = Shared(c: Counters, claimed: bool, buffer: seq<AttemptResult>)

  function SharedOf(r: Record): Shared {
    Shared(r.c, r.claimed, r.buffer)
  }

  /** First wins: the effect of `settle`. */
  function Settled(s: Shared, r: AttemptResult): Shared {
    if s.claimed then s else s.(claimed := true, buffer := [r])
  }

  class Inflight {
    const req: Request
    var assignee: string
    var attempts: int
    var dispatched: int
    var tried: set<string>
    var claimed: bool
    var result: seq<AttemptResult>

    ghost function Guarded(): Counters
      reads this`assignee, this`attempts, this`dispatched, this`tried
    {
      Counters(assignee, attempts, dispatched, tried)
    }

    ghost function State(): Shared
      reads this
    {
      Shared(Guarded(), claimed, result)
    }

    /** The object holds the shared part of `r`. */
    ghost predicate Shows(r: Record)
      reads this
    {
      req == r.req && State() == SharedOf(r)
    }

    ghost predicate Valid()
      reads this
    {
      |result| <= 1 && (!claimed ==> result == [])
    }

    constructor (req: Request, workerID: string)
      ensures this.req == req && State() == Shared(Admitted(workerID), false, [])
      ensures assignee == workerID && attempts == 1 && dispatched == 1 && tried == {} && !claimed && result == []
    {
      this.req := req;
      assignee, attempts, dispatched, tried := workerID, 1, 1, {};
      claimed, result := false, [];
    }

    /** Publishes a result, first-wins: the latch decides, the channel only carries. */
    method Settle(r: AttemptResult) returns (won: bool)
      requires Valid()
      modifies this`claimed, this`result
      ensures Valid() && won == !old(claimed)
      ensures State() == Settled(old(State()), r)
      ensures claimed && result == if won then [r] else old(result)
    {
      if claimed {
        return false;
      }
      claimed := true;
      result := result + [r];
      return true;
    }

    /** The handler's receive. */
    method Receive() returns (r: AttemptResult)
      requires Valid() && result != []
      modifies this`result
      ensures Valid() && old(result) == [r] && State() == old(State()).(buffer := [])
    {
      r := result[0];
      result := result[1..];
    }

    /** A claim for another worker; an attempt that is still out stays counted. */
    method ClaimFor(workerID: string)
      modifies this`assignee, this`attempts, this`dispatched
      ensures Guarded() == Claim(old(Guarded()), workerID)
      ensures assignee == workerID && attempts == old(attempts) + 1 && dispatched == old(dispatched) + 1
    {
      assignee := workerID;
      attempts := attempts + 1;
      dispatched := dispatched + 1;
    }

    /** The locked region of `attemptFailed`: book the failure, pick an untried replacement
        while budget and candidates last, and read both counters before the unlock. */
    method FailUnderLock(workerID: string, candidates: seq<Worker>)
      returns (replacement: Option<Worker>, exhausted: bool, spent: int)
      modifies this`assignee, this`attempts, this`dispatched, this`tried
      ensures MayReplace(Fail(old(Guarded()), workerID), candidates, replacement)
      ensures Guarded() == AfterFailure(old(Guarded()), workerID, replacement)
      ensures exhausted == (attempts == 0) && spent == dispatched
      ensures tried == old(tried) + {workerID}
      ensures replacement.Some? <==> old(dispatched) < 3 && exists w :: w in candidates && w.id !in tried
      ensures
        if replacement.Some? then
          && replacement.value in candidates && replacement.value.id !in tried && assignee == replacement.value.id
          && attempts == old(attempts) && dispatched == old(dispatched) + 1
        else assignee == old(assignee) && attempts == old(attempts) - 1 && dispatched == old(dispatched)
    {
      ReplacementExactly(Fail(Guarded(), workerID), candidates);
      replacement := None;
      attempts := attempts - 1;
      tried := tried + {workerID};
      if dispatched < MAX_ATTEMPTS {
        var eligible := Filter(candidates, tried);
        if |eligible| > 0 {
          var i: nat :| i < |eligible|;
          replacement := Some(eligible[i]);
          assignee := eligible[i].id;
          attempts := attempts + 1;
          dispatched := dispatched + 1;
        }
      }
      exhausted, spent := attempts == 0, dispatched;
    }
  }

  /** The filtering loop shared by `healthyExcept` and `attemptFailed`. */
  method Filter(ws: seq<Worker>, ids: set<string>) returns (out: seq<Worker>)
    ensures out == Without(ws, ids)
  {
    out := [];
    for i := 0 to |ws|
      invariant out == Without(ws[..i], ids)
    {
      assert ws[..i + 1][..i] == ws[..i];
      if ws[i].id !in ids {
        out := out + [ws[i]];
      }
    }
    assert ws[..|ws|] == ws;
  }

  /** `settle` is the compare-and-swap and, for the winner, the send, with nothing in
      between that could block it. */
  lemma SettleIsCasThenSend(r: Record, k: nat)
    requires Inv(r) && Enabled(r, Cas(k))
    ensures
      var r1 := Apply(r, Cas(k));
      if r.claimed then SharedOf(r1) == Settled(SharedOf(r), r.atts[k].pc.result)
      else Enabled(r1, Send(k)) && SharedOf(Apply(r1, Send(k))) == Settled(SharedOf(r), r.atts[k].pc.result)
  {
    StepKeepsInv(r, Cas(k));
    var r1 := Apply(r, Cas(k));
    if !r.claimed { WinnerFacesEmptyBuffer(r1, k); }
  }

  // ---------- admission and departure ----------

  /** The table with a new record for `id`, unless there is one already. */
  function Entered(states: map<string, Shared>, id: string, workerID: string): map<string, Shared> {
    if id in states then states else states[id := Shared(Admitted(workerID), false, [])]
  }

  /** What the table of the step system shares. */
  function SharedTable(s: Sys): map<string, Shared> {
    map id | id in s.table && s.table[id] < |s.recs| :: SharedOf(s.recs[s.table[id]])
  }

  /** Every entry of the table points to a record. */
  predicate Resolves(s: Sys) {
    forall id :: id in s.table ==> s.table[id] < |s.recs|
  }

  lemma TableGains(s: Sys, s': Sys, id: string, r: Record)
    requires Resolves(s) && id !in s.table
    requires s'.recs == s.recs + [r] && s'.table == s.table[id := |s.recs|]
    ensures id !in SharedTable(s) && SharedTable(s') == SharedTable(s)[id := SharedOf(r)]
  {
  }

  lemma TableLoses(s: Sys, s': Sys, id: string)
    requires s'.recs == s.recs && s'.table == s.table - {id}
    ensures SharedTable(s') == SharedTable(s) - {id}
  {
  }

  /** The admitting step does to the table what `Register` does to the objects: refusal for an
      id in flight, a new record otherwise. */
  lemma AdmittingIsRegister(s: Sys, h: nat)
    requires TableOk(s) && CanStep(s, Admit(h))
    ensures
      var req, w, s' := s.handlers[h].req, s.handlers[h].worker, After(s, Admit(h));
      && SharedTable(s') == Entered(SharedTable(s), req.id, w.id)
      && (if req.id in SharedTable(s)
          then
            && s'.handlers[h].Returned? && s'.handlers[h].reply.Refused?
            && CodeOf(s'.handlers[h].reply.err) == AlreadyExists
          else s'.handlers[h] == Waiting(req, |s.recs|) && s'.table[req.id] == |s.recs|)
  {
    var req, w, s' := s.handlers[h].req, s.handlers[h].worker, After(s, Admit(h));
    assert Resolves(s);
    if req.id in s.table {
      assert s'.table == s.table && s'.recs == s.recs;
    } else {
      TableGains(s, s', req.id, NewRecord(req, w));
    }
  }

  /** And the leaving step does what `Unregister` does. */
  lemma LeavingIsUnregister(s: Sys, h: nat)
    requires CanStep(s, Unregister(h))
    ensures SharedTable(After(s, Unregister(h))) == SharedTable(s) - {s.handlers[h].req.id}
  {
    TableLoses(s, After(s, Unregister(h)), s.handlers[h].req.id);
  }

  /** One rescue: the record, and the worker it is re-dispatched to. */
  datatype Job = Job(reqID: string, ih: Inflight, target: Worker)

  /** One job per pick, aimed where the pick says: as many jobs as picks, together for
      all the picked ids, so none twice. */
  ghost predicate JobsMatch(jobs: seq<Job>, requests: map<string, Inflight>, picks: map<string, Worker>) {
    && |jobs| == |picks|
    && (set job | job in jobs :: job.reqID) == picks.Keys
    && (forall job :: job in jobs ==>
          && job.reqID in requests && job.ih == requests[job.reqID]
          && job.reqID in picks && job.target == picks[job.reqID])
  }

  lemma JobsExtend(jobs: seq<Job>, requests: map<string, Inflight>, picks: map<string, Worker>, job: Job)
    requires JobsMatch(jobs, requests, picks)
    requires job.reqID in requests && job.ih == requests[job.reqID] && job.reqID !in picks
    ensures JobsMatch(jobs + [job], requests, picks[job.reqID := job.target])
  {
    assert (set j | j in jobs + [job] :: j.reqID) == (set j | j in jobs :: j.reqID) + {job.reqID};
  }

  class RequestTracker {
    var requests: map<string, Inflight>

    ghost predicate Valid()
      reads this, requests.Values
    {
      forall id :: id in requests ==> requests[id].req.id == id && requests[id].Valid()
    }

    ghost function Table(): map<string, Counters>
      reads this, requests.Values
    {
      map id | id in requests :: requests[id].Guarded()
    }

    ghost function States(): map<string, Shared>
      reads this, requests.Values
    {
      map id | id in requests :: requests[id].State()
    }

    constructor ()
      ensures Valid() && requests == map[]
    {
      requests := map[];
    }

    method Register(req: Request, workerID: string) returns (r: Result<Inflight>)
      requires Valid()
      modifies this
      ensures Valid()
      ensures States() == Entered(old(States()), req.id, workerID)
      ensures old(req.id in requests) ==>
                r.Failure? && CodeOf(r.error) == AlreadyExists && requests == old(requests)
      ensures old(req.id !in requests) ==>
                && r.Success? && fresh(r.value) && r.value.req == req
                && r.value.State() == Shared(Admitted(workerID), false, [])
                && requests == old(requests)[req.id := r.value]
    {
      if req.id in requests {
        return Failure(Status(AlreadyExists, "request already in flight"));
      }
      var ih := new Inflight(req, workerID);
      requests := requests[req.id := ih];
      return Success(ih);
    }

    method Unregister(reqID: string)
      requires Valid()
      modifies this
      ensures Valid() && requests == old(requests) - {reqID}
      ensures States() == old(States()) - {reqID}
    {
      requests := requests - {reqID};
    }

    /** One claim of the scan: in the whole table only the entry of `reqID` changes. */
    method ClaimFor(reqID: string, ih: Inflight, target: Worker)
      requires Valid() && reqID in requests && requests[reqID] == ih
      modifies ih`assignee, ih`attempts, ih`dispatched
      ensures Valid()
      ensures Table() == old(Table())[reqID := Claim(old(Table())[reqID], target.id)]
    {
      ghost var was := Table();
      ih.ClaimFor(target.id);
      assert forall id :: id in requests && id != reqID ==> requests[id].Guarded() == was[id];
    }

    /** One turn of the scan. */
    method ScanEntry(reqID: string, departed: set<string>, healthy: seq<Worker>, jobs: seq<Job>,
                     ghost was: map<string, Counters>, ghost todo: set<string>, ghost picks: map<string, Worker>)
      returns (jobs': seq<Job>, ghost picks': map<string, Worker>)
      requires Valid() && healthy != [] && reqID in requests && reqID in todo
      requires Scanned(was, Table(), todo, departed, healthy, picks) && JobsMatch(jobs, requests, picks)
      modifies requests.Values`assignee, requests.Values`attempts, requests.Values`dispatched
      ensures Valid()
      ensures Scanned(was, Table(), todo - {reqID}, departed, healthy, picks') && JobsMatch(jobs', requests, picks')
    {
      var ih := requests[reqID];
      assert ih in requests.Values && reqID in Table();
      if ih.assignee in departed && ih.dispatched < MAX_ATTEMPTS {
        var i: nat :| i < |healthy|;
        ScanVictim(was, Table(), todo, departed, healthy, picks, reqID, healthy[i]);
        JobsExtend(jobs, requests, picks, Job(reqID, ih, healthy[i]));
        ClaimFor(reqID, ih, healthy[i]);
        jobs' := jobs + [Job(reqID, ih, healthy[i])];
        picks' := picks[reqID := healthy[i]];
      } else {
        ScanBystander(was, Table(), todo, departed, healthy, picks, reqID);
        jobs', picks' := jobs, picks;
      }
    }

    /** Phase 2 of `rerouteFrom`: every stranded request with
        budget left is claimed for one healthy worker and gets one job; the rest of the
        table, the latches and the channels stay as they are. */
    method ClaimStranded(departed: set<string>, healthy: seq<Worker>)
      returns (jobs: seq<Job>, ghost picks: map<string, Worker>)
      requires Valid() && healthy != []
      modifies requests.Values`assignee, requests.Values`attempts, requests.Values`dispatched
      ensures Valid()
      ensures picks.Keys == Victims(old(Table()), departed)
      ensures forall id :: id in picks ==> picks[id] in healthy
      ensures Table() == RerouteAll(old(Table()), picks)
      ensures JobsMatch(jobs, requests, picks)
    {
      jobs, picks := [], map[];
      ghost var was := Table();
      var todo := requests.Keys;
      while todo != {}
        invariant todo <= requests.Keys
        invariant Valid()
        invariant Scanned(was, Table(), todo, departed, healthy, picks)
        invariant JobsMatch(jobs, requests, picks)
        decreases todo
      {
        var reqID :| reqID in todo;
        jobs, picks := ScanEntry(reqID, departed, healthy, jobs, was, todo, picks);
        todo := todo - {reqID};
      }
    }
  }
}
