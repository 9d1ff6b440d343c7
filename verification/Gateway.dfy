/** The gateway object: routing, the two failure paths, the poll, and a client call. The
    methods that act on one record also return, as ghosts, the run of the race they are. */
module Gateway {
  import opened Rpc
  import opened Budget
  import opened Race
  import opened RaceSafety
  import opened RaceTheorems
  import opened Calm
  import opened System
  import opened Tracker

  /** The attempt goroutine of attempt `k` has run to its end, with all it re-dispatched;
      the other attempts of the record did not move. */
  ghost predicate RanToEnd(r: Record, k: nat, r': Record) {
    && |r.atts| <= |r'.atts| && r'.req == r.req && r'.received == r.received
    && (forall j: nat :: j < |r.atts| && j != k ==> r'.atts[j] == r.atts[j])
    && (forall j: nat :: j < |r'.atts| && (j == k || j >= |r.atts|) ==> r'.atts[j].pc.Done?)
  }

  /** A calm step that takes its candidates from `view` as they are, in order and with their
      addresses. */
  predicate ViewStep(view: seq<Worker>, rpc: string -> Outcome, r: Record, a: Action) {
    && CalmEnabled(IdsOf(view), rpc, r, a)
    && (a.Snapshot? ==> a.candidates == Without(view, {r.atts[a.k].target.id}))
  }

  ghost predicate ViewRun(view: seq<Worker>, rpc: string -> Outcome, r: Record, acts: seq<Action>, r': Record)
    decreases |acts|
  {
    if acts == [] then r == r'
    else ViewStep(view, rpc, r, acts[0]) && ViewRun(view, rpc, Apply(r, acts[0]), acts[1..], r')
  }

  lemma {:induction false} ViewRunIsCalm(view: seq<Worker>, rpc: string -> Outcome,
                                         r: Record, acts: seq<Action>, r': Record)
    requires ViewRun(view, rpc, r, acts, r')
    ensures CalmRun(IdsOf(view), rpc, r, acts, r')
    decreases |acts|
  {
    if acts != [] { ViewRunIsCalm(view, rpc, Apply(r, acts[0]), acts[1..], r'); }
  }

  /** `r` is what becomes of a call for `req` over the view, for some first pick. */
  ghost predicate CallRun(view: seq<Worker>, rpc: string -> Outcome, req: Request, acts: seq<Action>, r: Record) {
    exists w :: w in view && ViewRun(view, rpc, NewRecord(req, w), acts, r) && Quiescent(r)
  }

  /** The result of a call over the view, and how it ends in terms of the fleet alone. */
  ghost predicate CallEnds(view: seq<Worker>, rpc: string -> Outcome, req: Request,
                           acts: seq<Action>, r: Record, result: AttemptResult) {
    && CallRun(view, rpc, req, acts, r)
    && |r.buffer| + |r.received| == 1 && result == ResultOf(r)
    && (AnswersOrFailsRetryably(IdsOf(view), rpc) ==> CallEnding(IdsOf(view), rpc, r))
  }

  /** When the first attempt has run to its end, the one result waits in the channel. */
  lemma CallEndsWell(view: seq<Worker>, rpc: string -> Outcome, req: Request, w: Worker, acts: seq<Action>, r: Record)
    requires w in view && ViewRun(view, rpc, NewRecord(req, w), acts, r)
    requires Inv(r) && RanToEnd(NewRecord(req, w), 0, r)
    ensures CallRun(view, rpc, req, acts, r)
    ensures |r.buffer| == 1 && r.received == [] && r.claimed && ResultOf(r) == r.buffer[0]
    ensures AnswersOrFailsRetryably(IdsOf(view), rpc) ==> CallEnding(IdsOf(view), rpc, r)
  {
    QuiescentMeansAnswered(r);
    CalmStart(IdsOf(view), rpc, req, w);
    ViewRunIsCalm(view, rpc, NewRecord(req, w), acts, r);
    CalmRunKeeps(IdsOf(view), rpc, NewRecord(req, w), acts, r);
    if AnswersOrFailsRetryably(IdsOf(view), rpc) { CalmCallEnds(IdsOf(view), rpc, r); }
  }

  lemma RunPrefix(view: seq<Worker>, rpc: string -> Outcome, r: Record, a: Action, acts: seq<Action>, r': Record)
    requires ViewStep(view, rpc, r, a) && ViewRun(view, rpc, Apply(r, a), acts, r')
    ensures ViewRun(view, rpc, r, [a] + acts, r')
  {
    assert ([a] + acts)[1..] == acts;
  }

  /** An attempt up to its RPC's answer: launched, then returned. */
  lemma RpcReturns(view: seq<Worker>, rpc: string -> Outcome, r: Record, k: nat) returns (b: Record)
    requires Inv(r) && k < |r.atts| && r.atts[k].pc.Owed?
    ensures Inv(b) && b.req == r.req && SharedOf(b) == SharedOf(r) && |b.atts| == |r.atts|
    ensures b.atts[k].target == r.atts[k].target
    ensures b.atts[k].pc == match rpc(r.atts[k].target.id)
                            case Ok(resp) => Settling(Answer(resp, r.atts[k].target.id))
                            case Err(err) => Failed(err)
    ensures forall acts, r' :: ViewRun(view, rpc, b, acts, r') ==>
              ViewRun(view, rpc, r, [Launch(k), Return(k, rpc(r.atts[k].target.id))] + acts, r')
    ensures forall r' :: RanToEnd(b, k, r') ==> RanToEnd(r, k, r')
  {
    var launched, answer := Apply(r, Launch(k)), Return(k, rpc(r.atts[k].target.id));
    b := Apply(launched, answer);
    StepKeepsInv(r, Launch(k));
    StepKeepsInv(launched, answer);
    forall acts, r' | ViewRun(view, rpc, b, acts, r')
      ensures ViewRun(view, rpc, r, [Launch(k), answer] + acts, r')
    {
      RunPrefix(view, rpc, launched, answer, acts, r');
      RunPrefix(view, rpc, r, Launch(k), [answer] + acts, r');
      assert [Launch(k)] + ([answer] + acts) == [Launch(k), answer] + acts;
    }
    assert forall j: nat :: j < |r.atts| && j != k ==> b.atts[j] == r.atts[j];
  }

  /** A retryable failure up to the lock: the look at the latch, then the view snapshot. */
  lemma FailureUpToLock(view: seq<Worker>, rpc: string -> Outcome, r: Record, k: nat, candidates: seq<Worker>)
    requires Inv(r) && k < |r.atts| && r.atts[k].pc.Failed? && !r.claimed && Retryable(r.atts[k].pc.err)
    requires candidates == Without(view, {r.atts[k].target.id})
    ensures
      var held := MoveTo(r, k, Holding(r.atts[k].pc.err, candidates));
      && Inv(held)
      && forall acts, r' :: ViewRun(view, rpc, held, acts, r') ==>
           ViewRun(view, rpc, r, [Check(k), Snapshot(k, candidates)] + acts, r')
  {
    IdsWithout(view, {r.atts[k].target.id});
    var r1 := Apply(r, Check(k));
    StepKeepsInv(r, Check(k));
    StepKeepsInv(r1, Snapshot(k, candidates));
    var held := MoveTo(r, k, Holding(r.atts[k].pc.err, candidates));
    assert Apply(r1, Snapshot(k, candidates)) == held;
    forall acts, r' | ViewRun(view, rpc, held, acts, r')
      ensures ViewRun(view, rpc, r, [Check(k), Snapshot(k, candidates)] + acts, r')
    {
      RunPrefix(view, rpc, r1, Snapshot(k, candidates), acts, r');
      RunPrefix(view, rpc, r, Check(k), [Snapshot(k, candidates)] + acts, r');
      assert [Check(k)] + ([Snapshot(k, candidates)] + acts) == [Check(k), Snapshot(k, candidates)] + acts;
    }
  }

  /** What follows the unlock runs on the goroutine of the failed attempt `k`. */
  lemma UnlockedRanToEnd(held: Record, k: nat, replacement: Option<Worker>, r': Record)
    requires Enabled(held, Lock(k, replacement))
    requires
      var booked := Locked(held, k, replacement);
      if replacement.Some? then RanToEnd(booked, |held.atts|, r') else RanToEnd(booked, k, r')
    ensures RanToEnd(held, k, r')
  {
    var booked := Locked(held, k, replacement);
    assert forall j: nat :: j < |held.atts| && j != k ==> booked.atts[j] == held.atts[j];
    if replacement.Some? { assert booked.atts[k].pc.Done? && r'.atts[k] == booked.atts[k]; }
  }

  lemma EnterThenLeave(requests: map<string, Inflight>, id: string, ih: Inflight)
    requires id !in requests
    ensures requests[id := ih] - {id} == requests
  {
  }

  /** The three ways out of the locked region. */
  ghost predicate Unlocked(r: Record, k: nat, replacement: Option<Worker>, exhausted: bool, result: AttemptResult) {
    && k < |r.atts|
    && match replacement
       case Some(w) => r.atts[|r.atts| - 1].pc.Owed? && r.atts[|r.atts| - 1].target == w
       case None => r.atts[k].pc == if exhausted then Settling(result) else Done
  }

  /** The locked region as a step of the race: what the record looks like after it, and
      that whatever runs from there completes the failed attempt. */
  lemma LockStep(view: seq<Worker>, rpc: string -> Outcome, r: Record, k: nat, replacement: Option<Worker>)
    returns (b: Record)
    requires Inv(r) && Enabled(r, Lock(k, replacement))
    ensures Inv(b) && b.req == r.req
    ensures SharedOf(b) == Shared(AfterFailure(r.c, r.atts[k].target.id, replacement), r.claimed, r.buffer)
    ensures Unlocked(b, k, replacement, b.c.attempts == 0,
                     Fault(ExhaustedAttempts(b.c.dispatched, r.atts[k].pc.err), r.atts[k].target.id))
    ensures |b.atts| == |r.atts| + if replacement.Some? then 1 else 0
    ensures forall acts, r' :: ViewRun(view, rpc, b, acts, r') ==>
              ViewRun(view, rpc, r, [Lock(k, replacement)] + acts, r')
    ensures forall r' :: RanToEnd(b, if replacement.Some? then |r.atts| else k, r') ==> RanToEnd(r, k, r')
  {
    b := Locked(r, k, replacement);
    StepKeepsInv(r, Lock(k, replacement));
    forall acts, r' | ViewRun(view, rpc, b, acts, r')
      ensures ViewRun(view, rpc, r, [Lock(k, replacement)] + acts, r')
    {
      RunPrefix(view, rpc, r, Lock(k, replacement), acts, r');
    }
    forall r' | RanToEnd(b, if replacement.Some? then |r.atts| else k, r') ensures RanToEnd(r, k, r') {
      UnlockedRanToEnd(r, k, replacement, r');
    }
  }

  class Gateway {
    var workers: seq<Worker>
    const tracker: RequestTracker

    constructor ()
      ensures fresh(tracker) && tracker.Valid() && tracker.requests == map[] && workers == []
    {
      workers := [];
      tracker := new RequestTracker();
    }

    method HealthyExcept(exclude: set<string>) returns (out: seq<Worker>)
      ensures out == Without(workers, exclude)
    {
      out := Filter(workers, exclude);
    }

    method PickWorker() returns (r: Result<Worker>)
      ensures workers == [] ==> r.Failure? && CodeOf(r.error) == Unavailable
      ensures workers != [] ==> r.Success? && r.value in workers
    {
      if |workers| == 0 {
        return Failure(Status(Unavailable, "no healthy workers available"));
      }
      var i: nat :| i < |workers|;
      return Success(workers[i]);
    }

    /** Worker ids present in `before` but absent from `latest`. */
    static method DepartedIDs(before: seq<Worker>, latest: seq<Worker>) returns (departed: set<string>)
      ensures departed == IdsOf(before) - IdsOf(latest)
    {
      var alive: set<string> := {};
      for i := 0 to |latest|
        invariant alive == IdsOf(latest[..i])
      {
        alive := alive + {latest[i].id};
        assert latest[..i + 1] == latest[..i] + [latest[i]];
      }
      assert latest[..|latest|] == latest;
      departed := {};
      for i := 0 to |before|
        invariant departed == IdsOf(before[..i]) - alive
      {
        if before[i].id !in alive {
          departed := departed + {before[i].id};
        }
        assert before[..i + 1] == before[..i] + [before[i]];
      }
      assert before[..|before|] == before;
    }

    /** Phases 1 and 2 of the slow path; the jobs are the attempts to launch without locks.
        With nobody healthy the departed set is dropped and nothing changes. */
    method RerouteFrom(departed: set<string>) returns (jobs: seq<Job>, ghost picks: map<string, Worker>)
      requires tracker.Valid()
      modifies tracker.requests.Values`assignee, tracker.requests.Values`attempts, tracker.requests.Values`dispatched
      ensures tracker.Valid()
      ensures JobsMatch(jobs, tracker.requests, picks)
      ensures tracker.Table() == RerouteAll(old(tracker.Table()), picks)
      ensures
        if Without(workers, departed) == [] then picks == map[]
        else
          && picks.Keys == Victims(old(tracker.Table()), departed)
          && (forall id :: id in picks ==> picks[id] in workers && picks[id].id !in departed)
          && Victims(tracker.Table(), departed) == {}
          && Spent(tracker.Table()) == old(Spent(tracker.Table())) + |jobs|
      ensures Without(workers, departed) != [] ==>
                && tracker.Table().Keys == old(tracker.Table()).Keys
                && forall id :: id in tracker.Table() ==>
                     RescuedByNumbers(old(tracker.Table())[id], tracker.Table()[id], departed, PickFor(picks, id))
    {
      ghost var was := tracker.Table();
      var healthy := HealthyExcept(departed);
      if |healthy| == 0 {
        jobs, picks := [], map[];
        NothingToReroute(was);
        assert tracker.Table() == was;
        return;
      }
      jobs, picks := tracker.ClaimStranded(departed, healthy);
      assert tracker.Table() == RerouteAll(was, picks);
      RerouteIsClaim(was, departed, picks);
      RerouteByNumbers(was, departed, picks);
    }

    /** One poll: a failed one keeps the stale view, a successful one swaps it and hands the
        ids that vanished to the slow path. */
    method PollOnce(resp: Option<seq<Worker>>)
      returns (departed: set<string>, jobs: seq<Job>, ghost picks: map<string, Worker>)
      requires tracker.Valid()
      modifies this`workers
      modifies tracker.requests.Values`assignee, tracker.requests.Values`attempts, tracker.requests.Values`dispatched
      ensures tracker.Valid()
      ensures workers == Polled(old(workers), resp)
      ensures resp.None? ==>
                workers == old(workers) && departed == {} && jobs == [] && tracker.Table() == old(tracker.Table())
      ensures resp.Some? ==> workers == resp.value
      ensures departed == IdsOf(old(workers)) - IdsOf(workers)
      ensures tracker.Table() == RerouteAll(old(tracker.Table()), picks) && JobsMatch(jobs, tracker.requests, picks)
      ensures Without(workers, departed) != [] ==> picks.Keys == Victims(old(tracker.Table()), departed)
      ensures forall id :: id in picks ==> picks[id] in workers
      ensures Without(workers, departed) != [] ==>
                && tracker.Table().Keys == old(tracker.Table()).Keys
                && forall id :: id in tracker.Table() ==>
                     RescuedByNumbers(old(tracker.Table())[id], tracker.Table()[id], departed, PickFor(picks, id))
    {
      departed, jobs, picks := {}, [], map[];
      ghost var was := tracker.Table();
      NothingToReroute(was);
      if resp.None? {
        return;
      }
      departed := DepartedIDs(workers, resp.value);
      workers := resp.value;
      assert tracker.Table() == was;
      if |departed| == 0 {
        assert departed == {};
        return;
      }
      jobs, picks := RerouteFrom(departed);
    }

    /** One RPC to one worker; `rpc(id)` is what worker `id` answers. */
    method Attempt(ih: Inflight, target: Worker, rpc: string -> Outcome, ghost r: Record, ghost k: nat)
      returns (ghost acts: seq<Action>, ghost r': Record)
      requires ih.Shows(r) && Inv(r)
      requires k < |r.atts| && r.atts[k].pc.Owed? && r.atts[k].target == target
      modifies ih
      ensures ih.Shows(r') && Inv(r') && ViewRun(workers, rpc, r, acts, r') && RanToEnd(r, k, r')
      decreases MAX_ATTEMPTS - r.c.dispatched, 3
    {
      var outcome := rpc(target.id);
      ghost var r2 := RpcReturns(workers, rpc, r, k);
      match outcome {
        case Err(err) =>
          acts, r' := AttemptFailed(ih, err, target.id, rpc, r2, k);
        case Ok(resp) =>
          acts, r' := SettleWith(ih, Answer(resp, target.id), rpc, r2, k);
      }
      acts := [Launch(k), Return(k, outcome)] + acts;
    }

    /** `settle` at the end of an attempt. */
    method SettleWith(ih: Inflight, result: AttemptResult, rpc: string -> Outcome, ghost r: Record, ghost k: nat)
      returns (ghost acts: seq<Action>, ghost r': Record)
      requires ih.Shows(r) && Inv(r) && k < |r.atts| && r.atts[k].pc == Settling(result)
      modifies ih
      ensures ih.Shows(r') && Inv(r') && ViewRun(workers, rpc, r, acts, r') && RanToEnd(r, k, r')
      ensures r'.c == r.c
    {
      SingleDelivery(r);
      SettleIsCasThenSend(r, k);
      StepKeepsInv(r, Cas(k));
      ghost var r1 := Apply(r, Cas(k));
      var won := ih.Settle(result);
      if won {
        StepKeepsInv(r1, Send(k));
        r' := Apply(r1, Send(k));
        RunPrefix(workers, rpc, r1, Send(k), [], r');
        RunPrefix(workers, rpc, r, Cas(k), [Send(k)], r');
        acts := [Cas(k)] + [Send(k)];
      } else {
        r' := r1;
        RunPrefix(workers, rpc, r, Cas(k), [], r');
        acts := [Cas(k)];
      }
    }

    /** One attempt's failure: nothing for a straggler, the answer for a terminal error, a
        replacement while one is eligible, and the exhaustion error when nobody is left. */
    method AttemptFailed(ih: Inflight, err: Error, workerID: string, rpc: string -> Outcome,
                         ghost r: Record, ghost k: nat)
      returns (ghost acts: seq<Action>, ghost r': Record)
      requires ih.Shows(r) && Inv(r)
      requires k < |r.atts| && r.atts[k].pc == Failed(err) && r.atts[k].target.id == workerID
      modifies ih
      ensures ih.Shows(r') && Inv(r') && ViewRun(workers, rpc, r, acts, r') && RanToEnd(r, k, r')
      decreases MAX_ATTEMPTS - r.c.dispatched, 2
    {
      if ih.claimed {
        StepKeepsInv(r, Check(k));
        RunPrefix(workers, rpc, r, Check(k), [], Apply(r, Check(k)));
        return [Check(k)], Apply(r, Check(k));
      }
      if !Retryable(err) {
        StepKeepsInv(r, Check(k));
        acts, r' := SettleWith(ih, Fault(err, workerID), rpc, Apply(r, Check(k)), k);
        RunPrefix(workers, rpc, r, Check(k), acts, r');
        acts := [Check(k)] + acts;
        return;
      }
      ghost var candidates := Without(workers, {workerID});
      FailureUpToLock(workers, rpc, r, k, candidates);
      acts, r' := ReplaceOrGiveUp(ih, err, workerID, rpc, MoveTo(r, k, Holding(err, candidates)), k);
      acts := [Check(k), Snapshot(k, candidates)] + acts;
    }

    /** The locked region, seen from the race: the object shows what that step shares. */
    method BookFailure(ih: Inflight, workerID: string, candidates: seq<Worker>, ghost r: Record, ghost k: nat)
      returns (replacement: Option<Worker>, exhausted: bool, spent: int)
      requires ih.Shows(r) && k < |r.atts| && r.atts[k].pc.Holding? && r.atts[k].pc.candidates == candidates
      requires r.atts[k].target.id == workerID
      modifies ih
      ensures Enabled(r, Lock(k, replacement)) && ih.req == r.req
      ensures ih.State() == Shared(AfterFailure(r.c, workerID, replacement), r.claimed, r.buffer)
      ensures spent == AfterFailure(r.c, workerID, replacement).dispatched
      ensures exhausted == (AfterFailure(r.c, workerID, replacement).attempts == 0)
    {
      replacement, exhausted, spent := ih.FailUnderLock(workerID, candidates);
    }

    /** The second half of `attemptFailed`: snapshot, locked region, and what follows it. */
    method ReplaceOrGiveUp(ih: Inflight, err: Error, workerID: string, rpc: string -> Outcome,
                           ghost r: Record, ghost k: nat)
      returns (ghost acts: seq<Action>, ghost r': Record)
      requires ih.Shows(r) && Inv(r) && k < |r.atts| && r.atts[k].target.id == workerID
      requires r.atts[k].pc == Holding(err, Without(workers, {workerID}))
      modifies ih
      ensures ih.Shows(r') && Inv(r') && ViewRun(workers, rpc, r, acts, r') && RanToEnd(r, k, r')
      decreases MAX_ATTEMPTS - r.c.dispatched, 1
    {
      var candidates := HealthyExcept({workerID});
      var replacement, exhausted, spent := BookFailure(ih, workerID, candidates, r, k);
      ghost var booked := LockStep(workers, rpc, r, k, replacement);
      acts, r' := FollowUp(ih, replacement, exhausted, Fault(ExhaustedAttempts(spent, err), workerID), rpc, booked, k);
      acts := [Lock(k, replacement)] + acts;
    }

    /** After the unlock: go on with the replacement, surface the exhaustion, or be done. */
    method FollowUp(ih: Inflight, replacement: Option<Worker>, exhausted: bool, result: AttemptResult,
                    rpc: string -> Outcome, ghost r: Record, ghost k: nat)
      returns (ghost acts: seq<Action>, ghost r': Record)
      requires ih.Shows(r) && Inv(r) && Unlocked(r, k, replacement, exhausted, result)
      modifies ih
      ensures ih.Shows(r') && Inv(r') && ViewRun(workers, rpc, r, acts, r')
      ensures RanToEnd(r, if replacement.Some? then |r.atts| - 1 else k, r')
      decreases MAX_ATTEMPTS - r.c.dispatched + (if replacement.Some? then 1 else 0), 0
    {
      if replacement.Some? {
        acts, r' := Attempt(ih, replacement.value, rpc, r, |r.atts| - 1);
      } else if exhausted {
        acts, r' := SettleWith(ih, result, rpc, r, k);
      } else {
        acts, r' := [], r;
      }
    }

    /** Launch the first attempt, then wait for whichever result lands. */
    method AwaitResult(ih: Inflight, worker: Worker, rpc: string -> Outcome)
      returns (result: AttemptResult, ghost acts: seq<Action>, ghost r: Record)
      requires ih.State() == Shared(Admitted(worker.id), false, []) && worker in workers
      modifies ih
      ensures ih.Valid() && CallEnds(workers, rpc, ih.req, acts, r, result)
    {
      NewRecordInv(ih.req, worker);
      acts, r := Attempt(ih, worker, rpc, NewRecord(ih.req, worker), 0);
      CallEndsWell(workers, rpc, ih.req, worker, acts, r);
      result := ih.Receive();
    }

    /** From the registration to the deferred `unregister`. */
    method Serve(req: Request, worker: Worker, rpc: string -> Outcome)
      returns (reply: Reply, ghost acts: seq<Action>, ghost r: Record)
      requires tracker.Valid() && worker in workers
      modifies tracker
      ensures tracker.Valid() && tracker.requests == old(tracker.requests)
      ensures req.id in old(tracker.requests) ==> reply.Refused? && CodeOf(reply.err) == AlreadyExists
      ensures req.id !in old(tracker.requests) ==> reply.Served? && CallEnds(workers, rpc, req, acts, r, reply.result)
    {
      acts, r := [], NewRecord(req, worker);
      ghost var requests := tracker.requests;
      var registered := tracker.Register(req, worker.id);
      if registered.Failure? {
        return Refused(registered.error), acts, r;
      }
      var result;
      result, acts, r := AwaitResult(registered.value, worker, rpc);
      tracker.Unregister(req.id);
      EnterThenLeave(requests, req.id, registered.value);
      reply := Served(result);
    }

    /** A client call over a fleet that holds still while it runs. */
    method Generate(req: Request, rpc: string -> Outcome)
      returns (reply: Reply, ghost acts: seq<Action>, ghost r: Record)
      requires tracker.Valid()
      modifies tracker
      ensures tracker.Valid() && tracker.requests == old(tracker.requests)
      ensures req.id == "" ==> reply.Refused? && CodeOf(reply.err) == InvalidArgument
      ensures req.id != "" && workers == [] ==> reply.Refused? && CodeOf(reply.err) == Unavailable
      ensures req.id != "" && workers != [] && req.id in old(tracker.requests) ==>
                reply.Refused? && CodeOf(reply.err) == AlreadyExists
      ensures req.id != "" && workers != [] && req.id !in old(tracker.requests) ==>
                reply.Served? && CallEnds(workers, rpc, req, acts, r, reply.result)
    {
      acts, r := [], NewRecord(req, Worker("", ""));
      if req.id == "" {
        return Refused(Status(InvalidArgument, "request_id is required")), acts, r;
      }
      var picked := PickWorker();
      if picked.Failure? {
        return Refused(picked.error), acts, r;
      }
      reply, acts, r := Serve(req, picked.value, rpc);
    }
  }
}
