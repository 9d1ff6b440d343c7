/** A request against a fleet that holds still: the worker ids of the view are fixed, no
    reroute happens, and each worker answers the way it answers. The picks stay arbitrary. */
module Calm {
  import opened Rpc
  import opened Budget
  import opened Race
  import opened RaceSafety
  import opened RaceTheorems

  /** A step of the race of the workers `fleet`, whose worker `id` answers `rpc(id)`. */
  predicate CalmEnabled(fleet: set<string>, rpc: string -> Outcome, r: Record, a: Action) {
    && Enabled(r, a)
    && match a
       case Return(k, outcome) => outcome == rpc(r.atts[k].target.id)
       case Snapshot(k, candidates) => IdsOf(candidates) == fleet - {r.atts[k].target.id}
       case Reroute(_) => false
       case _ => true
  }

  ghost predicate CalmRun(fleet: set<string>, rpc: string -> Outcome, r: Record, acts: seq<Action>, r': Record)
    decreases |acts|
  {
    if acts == [] then r == r'
    else CalmEnabled(fleet, rpc, r, acts[0]) && CalmRun(fleet, rpc, Apply(r, acts[0]), acts[1..], r')
  }

  /** The last attempt, the only one that can still move. */
  function Last(r: Record): Attempt
    requires r.atts != []
  {
    r.atts[|r.atts| - 1]
  }

  ghost predicate DistinctTargets(atts: seq<Attempt>) {
    forall i: nat, j: nat :: i < j < |atts| ==> atts[i].target.id != atts[j].target.id
  }

  /** Exhaustion is reported with the number of attempts. */
  predicate Offers(r: Record, result: AttemptResult)
    requires r.atts != []
  {
    Justified(Last(r), result) && (Last(r).over ==> result.err.dispatched == |r.atts|)
  }

  ghost predicate FleetOk(fleet: set<string>, rpc: string -> Outcome, r: Record) {
    && DistinctTargets(r.atts)
    && (forall k: nat :: k < |r.atts| ==>
          && r.atts[k].target.id in fleet
          && (r.atts[k].rpc.Some? ==> r.atts[k].rpc.value == rpc(r.atts[k].target.id)))
    && (forall k: nat :: k < |r.atts| - 1 ==> r.atts[k].over && r.atts[k].pc.Done?)
  }

  ghost predicate LastOk(fleet: set<string>, r: Record)
    requires r.atts != []
  {
    var a := Last(r);
    && (a.over ==> r.c.dispatched == MAX_ATTEMPTS || fleet <= r.c.tried)
    && (r.claimed <==> a.pc.Won? || a.pc.Done?)
    && (a.pc.Holding? ==> IdsOf(a.pc.candidates) == fleet - {a.target.id})
    && (a.pc.Settling? || a.pc.Won? ==> Offers(r, a.pc.result))
    && (forall result :: result in r.buffer || result in r.received ==> a.pc.Done? && Offers(r, result))
  }

  ghost predicate CalmInv(fleet: set<string>, rpc: string -> Outcome, r: Record) {
    Inv(r) && FleetOk(fleet, rpc, r) && LastOk(fleet, r)
  }

  lemma CalmStart(fleet: set<string>, rpc: string -> Outcome, req: Request, w: Worker)
    requires w.id in fleet
    ensures CalmInv(fleet, rpc, NewRecord(req, w))
  {
    NewRecordInv(req, w);
  }

  lemma OnlyLastMoves(fleet: set<string>, rpc: string -> Outcome, r: Record, a: Action)
    requires FleetOk(fleet, rpc, r) && Enabled(r, a) && !a.Reroute? && !a.Receive?
    ensures a.k == |r.atts| - 1
  {
  }

  lemma FleetStaysOk(fleet: set<string>, rpc: string -> Outcome, r: Record, a: Attempt, r': Record)
    requires FleetOk(fleet, rpc, r) && r.atts != [] && r'.atts == r.atts[|r.atts| - 1 := a]
    requires a.target == Last(r).target
    requires a.rpc.Some? ==> a.rpc.value == rpc(a.target.id)
    ensures FleetOk(fleet, rpc, r')
  {
  }

  lemma CalmMove(fleet: set<string>, rpc: string -> Outcome, r: Record, a: Action)
    requires r.atts != [] && FleetOk(fleet, rpc, r) && LastOk(fleet, r) && AttemptOk(Last(r))
    requires CalmEnabled(fleet, rpc, r, a) && !a.Lock? && !a.Receive? && !a.Send?
    ensures FleetOk(fleet, rpc, Apply(r, a)) && LastOk(fleet, Apply(r, a))
  {
    OnlyLastMoves(fleet, rpc, r, a);
    FleetStaysOk(fleet, rpc, r, Last(Apply(r, a)), Apply(r, a));
  }

  lemma CalmSend(fleet: set<string>, rpc: string -> Outcome, r: Record, k: nat)
    requires r.atts != [] && FleetOk(fleet, rpc, r) && LastOk(fleet, r)
    requires Enabled(r, Send(k))
    ensures FleetOk(fleet, rpc, Apply(r, Send(k))) && LastOk(fleet, Apply(r, Send(k)))
  {
    var r' := Apply(r, Send(k));
    OnlyLastMoves(fleet, rpc, r, Send(k));
    FleetStaysOk(fleet, rpc, r, Last(r'), r');
    assert Last(r').rpc == Last(r).rpc && Last(r').over == Last(r).over;
  }

  lemma CalmReceive(fleet: set<string>, rpc: string -> Outcome, r: Record)
    requires r.atts != [] && FleetOk(fleet, rpc, r) && LastOk(fleet, r) && Enabled(r, Receive)
    ensures FleetOk(fleet, rpc, Apply(r, Receive)) && LastOk(fleet, Apply(r, Receive))
  {
  }

  /** The locked region when it finds nobody else to ask. */
  lemma CalmGiveUp(fleet: set<string>, rpc: string -> Outcome, r: Record, k: nat)
    requires CalmInv(fleet, rpc, r) && Enabled(r, Lock(k, None))
    ensures FleetOk(fleet, rpc, Locked(r, k, None)) && LastOk(fleet, Locked(r, k, None))
  {
    var r' := Locked(r, k, None);
    OnlyLastMoves(fleet, rpc, r, Lock(k, None));
    FleetStaysOk(fleet, rpc, r, Last(r'), r');
    NobodyLeftIff(r'.atts);
    StepKeepsInv(r, Lock(k, None));
    assert AttemptOk(Last(r)) && AttemptOk(Last(r'));
    if r'.c.dispatched < MAX_ATTEMPTS {
      forall id | id in fleet ensures id in r'.c.tried {
        if id != Last(r).target.id {
          assert id in IdsOf(Last(r).pc.candidates);
          var w :| w in Last(r).pc.candidates && w.id == id;
          assert w !in Without(Last(r).pc.candidates, r'.c.tried);
        }
      }
    }
  }

  /** A replacement is one of the fleet and repeats no earlier target. */
  lemma ReplacementIsNew(fleet: set<string>, rpc: string -> Outcome, r: Record, w: Worker)
    requires r.atts != [] && CountersOk(r) && FleetOk(fleet, rpc, r) && LastOk(fleet, r) && Last(r).pc.Holding?
    requires w in Without(Last(r).pc.candidates, Fail(r.c, Last(r).target.id).tried)
    ensures w.id in fleet
    ensures forall i: nat :: i < |r.atts| ==> r.atts[i].target.id != w.id
  {
    assert w.id in IdsOf(Last(r).pc.candidates);
    forall i: nat | i < |r.atts| ensures r.atts[i].target.id != w.id {
      if i < |r.atts| - 1 { assert r.atts[i].over; }
    }
  }

  lemma CalmReplace(fleet: set<string>, rpc: string -> Outcome, r: Record, k: nat, w: Worker)
    requires r.atts != [] && CountersOk(r) && FleetOk(fleet, rpc, r) && LastOk(fleet, r)
    requires Enabled(r, Lock(k, Some(w)))
    ensures FleetOk(fleet, rpc, Locked(r, k, Some(w))) && LastOk(fleet, Locked(r, k, Some(w)))
  {
    var r' := Locked(r, k, Some(w));
    OnlyLastMoves(fleet, rpc, r, Lock(k, Some(w)));
    ReplacementIsNew(fleet, rpc, r, w);
    var a := r.atts[k].(pc := Done, over := true);
    FleetStaysOk(fleet, rpc, r, a, r.(atts := r.atts[k := a]));
    AppendFleet(fleet, rpc, r.(atts := r.atts[k := a]), r', NewAttempt(w, Replacing(k)));
    NothingSentYet(fleet, r);
    FreshLastOk(fleet, r');
  }

  lemma NothingSentYet(fleet: set<string>, r: Record)
    requires r.atts != [] && LastOk(fleet, r) && Last(r).pc.Holding?
    ensures !r.claimed && r.buffer == [] && r.received == []
  {
    EmptyIff(r.buffer);
    EmptyIff(r.received);
  }

  lemma EmptyIff(results: seq<AttemptResult>)
    ensures results == [] <==> forall result :: result !in results
  {
    if results != [] { assert results[0] in results; }
  }

  lemma FreshLastOk(fleet: set<string>, r: Record)
    requires r.atts != [] && Last(r).pc.Owed? && !Last(r).over
    requires !r.claimed && r.buffer == [] && r.received == []
    ensures LastOk(fleet, r)
  {
  }

  lemma AppendFleet(fleet: set<string>, rpc: string -> Outcome, r: Record, r': Record, a: Attempt)
    requires r.atts != [] && FleetOk(fleet, rpc, r) && Last(r).over && Last(r).pc.Done?
    requires r'.atts == r.atts + [a] && a.target.id in fleet && a.rpc.None?
    requires forall i: nat :: i < |r.atts| ==> r.atts[i].target.id != a.target.id
    ensures FleetOk(fleet, rpc, r')
  {
  }

  lemma CalmStep(fleet: set<string>, rpc: string -> Outcome, r: Record, a: Action)
    requires CalmInv(fleet, rpc, r) && CalmEnabled(fleet, rpc, r, a)
    ensures CalmInv(fleet, rpc, Apply(r, a))
  {
    StepKeepsInv(r, a);
    assert AttemptOk(Last(r));
    match a
    case Lock(k, None) => CalmGiveUp(fleet, rpc, r, k);
    case Lock(k, Some(w)) => CalmReplace(fleet, rpc, r, k, w);
    case Send(k) => CalmSend(fleet, rpc, r, k);
    case Receive => CalmReceive(fleet, rpc, r);
    case _ => CalmMove(fleet, rpc, r, a);
  }

  lemma {:induction false} CalmRunKeeps(fleet: set<string>, rpc: string -> Outcome,
                                        r: Record, acts: seq<Action>, r': Record)
    requires CalmInv(fleet, rpc, r) && CalmRun(fleet, rpc, r, acts, r')
    ensures CalmInv(fleet, rpc, r')
    decreases |acts|
  {
    if acts != [] {
      CalmStep(fleet, rpc, r, acts[0]);
      CalmRunKeeps(fleet, rpc, Apply(r, acts[0]), acts[1..], r');
    }
  }

  // ---------- how a calm request ends ----------

  ghost predicate FailsRetryably(rpc: string -> Outcome, id: string) {
    rpc(id).Err? && Retryable(rpc(id).err)
  }

  /** The result of a finished request, in the channel or already received. */
  function ResultOf(r: Record): AttemptResult
    requires |r.buffer| + |r.received| == 1
  {
    (r.received + r.buffer)[0]
  }

  /** A calm request ends with what its last attempt got: the response, the terminal
      error, or exhaustion after every attempt failed retryably. */
  lemma CalmEnding(fleet: set<string>, rpc: string -> Outcome, r: Record)
    requires CalmInv(fleet, rpc, r) && Quiescent(r)
    ensures |r.buffer| + |r.received| == 1 && Offers(r, ResultOf(r))
    ensures Last(r).rpc == Some(rpc(Last(r).target.id))
    ensures Last(r).over ==> AllOver(r.atts) && |r.c.tried| == |r.atts| && r.c.tried == BookedIds(r.atts)
    ensures forall id :: id in r.c.tried ==> FailsRetryably(rpc, id) && id in fleet
  {
    QuiescentMeansAnswered(r);
    assert ResultOf(r) in r.buffer || ResultOf(r) in r.received;
    assert AttemptOk(Last(r));
    if Last(r).over {
      DistinctCardinality(r.atts);
      assert r.c.tried == BookedIds(r.atts);
    }
    forall id | id in r.c.tried ensures FailsRetryably(rpc, id) && id in fleet {
      TriedIsEvidence(r, id);
    }
  }

  lemma {:induction false} DistinctCardinality(atts: seq<Attempt>)
    requires DistinctTargets(atts) && AllOver(atts)
    ensures |BookedIds(atts)| == |atts|
  {
    if atts != [] {
      var rest, last := atts[..|atts| - 1], atts[|atts| - 1];
      assert forall k: nat :: k < |rest| ==> rest[k] == atts[k];
      DistinctCardinality(rest);
      assert atts == rest + [last];
      assert BookedIds(atts) == BookedIds(rest) + {last.target.id};
      assert last.target.id !in BookedIds(rest);
    }
  }

  lemma SubsetCardinality(a: set<string>, b: set<string>)
    requires a <= b
    ensures |a| <= |b|
    ensures |a| == |b| ==> a == b
  {
    assert b == a + (b - a);
    if |a| == |b| { assert |b - a| == 0; }
  }

  lemma PigeonholeAtEnd(fleet: set<string>, rpc: string -> Outcome, failing: set<string>, r: Record)
    requires CalmInv(fleet, rpc, r) && Quiescent(r)
    requires forall id :: id in fleet ==>
               if id in failing then FailsRetryably(rpc, id) else rpc(id).Ok?
    requires |failing| <= 2 && !(fleet <= failing)
    ensures |r.buffer| + |r.received| == 1
    ensures var result := ResultOf(r); result.Answer? && rpc(result.workerID) == Ok(result.resp)
  {
    CalmEnding(fleet, rpc, r);
    assert Last(r).target.id in fleet;
    if Last(r).over {
      assert r.c.tried <= failing;
      SubsetCardinality(r.c.tried, failing);
      assert false;
    }
  }

  /** Guaranteed success by pigeonhole: with at most two workers failing retryably and some
      other worker, all others answering, the client is answered for every sequence of picks. */
  lemma PigeonholeSuccess(fleet: set<string>, rpc: string -> Outcome, failing: set<string>,
                          req: Request, w: Worker, acts: seq<Action>, r: Record)
    requires w.id in fleet && CalmRun(fleet, rpc, NewRecord(req, w), acts, r) && Quiescent(r)
    requires forall id :: id in fleet ==>
               if id in failing then FailsRetryably(rpc, id) else rpc(id).Ok?
    requires |failing| <= 2 && !(fleet <= failing)
    ensures |r.buffer| + |r.received| == 1
    ensures var result := ResultOf(r); result.Answer? && rpc(result.workerID) == Ok(result.resp)
  {
    CalmStart(fleet, rpc, req, w);
    CalmRunKeeps(fleet, rpc, NewRecord(req, w), acts, r);
    PigeonholeAtEnd(fleet, rpc, failing, r);
  }

  /** `n` RPCs went to pairwise distinct workers, and the client is told that number, as
      Unavailable. */
  ghost predicate CountedExactly(rpc: string -> Outcome, r: Record, n: int) {
    && |r.atts| == n && DistinctTargets(r.atts)
    && |r.buffer| + |r.received| == 1
    && ResultOf(r).Fault? && CodeOf(ResultOf(r).err) == Unavailable
    && ResultOf(r).err.ExhaustedAttempts? && ResultOf(r).err.dispatched == n
    && rpc(ResultOf(r).workerID) == Err(ResultOf(r).err.last)
  }

  function AtMostBudget(n: int): int { if n < 3 then n else 3 }

  lemma ExactCountAtEnd(fleet: set<string>, rpc: string -> Outcome, r: Record)
    requires CalmInv(fleet, rpc, r) && Quiescent(r)
    requires forall id :: id in fleet ==> FailsRetryably(rpc, id)
    ensures CountedExactly(rpc, r, AtMostBudget(|fleet|))
  {
    CalmEnding(fleet, rpc, r);
    assert Last(r).target.id in fleet;
    assert Last(r).over;
    assert r.c.tried <= fleet;
    SubsetCardinality(r.c.tried, fleet);
    assert LastOk(fleet, r) && CountersOk(r);
    if r.c.dispatched < MAX_ATTEMPTS { assert r.c.tried == fleet; }
  }

  /** Exact dispatch count: with N distinct workers all failing retryably, min(N, 3) RPCs go
      to pairwise distinct workers and the client is told that number, as Unavailable. */
  lemma ExactDispatchCount(fleet: set<string>, rpc: string -> Outcome,
                           req: Request, w: Worker, acts: seq<Action>, r: Record)
    requires w.id in fleet && CalmRun(fleet, rpc, NewRecord(req, w), acts, r) && Quiescent(r)
    requires forall id :: id in fleet ==> FailsRetryably(rpc, id)
    ensures CountedExactly(rpc, r, AtMostBudget(|fleet|))
  {
    CalmStart(fleet, rpc, req, w);
    CalmRunKeeps(fleet, rpc, NewRecord(req, w), acts, r);
    ExactCountAtEnd(fleet, rpc, r);
  }

  // ---------- the ending in terms of the fleet alone ----------

  ghost function FailingIds(fleet: set<string>, rpc: string -> Outcome): set<string> {
    set id | id in fleet && FailsRetryably(rpc, id)
  }

  ghost predicate AnswersOrFailsRetryably(fleet: set<string>, rpc: string -> Outcome) {
    forall id :: id in fleet ==> rpc(id).Ok? || FailsRetryably(rpc, id)
  }

  /** With at most two workers failing and some other one, a response of a worker that gives
      it; with all failing, exactly as many RPCs as there are workers, up to the budget, and
      Unavailable. */
  ghost predicate CallEnding(fleet: set<string>, rpc: string -> Outcome, r: Record)
    requires |r.buffer| + |r.received| == 1
  {
    var failing, result := FailingIds(fleet, rpc), ResultOf(r);
    && (|failing| <= 2 && failing != fleet ==> result.Answer? && rpc(result.workerID) == Ok(result.resp))
    && (failing == fleet ==> CountedExactly(rpc, r, AtMostBudget(|failing|)))
  }

  lemma CalmCallEnds(fleet: set<string>, rpc: string -> Outcome, r: Record)
    requires CalmInv(fleet, rpc, r) && Quiescent(r) && AnswersOrFailsRetryably(fleet, rpc)
    ensures |r.buffer| + |r.received| == 1 && CallEnding(fleet, rpc, r)
  {
    CalmEnding(fleet, rpc, r);
    var failing := FailingIds(fleet, rpc);
    if |failing| <= 2 && failing != fleet { PigeonholeAtEnd(fleet, rpc, failing, r); }
    if failing == fleet { ExactCountAtEnd(fleet, rpc, r); }
  }

  /** Over a still fleet a result only lands when everything has ended. */
  lemma LandedMeansQuiescent(fleet: set<string>, rpc: string -> Outcome, r: Record)
    requires CalmInv(fleet, rpc, r) && |r.buffer| + |r.received| > 0
    ensures Quiescent(r)
  {
    EmptyIff(r.buffer);
    EmptyIff(r.received);
  }
}
