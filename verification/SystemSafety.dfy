/** Every step of the gateway keeps the system invariant, and what follows for clients. */
module SystemSafety {
  import opened Rpc
  import opened Budget
  import opened Race
  import opened RaceSafety
  import opened RaceTheorems
  import opened System

  // ---------- each step moves each record by at most one step of the race ----------

  /** Record `p` stands still or takes one enabled step of the race. */
  ghost predicate Moves(r: Record, r': Record) {
    r' == r || exists a :: Enabled(r, a) && r' == Apply(r, a)
  }

  lemma StepRefinesRace(s: Sys, st: Step, p: nat)
    requires CanStep(s, st) && p < |s.recs|
    ensures p < |After(s, st).recs| && Moves(s.recs[p], After(s, st).recs[p])
  {
    match st
    case Take(h) => assert Enabled(s.recs[s.handlers[h].p], Receive);
    case PollClaim(choice) =>
      if Victim(s, p) { assert Enabled(s.recs[p], Reroute(choice[s.recs[p].req.id])); }
    case _ =>
  }

  lemma RecsStayOk(s: Sys, st: Step)
    requires RecsOk(s) && CanStep(s, st)
    ensures RecsOk(After(s, st))
  {
    var s' := After(s, st);
    forall p: nat | p < |s'.recs| ensures Inv(s'.recs[p]) {
      if p < |s.recs| {
        StepRefinesRace(s, st, p);
        if s'.recs[p] != s.recs[p] {
          var a :| Enabled(s.recs[p], a) && s'.recs[p] == Apply(s.recs[p], a);
          StepKeepsInv(s.recs[p], a);
        }
      } else {
        NewRecordInv(s.handlers[st.h].req, s.handlers[st.h].worker);
      }
    }
  }

  /** No step but the handler's own receive changes what was received, and none changes
      the request. */
  lemma RecordKeeps(s: Sys, st: Step, p: nat)
    requires CanStep(s, st) && p < |s.recs|
    ensures
      var s' := After(s, st);
      && p < |s'.recs| && s'.recs[p].req == s.recs[p].req
      && (!(st.Take? && s.handlers[st.h].p == p) ==> s'.recs[p].received == s.recs[p].received)
  {
  }

  lemma HandlersStayOk(s: Sys, st: Step)
    requires SysInv(s) && CanStep(s, st)
    ensures HandlersOk(After(s, st))
  {
    var s' := After(s, st);
    forall h: nat | h < |s'.handlers| ensures HandlerOk(s', s'.handlers[h]) {
      if st == Take(h) { TakerIsOk(s, h); } else { HandlerStaysOk(s, st, h); }
    }
    forall h: nat, h2: nat, p: nat | h < h2 < |s'.handlers| && Owns(s'.handlers[h], p)
      ensures !Owns(s'.handlers[h2], p)
    {
      OwnersStayApart(s, st, h, h2, p);
    }
  }

  /** A handler owns a record because it did before, or because it just registered it. */
  lemma OwnershipOrigin(s: Sys, st: Step, h: nat, p: nat)
    requires CanStep(s, st) && h < |After(s, st).handlers|
    ensures Owns(After(s, st).handlers[h], p) ==>
              h < |s.handlers| && (Owns(s.handlers[h], p) || (st == Admit(h) && p == |s.recs|))
  {
  }

  lemma OwnedExists(s: Sys, h: nat, p: nat)
    requires HandlersOk(s) && h < |s.handlers| && Owns(s.handlers[h], p)
    ensures p < |s.recs|
  {
    assert HandlerOk(s, s.handlers[h]);
  }

  lemma OwnersStayApart(s: Sys, st: Step, h: nat, h2: nat, p: nat)
    requires HandlersOk(s) && CanStep(s, st)
    requires h < h2 < |After(s, st).handlers| && Owns(After(s, st).handlers[h], p)
    ensures !Owns(After(s, st).handlers[h2], p)
  {
    OwnershipOrigin(s, st, h, p);
    OwnershipOrigin(s, st, h2, p);
    if Owns(s.handlers[h], p) {
      OwnedExists(s, h, p);
    } else if h2 < |s.handlers| && Owns(s.handlers[h2], p) {
      OwnedExists(s, h2, p);
    }
  }

  /** What handler `h` owns is touched by no other handler: what was received stays, and
      while the handler is active its table entry stays too. */
  lemma OwnedIsKept(s: Sys, st: Step, h: nat, p: nat)
    requires HandlersOk(s) && CanStep(s, st) && h < |s.handlers| && Owns(s.handlers[h], p)
    ensures var s' := After(s, st); p < |s'.recs| && s'.recs[p].req == s.recs[p].req
    ensures st != Take(h) ==> After(s, st).recs[p].received == s.recs[p].received
    ensures Active(s.handlers[h]) && st != Unregister(h) ==> Registered(After(s, st), p)
  {
    assert HandlerOk(s, s.handlers[h]);
    RecordKeeps(s, st, p);
    if st.Take? {
      if s.handlers[st.h].p == p { assert Owns(s.handlers[st.h], p); }
    } else if st.Unregister? {
      OthersKeepEntry(s, st.h, h, p);
    } else if Active(s.handlers[h]) {
      EntryIsKept(s, st, p);
    }
  }

  lemma EntryIsKept(s: Sys, st: Step, p: nat)
    requires CanStep(s, st) && !st.Unregister? && Registered(s, p)
    requires p < |After(s, st).recs| && After(s, st).recs[p].req == s.recs[p].req
    ensures Registered(After(s, st), p)
  {
  }

  lemma OthersKeepEntry(s: Sys, g: nat, h: nat, p: nat)
    requires HandlersOk(s) && CanStep(s, Unregister(g)) && h < |s.handlers| && Owns(s.handlers[h], p)
    ensures Active(s.handlers[h]) && g != h ==> Registered(Unregistering(s, g), p)
  {
    assert HandlerOk(s, s.handlers[g]) && HandlerOk(s, s.handlers[h]);
    if g != h && s.handlers[g].p == p { assert Owns(s.handlers[g], p); }
  }

  lemma HandlerStaysOk(s: Sys, st: Step, h: nat)
    requires HandlersOk(s) && CanStep(s, st) && h < |After(s, st).handlers| && st != Take(h)
    ensures HandlerOk(After(s, st), After(s, st).handlers[h])
  {
    if h >= |s.handlers| {
      ArrivalIsOk(s, st);
    } else {
      assert HandlerOk(s, s.handlers[h]);
      var owned := OwnedBy(s.handlers[h]);
      if owned.Some? {
        OwnedIsKept(s, st, h, owned.value);
        BystanderIsOk(s, st, h, owned.value);
      } else {
        NewcomerIsOk(s, st, h);
      }
    }
  }

  /** The record a handler owns, if any. */
  function OwnedBy(h: Handler): (owned: Option<nat>)
    ensures forall p: nat :: Owns(h, p) <==> owned == Some(p)
  {
    match h
    case Picked(_, _) => None
    case Waiting(_, p) => Some(p)
    case Leaving(_, p, _) => Some(p)
    case Returned(_, home, _) => home
  }

  lemma NewcomerIsOk(s: Sys, st: Step, h: nat)
    requires CanStep(s, st) && h < |s.handlers| && HandlerOk(s, s.handlers[h]) && OwnedBy(s.handlers[h]).None?
    ensures HandlerOk(After(s, st), After(s, st).handlers[h])
  {
  }

  lemma ArrivalIsOk(s: Sys, st: Step)
    requires CanStep(s, st) && |s.handlers| < |After(s, st).handlers|
    ensures |After(s, st).handlers| == |s.handlers| + 1
    ensures HandlerOk(After(s, st), After(s, st).handlers[|s.handlers|])
  {
  }

  lemma TakerIsOk(s: Sys, h: nat)
    requires SysInv(s) && CanStep(s, Take(h))
    ensures HandlerOk(Taking(s, h), Taking(s, h).handlers[h])
  {
    assert HandlerOk(s, s.handlers[h]);
    var p := s.handlers[h].p;
    var r, s' := s.recs[p], Taking(s, h);
    SingleDelivery(r);
    assert s'.handlers[h] == Leaving(r.req, p, Served(r.buffer[0]));
    assert s'.recs[p].received == [r.buffer[0]] && Registered(s', p);
  }

  lemma BystanderIsOk(s: Sys, st: Step, h: nat, p: nat)
    requires CanStep(s, st) && h < |s.handlers| && Owns(s.handlers[h], p) && st != Take(h)
    requires HandlerOk(s, s.handlers[h])
    requires var s' := After(s, st);
             p < |s'.recs| && s'.recs[p].req == s.recs[p].req && s'.recs[p].received == s.recs[p].received
    requires Active(s.handlers[h]) && st != Unregister(h) ==> Registered(After(s, st), p)
    ensures HandlerOk(After(s, st), After(s, st).handlers[h])
  {
  }

  lemma TableStaysOk(s: Sys, st: Step)
    requires SysInv(s) && CanStep(s, st)
    ensures TableOk(After(s, st))
  {
    var s' := After(s, st);
    forall id | id in s'.table
      ensures s'.table[id] < |s'.recs| && s'.recs[s'.table[id]].req.id == id
      ensures exists h: nat :: h < |s'.handlers| && Active(s'.handlers[h]) && Owns(s'.handlers[h], s'.table[id])
    {
      EntryStaysOwned(s, st, id);
    }
  }

  /** A handler keeps its request and its record; only its own `unregister` ends it. */
  lemma HandlerEvolves(s: Sys, st: Step, h: nat)
    requires CanStep(s, st) && h < |s.handlers|
    ensures
      var s' := After(s, st);
      && h < |s'.handlers| && s'.handlers[h].req == s.handlers[h].req
      && (forall p: nat :: Owns(s.handlers[h], p) ==> Owns(s'.handlers[h], p))
      && (Active(s.handlers[h]) && st != Unregister(h) ==> Active(s'.handlers[h]))
  {
  }

  lemma EntryStaysOwned(s: Sys, st: Step, id: string)
    requires HandlersOk(s) && TableOk(s) && CanStep(s, st) && id in After(s, st).table
    ensures
      var s' := After(s, st);
      && s'.table[id] < |s'.recs| && s'.recs[s'.table[id]].req.id == id
      && exists h: nat :: h < |s'.handlers| && Active(s'.handlers[h]) && Owns(s'.handlers[h], s'.table[id])
  {
    var s' := After(s, st);
    if id in s.table {
      var p := s.table[id];
      assert s'.table[id] == p;
      RecordKeeps(s, st, p);
      var h: nat :| h < |s.handlers| && Active(s.handlers[h]) && Owns(s.handlers[h], p);
      assert HandlerOk(s, s.handlers[h]);
      HandlerEvolves(s, st, h);
      assert Active(s'.handlers[h]) && Owns(s'.handlers[h], p);
    } else {
      NewEntryIsOwned(s, st, id);
    }
  }

  lemma NewEntryIsOwned(s: Sys, st: Step, id: string)
    requires CanStep(s, st) && id in After(s, st).table && id !in s.table
    ensures
      var s' := After(s, st);
      && s'.table[id] < |s'.recs| && s'.recs[s'.table[id]].req.id == id
      && exists h: nat :: h < |s'.handlers| && Active(s'.handlers[h]) && Owns(s'.handlers[h], s'.table[id])
  {
    assert Owns(After(s, st).handlers[st.h], After(s, st).table[id]);
  }

  lemma StepKeepsSysInv(s: Sys, st: Step)
    requires SysInv(s) && CanStep(s, st)
    ensures SysInv(After(s, st))
  {
    RecsStayOk(s, st);
    HandlersStayOk(s, st);
    TableStaysOk(s, st);
  }

  lemma {:induction false} RunKeepsSysInv(s: Sys, steps: seq<Step>, s': Sys)
    requires SysInv(s) && SysRun(s, steps, s')
    ensures SysInv(s')
    decreases |steps|
  {
    if steps != [] {
      StepKeepsSysInv(s, steps[0]);
      RunKeepsSysInv(After(s, steps[0]), steps[1..], s');
    }
  }

  /** Safety over whole runs of the gateway, from the empty gateway on. */
  lemma ReachableIsOk(steps: seq<Step>, s: Sys)
    requires SysRun(INITIAL, steps, s)
    ensures SysInv(s)
  {
    RunKeepsSysInv(INITIAL, steps, s);
  }

  // ---------- a run of the gateway is a run of each record ----------

  /** Every run of the gateway projects to a run of the race over record `p`, so all
      theorems about one record hold for every record of every run. */
  lemma {:induction false} RunProjects(s: Sys, steps: seq<Step>, s': Sys, p: nat) returns (acts: seq<Action>)
    requires SysRun(s, steps, s') && p < |s.recs|
    ensures p < |s'.recs| && Run(s.recs[p], acts, s'.recs[p])
    decreases |steps|
  {
    if steps == [] {
      acts := [];
    } else {
      var n := After(s, steps[0]);
      StepRefinesRace(s, steps[0], p);
      acts := RunProjects(n, steps[1..], s', p);
      if n.recs[p] != s.recs[p] {
        var a :| Enabled(s.recs[p], a) && n.recs[p] == Apply(s.recs[p], a);
        assert ([a] + acts)[1..] == acts;
        acts := [a] + acts;
      }
    }
  }

  // ---------- what clients see ----------

  /** The three kinds of answer that come out of a race, each with its evidence. */
  ghost predicate AnswerOf(r: Record, result: AttemptResult) {
    exists k: nat :: k < |r.atts| &&
      var a := r.atts[k];
      && result.workerID == a.target.id
      && match result
         case Answer(resp, _) => a.rpc == Some(Ok(resp))
         case Fault(err, _) =>
           || (a.rpc == Some(Err(err)) && !Retryable(err))
           || (&& err.ExhaustedAttempts? && CodeOf(err) == Unavailable
               && a.rpc == Some(Err(err.last)) && Retryable(err.last) && result.workerID in r.c.tried)
  }

  lemma DeliveredIsAnswer(r: Record, result: AttemptResult)
    requires Inv(r) && Delivered(r, result)
    ensures AnswerOf(r, result)
  {
    var k: nat :| k < |r.atts| && Justified(r.atts[k], result);
    assert AttemptOk(r.atts[k]);
  }

  /** Answer provenance: a served client got a response or an error of its own
      incarnation's attempts, and no other client was served from that record. */
  lemma ServedFromOwnRecord(steps: seq<Step>, s: Sys, h: nat)
    requires SysRun(INITIAL, steps, s) && h < |s.handlers|
    requires s.handlers[h].Returned? && s.handlers[h].reply.Served?
    ensures s.handlers[h].home.Some?
    ensures
      var p := s.handlers[h].home.value;
      && p < |s.recs| && s.recs[p].req == s.handlers[h].req
      && AnswerOf(s.recs[p], s.handlers[h].reply.result)
      && s.recs[p].buffer == []
      && (forall g: nat :: g < |s.handlers| && g != h ==> !Owns(s.handlers[g], p))
  {
    ReachableIsOk(steps, s);
    assert HandlerOk(s, s.handlers[h]);
    var p := s.handlers[h].home.value;
    var r := s.recs[p];
    SingleDelivery(r);
    SumBounds(r.atts, Winning);
    assert s.handlers[h].reply.result in r.received;
    DeliveredIsAnswer(r, s.handlers[h].reply.result);
    assert Owns(s.handlers[h], p);
  }

  ghost predicate AllSentOk(s: Sys) {
    forall p: nat :: p < |s.recs| ==> SentOk(s.recs[p])
  }

  lemma StepKeepsSent(s: Sys, st: Step)
    requires RecsOk(s) && AllSentOk(s) && CanStep(s, st)
    ensures AllSentOk(After(s, st))
  {
    var s' := After(s, st);
    forall p: nat | p < |s'.recs| ensures SentOk(s'.recs[p]) {
      if p < |s.recs| {
        StepRefinesRace(s, st, p);
        if s'.recs[p] != s.recs[p] {
          var a :| Enabled(s.recs[p], a) && s'.recs[p] == Apply(s.recs[p], a);
          StepKeepsSentOk(s.recs[p], a);
        }
      }
    }
  }

  lemma {:induction false} RunKeepsSent(s: Sys, steps: seq<Step>, s': Sys)
    requires SysInv(s) && AllSentOk(s) && SysRun(s, steps, s')
    ensures AllSentOk(s')
    decreases |steps|
  {
    if steps != [] {
      StepKeepsSent(s, steps[0]);
      StepKeepsSysInv(s, steps[0]);
      RunKeepsSent(After(s, steps[0]), steps[1..], s');
    }
  }

  /** What a served exhaustion error says: its number counts dispatches that are all over, and
      every attempt it does not count goes back to a reroute made after the count. */
  lemma ServedCountHolds(steps: seq<Step>, s: Sys, h: nat)
    requires SysRun(INITIAL, steps, s) && h < |s.handlers|
    requires s.handlers[h].Returned? && s.handlers[h].reply.Served?
    requires s.handlers[h].reply.result.Fault? && s.handlers[h].reply.result.err.ExhaustedAttempts?
    ensures s.handlers[h].home.Some? && s.handlers[h].home.value < |s.recs|
    ensures
      var atts, n := s.recs[s.handlers[h].home.value].atts, s.handlers[h].reply.result.err.dispatched;
      && 1 <= n <= |atts| <= 3
      && (forall j: nat :: j < n ==> atts[j].over)
      && (forall j: nat :: n <= j < |atts| ==> Descends(atts, j, n))
  {
    ReachableIsOk(steps, s);
    RunKeepsSent(INITIAL, steps, s);
    assert HandlerOk(s, s.handlers[h]);
    var r := s.recs[s.handlers[h].home.value];
    assert s.handlers[h].reply.result in r.received;
    assert CountHolds(r.atts, s.handlers[h].reply.result);
  }

  /** The next step of attempt `k` of record `p` in the view of the moment, if the RPC (when
      one is pending) answers `outcome`. */
  function NextIn(s: Sys, p: nat, k: nat, outcome: Outcome): Action
    requires p < |s.recs| && k < |s.recs[p].atts| && !s.recs[p].atts[k].pc.Done?
  {
    var r := s.recs[p];
    if r.atts[k].pc.Retrying? then Snapshot(k, Without(s.view, {r.atts[k].target.id}))
    else NextOf(r, k, outcome)
  }

  lemma NextIsPossible(s: Sys, p: nat, k: nat, outcome: Outcome)
    requires RecsOk(s) && p < |s.recs| && k < |s.recs[p].atts| && !s.recs[p].atts[k].pc.Done?
    ensures
      var a := NextIn(s, p, k, outcome);
      CanStep(s, Attempting(p, a)) && a.k == k && (a.Return? ==> a.outcome == outcome)
  {
    Progress(s.recs[p], k, outcome);
  }

  /** Some step of attempt `k` itself is enabled, and it does something. */
  ghost predicate AttemptCanMove(s: Sys, p: nat, k: nat)
    requires p < |s.recs|
  {
    exists a :: CanStep(s, Attempting(p, a)) && a.k == k && After(s, Attempting(p, a)).recs[p] != s.recs[p]
  }

  lemma CanMove(s: Sys, p: nat, k: nat)
    requires RecsOk(s) && p < |s.recs| && k < |s.recs[p].atts| && !s.recs[p].atts[k].pc.Done?
    ensures AttemptCanMove(s, p, k)
  {
    NextIsPossible(s, p, k, Ok(Response("")));
    MeasureFalls(s.recs[p], NextIn(s, p, k, Ok(Response(""))));
  }

  /** No request is lost: a waiting client can take its result from the channel, or has an
      attempt of its own that is not done and can move. */
  lemma WaitingIsNeverStranded(steps: seq<Step>, s: Sys, h: nat)
    requires SysRun(INITIAL, steps, s) && h < |s.handlers| && s.handlers[h].Waiting?
    ensures
      var p := s.handlers[h].p;
      && p < |s.recs|
      && (|| CanStep(s, Take(h))
          || exists k: nat :: k < |s.recs[p].atts| && !s.recs[p].atts[k].pc.Done? && AttemptCanMove(s, p, k))
  {
    ReachableIsOk(steps, s);
    assert HandlerOk(s, s.handlers[h]);
    var p := s.handlers[h].p;
    var r := s.recs[p];
    if Quiescent(r) {
      QuiescentMeansAnswered(r);
    } else if r.buffer == [] || !FirstLaunched(r) {
      var k: nat :| k < |r.atts| && !r.atts[k].pc.Done?;
      CanMove(s, p, k);
    }
  }
}
