/** Runs that the gateway has: from every reachable state each waiting client can still be
    served, and an exhaustion error can overtake a reroute. */
module SystemTheorems {
  import opened Rpc
  import opened Budget
  import opened Race
  import opened RaceTheorems
  import opened System
  import opened SystemSafety

  lemma RunPrefix(s: Sys, st: Step, steps: seq<Step>, s': Sys)
    requires CanStep(s, st) && SysRun(After(s, st), steps, s')
    ensures SysRun(s, [st] + steps, s')
  {
    assert ([st] + steps)[1..] == steps;
  }

  lemma {:induction false} RunThenRun(s: Sys, steps: seq<Step>, mid: Sys, more: seq<Step>, s': Sys)
    requires SysRun(s, steps, mid) && SysRun(mid, more, s')
    ensures SysRun(s, steps + more, s')
    decreases |steps|
  {
    if steps == [] {
      assert steps + more == more;
    } else {
      RunThenRun(After(s, steps[0]), steps[1..], mid, more, s');
      assert (steps + more)[1..] == steps[1..] + more;
    }
  }

  // ---------- a call, case by case ----------

  /** A call without a request id is refused as invalid, one that finds no worker in the view
      as unavailable, and any other is given some worker of the view; nothing else happens. */
  lemma ArrivalByCase(s: Sys, req: Request, pick: Option<Worker>)
    requires CanStep(s, Arrive(req, pick))
    ensures
      var s' := After(s, Arrive(req, pick));
      && |s'.handlers| == |s.handlers| + 1
      && s' == s.(handlers := s'.handlers) && s.handlers == s'.handlers[..|s.handlers|]
      && var h := s'.handlers[|s.handlers|];
         if req.id == "" then h.Returned? && h.reply.Refused? && CodeOf(h.reply.err) == InvalidArgument
         else if s.view == [] then h.Returned? && h.reply.Refused? && CodeOf(h.reply.err) == Unavailable
         else h.Picked? && h.req == req && h.worker in s.view
    ensures req.id != "" ==> forall w :: w in s.view ==> CanStep(s, Arrive(req, Some(w)))
  {
  }

  /** A client that gives up leaves its record, with all attempts in the air, as it is. */
  lemma CancelStopsNothing(s: Sys, h: nat)
    requires CanStep(s, Cancel(h))
    ensures
      var s' := After(s, Cancel(h));
      && s'.recs == s.recs && s'.table == s.table && s'.poll == s.poll && s'.view == s.view
      && s'.handlers[h] == Leaving(s.handlers[h].req, s.handlers[h].p, GaveUp)
  {
  }

  // ---------- every client can still be served ----------

  /** A step of an attempt of record `p`, whose `k`-th RPC answers `answers(k)`. */
  predicate OwnStep(st: Step, p: nat, answers: nat -> Outcome) {
    st.Attempting? && st.p == p && (st.a.Return? ==> st.a.outcome == answers(st.a.k))
  }

  /** The attempts of one record can always run to their end while all else stands still,
      whatever their RPCs answer. */
  lemma {:induction false} AttemptsCanFinish(s: Sys, p: nat, answers: nat -> Outcome)
    returns (steps: seq<Step>, s': Sys)
    requires SysInv(s) && p < |s.recs|
    ensures SysRun(s, steps, s') && SysInv(s')
    ensures p < |s'.recs| && s' == s.(recs := s.recs[p := s'.recs[p]]) && Quiescent(s'.recs[p])
    ensures forall st :: st in steps ==> OwnStep(st, p, answers)
    decreases Measure(s.recs[p])
  {
    if Quiescent(s.recs[p]) {
      steps, s' := [], s;
    } else {
      var k: nat :| k < |s.recs[p].atts| && !s.recs[p].atts[k].pc.Done?;
      var st := Attempting(p, NextIn(s, p, k, answers(k)));
      NextIsPossible(s, p, k, answers(k));
      MeasureFalls(s.recs[p], st.a);
      StepKeepsSysInv(s, st);
      var more;
      more, s' := AttemptsCanFinish(After(s, st), p, answers);
      RunPrefix(s, st, more, s');
      steps := [st] + more;
    }
  }

  /** The handler receives and leaves. */
  lemma HandlerCanReturn(s: Sys, h: nat) returns (steps: seq<Step>, s': Sys)
    requires CanStep(s, Take(h))
    ensures SysRun(s, steps, s') && h < |s'.handlers|
    ensures s'.handlers[h].Returned? && s'.handlers[h].reply == Served(s.recs[s.handlers[h].p].buffer[0])
    ensures forall st :: st in steps ==> st == Take(h) || st == Unregister(h)
  {
    var mid := After(s, Take(h));
    s' := After(mid, Unregister(h));
    RunPrefix(mid, Unregister(h), [], s');
    RunPrefix(s, Take(h), [Unregister(h)] + [], s');
    steps := [Take(h)] + ([Unregister(h)] + []);
  }

  lemma FinishedCanTake(s: Sys, h: nat)
    requires SysInv(s) && h < |s.handlers| && s.handlers[h].Waiting?
    requires s.handlers[h].p < |s.recs| ==> Quiescent(s.recs[s.handlers[h].p])
    ensures CanStep(s, Take(h))
  {
    assert HandlerOk(s, s.handlers[h]);
    QuiescentMeansAnswered(s.recs[s.handlers[h].p]);
  }

  /** From every reachable state every waiting client can be served by steps of its own
      record's attempts and of its own handler alone, with snapshots of the view as it is,
      and whatever the RPCs answer. */
  lemma CanAlwaysFinish(before: seq<Step>, s: Sys, h: nat, answers: nat -> Outcome)
    returns (steps: seq<Step>, s': Sys)
    requires SysRun(INITIAL, before, s) && h < |s.handlers| && s.handlers[h].Waiting?
    ensures SysRun(s, steps, s')
    ensures h < |s'.handlers| && s'.handlers[h].Returned? && s'.handlers[h].reply.Served?
    ensures forall st :: st in steps ==>
              OwnStep(st, s.handlers[h].p, answers) || st == Take(h) || st == Unregister(h)
  {
    ReachableIsOk(before, s);
    assert HandlerOk(s, s.handlers[h]);
    var p := s.handlers[h].p;
    var attempts, mid := AttemptsCanFinish(s, p, answers);
    FinishedCanTake(mid, h);
    var leaving;
    leaving, s' := HandlerCanReturn(mid, h);
    RunThenRun(s, attempts, mid, leaving, s');
    steps := attempts + leaving;
  }

  // ---------- an exhaustion error can overtake a reroute ----------

  const REFUSED := Status(Unavailable, "connection refused")

  /** The record of a request whose only attempt stands at `pc`, nothing booked yet. */
  function Sole(req: Request, w: Worker, pc: Pc, rpc: Option<Outcome>): Record {
    Record(req, Admitted(w.id), false, [], [], [Attempt(w, FirstDispatch, pc, rpc, false)])
  }

  /** The record after its only attempt failed and no other worker was in the view. */
  function FailedAlone(req: Request, w: Worker): Record {
    Record(req, Counters(w.id, 0, 1, {w.id}), false, [], [],
           [Attempt(w, FirstDispatch, Settling(Fault(ExhaustedAttempts(1, REFUSED), w.id)), Some(Err(REFUSED)), true)])
  }

  /** The gateway with one waiting client, its record and a view of one worker. */
  function Single(r: Record, view: seq<Worker>, poll: Poll): Sys {
    Sys(view, [r], map[r.req.id := 0], [Waiting(r.req, 0)], poll)
  }

  lemma FirstArrival(req: Request, w: Worker)
    requires req.id != ""
    ensures SysRun(INITIAL, [PollSwap(Some([w])), Arrive(req, Some(w)), Admit(0)], Single(NewRecord(req, w), [w], Idle))
  {
    var s1 := INITIAL.(view := [w]);
    var s2 := s1.(handlers := [Picked(req, w)]);
    var s3 := Single(NewRecord(req, w), [w], Idle);
    assert After(INITIAL, PollSwap(Some([w]))) == s1;
    assert After(s1, Arrive(req, Some(w))) == s2;
    assert After(s2, Admit(0)) == s3;
    RunPrefix(s2, Admit(0), [], s3);
    RunPrefix(s1, Arrive(req, Some(w)), [Admit(0)], s3);
    RunPrefix(INITIAL, PollSwap(Some([w])), [Arrive(req, Some(w))] + [Admit(0)], s3);
    assert [PollSwap(Some([w]))] + ([Arrive(req, Some(w))] + [Admit(0)])
           == [PollSwap(Some([w])), Arrive(req, Some(w)), Admit(0)];
  }

  /** One step of the only attempt of the only record. */
  lemma SoleStep(r: Record, a: Action, view: seq<Worker>, poll: Poll, steps: seq<Step>, s': Sys)
    requires CanStep(Single(r, view, poll), Attempting(0, a))
    requires SysRun(Single(Apply(r, a), view, poll), steps, s') && Apply(r, a).req == r.req
    ensures SysRun(Single(r, view, poll), [Attempting(0, a)] + steps, s')
  {
    assert After(Single(r, view, poll), Attempting(0, a)) == Single(Apply(r, a), view, poll);
    RunPrefix(Single(r, view, poll), Attempting(0, a), steps, s');
  }

  lemma OnlyAttemptReturns(req: Request, w: Worker) returns (steps: seq<Step>)
    ensures SysRun(Single(NewRecord(req, w), [w], Idle), steps,
                   Single(Sole(req, w, Failed(REFUSED), Some(Err(REFUSED))), [w], Idle))
  {
    var r1, r2 := Sole(req, w, Running, None), Sole(req, w, Failed(REFUSED), Some(Err(REFUSED)));
    assert Apply(r1, Return(0, Err(REFUSED))) == r2;
    SoleStep(r1, Return(0, Err(REFUSED)), [w], Idle, [], Single(r2, [w], Idle));
    steps := [Attempting(0, Return(0, Err(REFUSED)))] + [];
    assert Apply(NewRecord(req, w), Launch(0)) == r1;
    SoleStep(NewRecord(req, w), Launch(0), [w], Idle, steps, Single(r2, [w], Idle));
    steps := [Attempting(0, Launch(0))] + steps;
  }

  lemma OnlyFailureIsHeld(req: Request, w: Worker) returns (steps: seq<Step>)
    ensures SysRun(Single(Sole(req, w, Failed(REFUSED), Some(Err(REFUSED))), [w], Idle), steps,
                   Single(Sole(req, w, Holding(REFUSED, []), Some(Err(REFUSED))), [w], Idle))
  {
    var r2 := Sole(req, w, Failed(REFUSED), Some(Err(REFUSED)));
    var r3 := Sole(req, w, Retrying(REFUSED), Some(Err(REFUSED)));
    var r4 := Sole(req, w, Holding(REFUSED, []), Some(Err(REFUSED)));
    assert Without([w], {w.id}) == [];
    assert Apply(r3, Snapshot(0, [])) == r4;
    SoleStep(r3, Snapshot(0, []), [w], Idle, [], Single(r4, [w], Idle));
    steps := [Attempting(0, Snapshot(0, []))] + [];
    assert Apply(r2, Check(0)) == r3;
    SoleStep(r2, Check(0), [w], Idle, steps, Single(r4, [w], Idle));
    steps := [Attempting(0, Check(0))] + steps;
  }

  lemma OnlyFailureIsBooked(req: Request, w: Worker)
    ensures SysRun(Single(Sole(req, w, Holding(REFUSED, []), Some(Err(REFUSED))), [w], Idle),
                   [Attempting(0, Lock(0, None))] + [], Single(FailedAlone(req, w), [w], Idle))
  {
    var r4 := Sole(req, w, Holding(REFUSED, []), Some(Err(REFUSED)));
    assert Apply(r4, Lock(0, None)) == FailedAlone(req, w);
    SoleStep(r4, Lock(0, None), [w], Idle, [], Single(FailedAlone(req, w), [w], Idle));
  }

  /** Between the unlock and the latch the view changes. */
  lemma PollComesFirst(r: Record, w1: Worker, w2: Worker) returns (steps: seq<Step>)
    requires w1.id != w2.id
    ensures SysRun(Single(r, [w1], Idle), steps, Single(r, [w2], Ready({w1.id}, [w2])))
  {
    var s8, s9, s10 := Single(r, [w1], Idle), Single(r, [w2], Departed({w1.id})), Single(r, [w2], Ready({w1.id}, [w2]));
    assert IdsOf([w1]) - IdsOf([w2]) == {w1.id};
    assert After(s8, PollSwap(Some([w2]))) == s9;
    assert Without([w2], {w1.id}) == [w2] by { assert [w2][..0] == []; }
    assert After(s9, PollSnapshot) == s10;
    RunPrefix(s9, PollSnapshot, [], s10);
    RunPrefix(s8, PollSwap(Some([w2])), [PollSnapshot] + [], s10);
    steps := [PollSwap(Some([w2]))] + ([PollSnapshot] + []);
  }

  /** And the poll rescues the request. */
  lemma RescueComesFirst(r: Record, w1: Worker, w2: Worker) returns (steps: seq<Step>)
    requires w1.id != w2.id && Stranded(r.c, {w1.id})
    ensures SysRun(Single(r, [w1], Idle), steps, Single(Apply(r, Reroute(w2)), [w2], Idle))
  {
    var s10, s11 := Single(r, [w2], Ready({w1.id}, [w2])), Single(Apply(r, Reroute(w2)), [w2], Idle);
    var choice := map[r.req.id := w2];
    assert After(s10, PollClaim(choice)).recs == s11.recs;
    var polling := PollComesFirst(r, w1, w2);
    RunPrefix(s10, PollClaim(choice), [], s11);
    RunThenRun(Single(r, [w1], Idle), polling, s10, [PollClaim(choice)] + [], s11);
    steps := polling + ([PollClaim(choice)] + []);
  }

  /** The rescued request runs on `w2`, and the error of the failed attempt has won. */
  ghost predicate Overtaken(s: Sys, req: Request, w1: Worker, w2: Worker) {
    && s.view == [w2] && s.handlers == [Waiting(req, 0)] && |s.recs| == 1
    && var r := s.recs[0];
       && r.req == req && |r.atts| == 2
       && r.atts[0].target == w1 && r.atts[0].pc.Won? && Exhausted(r.atts[0])
       && r.atts[1].target == w2 && r.atts[1].pc.Running?
  }

  lemma ErrorWinsTheRace(req: Request, w1: Worker, w2: Worker) returns (steps: seq<Step>, s': Sys)
    ensures SysRun(Single(Apply(FailedAlone(req, w1), Reroute(w2)), [w2], Idle), steps, s')
    ensures Overtaken(s', req, w1, w2)
  {
    var r := Apply(FailedAlone(req, w1), Reroute(w2));
    var r1 := Apply(r, Launch(1));
    s' := Single(Apply(r1, Cas(0)), [w2], Idle);
    SoleStep(r1, Cas(0), [w2], Idle, [], s');
    SoleStep(r, Launch(1), [w2], Idle, [Attempting(0, Cas(0))] + [], s');
    steps := [Attempting(0, Launch(1))] + ([Attempting(0, Cas(0))] + []);
  }

  lemma ClientMeetsFailure(req: Request, w: Worker) returns (steps: seq<Step>)
    requires req.id != ""
    ensures SysRun(INITIAL, steps, Single(FailedAlone(req, w), [w], Idle))
  {
    FirstArrival(req, w);
    steps := [PollSwap(Some([w])), Arrive(req, Some(w)), Admit(0)];
    var failing := OnlyAttemptReturns(req, w);
    var holding := OnlyFailureIsHeld(req, w);
    var s3 := Single(NewRecord(req, w), [w], Idle);
    var s4 := Single(Sole(req, w, Failed(REFUSED), Some(Err(REFUSED))), [w], Idle);
    var s7 := Single(Sole(req, w, Holding(REFUSED, []), Some(Err(REFUSED))), [w], Idle);
    OnlyFailureIsBooked(req, w);
    RunThenRun(INITIAL, steps, s3, failing, s4);
    steps := steps + failing;
    RunThenRun(INITIAL, steps, s4, holding, s7);
    steps := steps + holding;
    RunThenRun(INITIAL, steps, s7, [Attempting(0, Lock(0, None))] + [], Single(FailedAlone(req, w), [w], Idle));
    steps := steps + ([Attempting(0, Lock(0, None))] + []);
  }

  /** The error can be the answer although a rescued attempt is running: the worker fails, the
      view moves on to another one, and the poll claims for it between the unlock and the
      latch. */
  lemma ErrorCanOvertakeReroute(req: Request, w1: Worker, w2: Worker)
    requires req.id != "" && w1.id != w2.id
    ensures exists steps, s :: SysRun(INITIAL, steps, s) && Overtaken(s, req, w1, w2)
  {
    var s8 := Single(FailedAlone(req, w1), [w1], Idle);
    var s11 := Single(Apply(FailedAlone(req, w1), Reroute(w2)), [w2], Idle);
    var failing := ClientMeetsFailure(req, w1);
    var rescue := RescueComesFirst(FailedAlone(req, w1), w1, w2);
    var winning, s' := ErrorWinsTheRace(req, w1, w2);
    RunThenRun(INITIAL, failing, s8, rescue, s11);
    RunThenRun(INITIAL, failing + rescue, s11, winning, s');
  }
}
