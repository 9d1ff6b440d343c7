/** The facts about a still fleet, with everybody else interleaved: any number of clients
    come, share the fleet, are answered as the workers please, give up and leave. Still are
    only the worker ids of the view, and what the workers answer to the one call looked at. */
module Steady {
  import opened Rpc
  import opened Race
  import opened Calm
  import opened System
  import opened SystemSafety

  /** No poll changes who is in the view, though it may reorder it or change addresses; and
      for record `p`, worker `id` answers `rpc(id)`. Other records' RPCs answer anything. */
  predicate SteadyStep(p: nat, rpc: string -> Outcome, s: Sys, st: Step) {
    && CanStep(s, st)
    && match st
       case PollSwap(resp) => IdsOf(Polled(s.view, resp)) == IdsOf(s.view)
       case Attempting(q, Return(k, outcome)) => q == p ==> outcome == rpc(s.recs[q].atts[k].target.id)
       case _ => true
  }

  ghost predicate SteadyRun(p: nat, rpc: string -> Outcome, s: Sys, steps: seq<Step>, s': Sys)
    decreases |steps|
  {
    if steps == [] then s == s'
    else SteadyStep(p, rpc, s, steps[0]) && SteadyRun(p, rpc, After(s, steps[0]), steps[1..], s')
  }

  /** A call that came in the steady time: picked from the fleet, and calm if record `p` is
      its own. */
  ghost predicate CallOk(fleet: set<string>, p: nat, rpc: string -> Outcome, s: Sys, h: Handler) {
    && (h.Picked? ==> h.worker.id in fleet)
    && (Owns(h, p) ==> p < |s.recs| && CalmInv(fleet, rpc, s.recs[p]))
  }

  /** All calls from number `n` on came in the steady time. */
  ghost predicate SteadyInv(fleet: set<string>, p: nat, rpc: string -> Outcome, n: nat, s: Sys) {
    && IdsOf(s.view) == fleet && s.poll.Idle? && n <= |s.handlers|
    && forall h: nat :: n <= h < |s.handlers| ==> CallOk(fleet, p, rpc, s, s.handlers[h])
  }

  /** Every step of the gateway moves record `p` by at most one step of the calm race. */
  lemma StepRefinesCalm(p: nat, rpc: string -> Outcome, s: Sys, st: Step)
    requires SteadyStep(p, rpc, s, st) && s.poll.Idle? && p < |s.recs|
    ensures p < |After(s, st).recs|
    ensures
      var r, r' := s.recs[p], After(s, st).recs[p];
      r' == r || exists a :: CalmEnabled(IdsOf(s.view), rpc, r, a) && r' == Apply(r, a)
  {
    match st
    case Take(h) =>
      if s.handlers[h].p == p { assert CalmEnabled(IdsOf(s.view), rpc, s.recs[p], Receive); }
    case Attempting(q, a) =>
      if q == p {
        if a.Snapshot? { IdsWithout(s.view, {s.recs[p].atts[a.k].target.id}); }
        assert CalmEnabled(IdsOf(s.view), rpc, s.recs[p], a);
      }
    case _ =>
  }

  lemma RecordStaysCalm(p: nat, rpc: string -> Outcome, s: Sys, st: Step)
    requires SteadyStep(p, rpc, s, st) && s.poll.Idle? && p < |s.recs| && CalmInv(IdsOf(s.view), rpc, s.recs[p])
    ensures p < |After(s, st).recs| && CalmInv(IdsOf(s.view), rpc, After(s, st).recs[p])
  {
    StepRefinesCalm(p, rpc, s, st);
    var r, r' := s.recs[p], After(s, st).recs[p];
    if r' != r {
      var a :| CalmEnabled(IdsOf(s.view), rpc, r, a) && r' == Apply(r, a);
      CalmStep(IdsOf(s.view), rpc, r, a);
    }
  }

  lemma ViewStaysSteady(p: nat, rpc: string -> Outcome, s: Sys, st: Step)
    requires SteadyStep(p, rpc, s, st) && s.poll.Idle?
    ensures IdsOf(After(s, st).view) == IdsOf(s.view) && After(s, st).poll.Idle?
    ensures |s.handlers| <= |After(s, st).handlers|
  {
  }

  lemma PickIsInFleet(fleet: set<string>, p: nat, rpc: string -> Outcome, n: nat, s: Sys, st: Step, h: nat)
    requires SteadyInv(fleet, p, rpc, n, s) && SteadyStep(p, rpc, s, st)
    requires n <= h < |After(s, st).handlers| && After(s, st).handlers[h].Picked?
    ensures After(s, st).handlers[h].worker.id in fleet
  {
    if h < |s.handlers| { assert CallOk(fleet, p, rpc, s, s.handlers[h]); }
  }

  lemma CallStaysOk(fleet: set<string>, p: nat, rpc: string -> Outcome, n: nat, s: Sys, st: Step, h: nat)
    requires SteadyInv(fleet, p, rpc, n, s) && SteadyStep(p, rpc, s, st) && n <= h < |After(s, st).handlers|
    ensures CallOk(fleet, p, rpc, After(s, st), After(s, st).handlers[h])
  {
    var s' := After(s, st);
    if s'.handlers[h].Picked? { PickIsInFleet(fleet, p, rpc, n, s, st, h); }
    if Owns(s'.handlers[h], p) {
      OwnershipOrigin(s, st, h, p);
      assert CallOk(fleet, p, rpc, s, s.handlers[h]);
      if Owns(s.handlers[h], p) {
        RecordStaysCalm(p, rpc, s, st);
      } else {
        CalmStart(fleet, rpc, s.handlers[h].req, s.handlers[h].worker);
      }
    }
  }

  lemma SteadyStepKeeps(fleet: set<string>, p: nat, rpc: string -> Outcome, n: nat, s: Sys, st: Step)
    requires SteadyInv(fleet, p, rpc, n, s) && SteadyStep(p, rpc, s, st)
    ensures SteadyInv(fleet, p, rpc, n, After(s, st))
  {
    var s' := After(s, st);
    ViewStaysSteady(p, rpc, s, st);
    forall h: nat | n <= h < |s'.handlers| ensures CallOk(fleet, p, rpc, s', s'.handlers[h]) {
      CallStaysOk(fleet, p, rpc, n, s, st, h);
    }
  }

  lemma {:induction false} SteadyRunKeeps(fleet: set<string>, p: nat, rpc: string -> Outcome, n: nat,
                                          s: Sys, steps: seq<Step>, s': Sys)
    requires SteadyInv(fleet, p, rpc, n, s) && SteadyRun(p, rpc, s, steps, s') && SysInv(s)
    ensures SteadyInv(fleet, p, rpc, n, s') && SysInv(s')
    decreases |steps|
  {
    if steps != [] {
      SteadyStepKeeps(fleet, p, rpc, n, s, steps[0]);
      StepKeepsSysInv(s, steps[0]);
      SteadyRunKeeps(fleet, p, rpc, n, After(s, steps[0]), steps[1..], s');
    }
  }

  lemma SteadyStart(s: Sys, p: nat, rpc: string -> Outcome)
    requires SysInv(s) && s.poll.Idle?
    ensures SteadyInv(IdsOf(s.view), p, rpc, |s.handlers|, s)
  {
  }

  /** Pigeonhole success and exact dispatch count among other clients: after any run of the
      gateway, a call that comes and is served while the fleet holds still ends as the fleet
      decides, for every interleaving and every sequence of picks, and whatever the workers
      answer to anybody else. */
  lemma SteadyCallEndsWell(before: seq<Step>, s: Sys, p: nat, rpc: string -> Outcome, steps: seq<Step>, s': Sys, h: nat)
    requires SysRun(INITIAL, before, s) && s.poll.Idle? && SteadyRun(p, rpc, s, steps, s')
    requires AnswersOrFailsRetryably(IdsOf(s.view), rpc)
    requires |s.handlers| <= h < |s'.handlers| && s'.handlers[h].Returned? && s'.handlers[h].reply.Served?
    requires s'.handlers[h].home == Some(p)
    ensures p < |s'.recs|
    ensures
      var r := s'.recs[p];
      && |r.buffer| + |r.received| == 1 && ResultOf(r) == s'.handlers[h].reply.result
      && CallEnding(IdsOf(s.view), rpc, r)
  {
    ReachableIsOk(before, s);
    SteadyStart(s, p, rpc);
    SteadyRunKeeps(IdsOf(s.view), p, rpc, |s.handlers|, s, steps, s');
    assert HandlerOk(s', s'.handlers[h]) && CallOk(IdsOf(s.view), p, rpc, s', s'.handlers[h]);
    LandedMeansQuiescent(IdsOf(s.view), rpc, s'.recs[p]);
    CalmCallEnds(IdsOf(s.view), rpc, s'.recs[p]);
  }
}
