/** Request ids are reused; records are not. What one incarnation of a request does never
    reaches another. */
module Isolation {
  import opened Rpc
  import opened Race
  import opened System
  import opened SystemSafety

  /** The deferred `unregister` deletes by id, yet removes only the handler's own record:
      every other registered record stays registered. */
  lemma UnregisterRemovesOwn(s: Sys, h: nat)
    requires HandlersOk(s) && CanStep(s, Unregister(h))
    ensures
      var s', id, p := After(s, Unregister(h)), s.handlers[h].req.id, s.handlers[h].p;
      && id in s.table && s.table[id] == p && !Registered(s', p)
      && s'.recs == s.recs
      && (forall q: nat :: q != p ==> (Registered(s', q) <==> Registered(s, q)))
  {
    assert HandlerOk(s, s.handlers[h]);
  }

  /** A rejected duplicate changes nothing but its own reply, and whatever happens later it
      never unregisters anything. */
  lemma DuplicateIsHarmless(s: Sys, h: nat, steps: seq<Step>, s': Sys)
    requires CanStep(s, Admit(h)) && s.handlers[h].req.id in s.table
    requires SysRun(After(s, Admit(h)), steps, s')
    ensures After(s, Admit(h)) == s.(handlers := After(s, Admit(h)).handlers)
    ensures forall g: nat :: g < |s.handlers| && g != h ==> After(s, Admit(h)).handlers[g] == s.handlers[g]
    ensures h < |s'.handlers| && s'.handlers[h].Returned? && s'.handlers[h].reply.Refused?
    ensures CodeOf(s'.handlers[h].reply.err) == AlreadyExists
    ensures Unregister(h) !in steps
  {
    ReturnedIsFinal(After(s, Admit(h)), h, steps, s');
  }

  lemma {:induction false} ReturnedIsFinal(s: Sys, h: nat, steps: seq<Step>, s': Sys)
    requires h < |s.handlers| && s.handlers[h].Returned? && SysRun(s, steps, s')
    ensures h < |s'.handlers| && s'.handlers[h] == s.handlers[h] && Unregister(h) !in steps
    decreases |steps|
  {
    if steps != [] {
      ReturnedIsFinal(After(s, steps[0]), h, steps[1..], s');
      assert steps == [steps[0]] + steps[1..];
    }
  }

  /** As long as its handler is active, a record keeps its table entry, through all runs:
      no duplicate, no other handler and no reroute takes it away. */
  lemma {:induction false} EntryLastsWithHandler(s: Sys, h: nat, steps: seq<Step>, s': Sys)
    requires SysInv(s) && SysRun(s, steps, s') && h < |s.handlers|
    ensures Active(s.handlers[h]) ==>
              && h < |s'.handlers| && Owns(s'.handlers[h], s.handlers[h].p)
              && (Active(s'.handlers[h]) ==> Registered(s', s.handlers[h].p))
    decreases |steps|
  {
    if Active(s.handlers[h]) {
      OwnershipLasts(s, h, s.handlers[h].p, steps, s');
      RunKeepsSysInv(s, steps, s');
      assert HandlerOk(s', s'.handlers[h]);
    }
  }

  lemma {:induction false} OwnershipLasts(s: Sys, h: nat, p: nat, steps: seq<Step>, s': Sys)
    requires SysRun(s, steps, s') && h < |s.handlers| && Owns(s.handlers[h], p)
    ensures h < |s'.handlers| && Owns(s'.handlers[h], p)
    decreases |steps|
  {
    if steps != [] {
      HandlerEvolves(s, steps[0], h);
      OwnershipLasts(After(s, steps[0]), h, p, steps[1..], s');
    }
  }

  /** Once a record has left the table it never comes back, and no reroute or handler
      touches it again, even when its request id is registered anew: the rest of its life
      is its own attempts running out. */
  lemma {:induction false} RetiredRunsAlone(s: Sys, steps: seq<Step>, s': Sys, p: nat) returns (acts: seq<Action>)
    requires SysInv(s) && SysRun(s, steps, s') && p < |s.recs| && !Registered(s, p)
    ensures p < |s'.recs| && !Registered(s', p)
    ensures Run(s.recs[p], acts, s'.recs[p])
    ensures forall a :: a in acts ==> !a.Reroute? && !a.Receive?
    decreases |steps|
  {
    if steps == [] {
      acts := [];
    } else {
      var st, n := steps[0], After(s, steps[0]);
      StepKeepsSysInv(s, st);
      RetiredStep(s, st, p);
      acts := RetiredRunsAlone(n, steps[1..], s', p);
      if n.recs[p] != s.recs[p] {
        assert ([st.a] + acts)[1..] == acts;
        acts := [st.a] + acts;
      }
    }
  }

  lemma RetiredStep(s: Sys, st: Step, p: nat)
    requires SysInv(s) && CanStep(s, st) && p < |s.recs| && !Registered(s, p)
    ensures
      var n := After(s, st);
      && p < |n.recs| && !Registered(n, p)
      && (n.recs[p] != s.recs[p] ==>
            st.Attempting? && st.p == p && Enabled(s.recs[p], st.a) && n.recs[p] == Apply(s.recs[p], st.a)
            && !st.a.Reroute? && !st.a.Receive?)
  {
    RecordKeeps(s, st, p);
    match st
    case Take(h) => assert HandlerOk(s, s.handlers[h]);
    case _ =>
  }

  // ---------- old attempts are invisible ----------

  /** The gateway with `r` in place of record `p`. */
  function WithRecord(s: Sys, p: nat, r: Record): Sys
    requires p < |s.recs|
  {
    s.(recs := s.recs[p := r])
  }

  /** The run without the attempts of record `p`. */
  function Erased(steps: seq<Step>, p: nat): seq<Step> {
    if steps == [] then []
    else (if steps[0].Attempting? && steps[0].p == p then [] else [steps[0]]) + Erased(steps[1..], p)
  }

  lemma SwapKeepsTable(s: Sys, p: nat, r: Record)
    requires p < |s.recs| && r.req == s.recs[p].req
    ensures forall q: nat :: Registered(WithRecord(s, p, r), q) <==> Registered(s, q)
    ensures !Registered(s, p) ==> forall q: nat :: Victim(WithRecord(s, p, r), q) <==> Victim(s, q)
  {
  }

  lemma ClaimIgnoresRetired(s: Sys, choice: map<string, Worker>, p: nat, r: Record)
    requires p < |s.recs| && !Registered(s, p) && r.req == s.recs[p].req && CanStep(s, PollClaim(choice))
    ensures CanStep(WithRecord(s, p, r), PollClaim(choice))
    ensures After(WithRecord(s, p, r), PollClaim(choice)) == WithRecord(After(s, PollClaim(choice)), p, r)
  {
    SwapKeepsTable(s, p, r);
    var t := WithRecord(s, p, r);
    forall q: nat | q < |t.recs| && Victim(t, q)
      ensures t.recs[q].req.id in choice && choice[t.recs[q].req.id] in t.poll.healthy
    {
      assert Victim(s, q) && q != p;
    }
    assert forall q: nat :: q < |s.recs| && q != p ==> t.recs[q] == s.recs[q];
    assert After(t, PollClaim(choice)).recs == WithRecord(After(s, PollClaim(choice)), p, r).recs;
  }

  lemma AdmitIgnoresOthers(s: Sys, h: nat, p: nat, r: Record)
    requires CanStep(s, Admit(h)) && p < |s.recs|
    ensures After(WithRecord(s, p, r), Admit(h)) == WithRecord(After(s, Admit(h)), p, r)
  {
    var added := NewRecord(s.handlers[h].req, s.handlers[h].worker);
    assert (s.recs + [added])[p := r] == s.recs[p := r] + [added];
  }

  lemma AttemptIgnoresOthers(s: Sys, q: nat, a: Action, p: nat, r: Record)
    requires CanStep(s, Attempting(q, a)) && p < |s.recs| && p != q
    ensures CanStep(WithRecord(s, p, r), Attempting(q, a))
    ensures After(WithRecord(s, p, r), Attempting(q, a)) == WithRecord(After(s, Attempting(q, a)), p, r)
  {
  }

  lemma LeavingIgnoresRetired(s: Sys, h: nat, p: nat, r: Record)
    requires HandlersOk(s) && p < |s.recs| && !Registered(s, p)
    ensures CanStep(s, Take(h)) ==>
              && CanStep(WithRecord(s, p, r), Take(h))
              && After(WithRecord(s, p, r), Take(h)) == WithRecord(After(s, Take(h)), p, r)
    ensures CanStep(s, Cancel(h)) ==>
              && CanStep(WithRecord(s, p, r), Cancel(h))
              && After(WithRecord(s, p, r), Cancel(h)) == WithRecord(After(s, Cancel(h)), p, r)
  {
    if h < |s.handlers| { assert HandlerOk(s, s.handlers[h]); }
  }

  lemma StepIgnoresRetired(s: Sys, st: Step, p: nat, r: Record)
    requires SysInv(s) && CanStep(s, st) && p < |s.recs| && !Registered(s, p) && r.req == s.recs[p].req
    requires !(st.Attempting? && st.p == p)
    ensures CanStep(WithRecord(s, p, r), st) && p < |After(s, st).recs|
    ensures After(WithRecord(s, p, r), st) == WithRecord(After(s, st), p, r)
  {
    match st
    case PollClaim(choice) => ClaimIgnoresRetired(s, choice, p, r);
    case Take(h) => LeavingIgnoresRetired(s, h, p, r);
    case Cancel(h) => LeavingIgnoresRetired(s, h, p, r);
    case Admit(h) => AdmitIgnoresOthers(s, h, p, r);
    case Attempting(q, a) => AttemptIgnoresOthers(s, q, a, p, r);
    case _ =>
  }

  /** What the attempts of an old incarnation do is invisible: strike them from a run, and all
      the rest of it, the new incarnation of the request id included, goes exactly as before.
      Only the old record is different in the end. */
  lemma {:induction false} IncarnationsAreApart(s: Sys, steps: seq<Step>, s': Sys, p: nat, r: Record)
    requires SysInv(s) && SysRun(s, steps, s') && p < |s.recs| && !Registered(s, p) && r.req == s.recs[p].req
    ensures p < |s'.recs| && SysRun(WithRecord(s, p, r), Erased(steps, p), WithRecord(s', p, r))
    decreases |steps|
  {
    if steps != [] {
      var st, n := steps[0], After(s, steps[0]);
      StepKeepsSysInv(s, st);
      RetiredStep(s, st, p);
      RecordKeeps(s, st, p);
      IncarnationsAreApart(n, steps[1..], s', p, r);
      if st.Attempting? && st.p == p {
        assert WithRecord(n, p, r) == WithRecord(s, p, r);
        assert Erased(steps, p) == Erased(steps[1..], p);
      } else {
        StepIgnoresRetired(s, st, p, r);
        assert Erased(steps, p)[1..] == Erased(steps[1..], p);
      }
    }
  }
}
