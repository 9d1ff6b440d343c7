/** The bridge from membership to the race: what becomes of each disappearance over a whole
    run, and that the scan of the tracker is one step of the gateway. */
module Poll {
  import opened Rpc
  import opened Budget
  import opened Race
  import opened System
  import opened SystemSafety

  // ---------- what becomes of each disappearance ----------

  /** What may happen to worker `id` in one step: it enters the view, a poll reports it as
      departed, the report is dropped for want of a target, or the scan claims for it. */
  datatype Occasion = Entry | Report | Drop | Rescue

  ghost predicate Happens(o: Occasion, s: Sys, st: Step, id: string)
    requires CanStep(s, st)
  {
    match o
    case Entry => id !in IdsOf(s.view) && id in IdsOf(After(s, st).view)
    case Report => st.PollSwap? && id in Pending(After(s, st).poll)
    case Drop => st.PollSnapshot? && id in s.poll.ids && Without(s.view, s.poll.ids) == []
    case Rescue => st.PollClaim? && id in s.poll.ids
  }

  /** The departed ids that the poll loop still holds. */
  function Pending(poll: Poll): set<string> {
    match poll
    case Idle => {}
    case Departed(ids) => ids
    case Ready(ids, _) => ids
  }

  /** How often `o` happens to `id` in the run. */
  ghost function Tally(o: Occasion, s: Sys, steps: seq<Step>, id: string): nat
    decreases |steps|
  {
    if steps == [] || !CanStep(s, steps[0]) then 0
    else (if Happens(o, s, steps[0], id) then 1 else 0) + Tally(o, After(s, steps[0]), steps[1..], id)
  }

  /** Membership of `id`, as a count. */
  function One(id: string, ids: set<string>): nat { if id in ids then 1 else 0 }

  lemma OneStepLedger(s: Sys, st: Step, id: string)
    requires CanStep(s, st)
    ensures
      var s' := After(s, st);
      var report := if Happens(Report, s, st, id) then 1 else 0;
      && report + One(id, IdsOf(s'.view)) == (if Happens(Entry, s, st, id) then 1 else 0) + One(id, IdsOf(s.view))
      && report + One(id, Pending(s.poll))
         == (if Happens(Drop, s, st, id) then 1 else 0) + (if Happens(Rescue, s, st, id) then 1 else 0)
            + One(id, Pending(s'.poll))
  {
  }

  lemma {:induction false} RunLedger(s: Sys, steps: seq<Step>, s': Sys, id: string)
    requires SysRun(s, steps, s')
    ensures Tally(Report, s, steps, id) + One(id, IdsOf(s'.view)) == Tally(Entry, s, steps, id) + One(id, IdsOf(s.view))
    ensures Tally(Report, s, steps, id) + One(id, Pending(s.poll))
            == Tally(Drop, s, steps, id) + Tally(Rescue, s, steps, id) + One(id, Pending(s'.poll))
    decreases |steps|
  {
    if steps != [] {
      OneStepLedger(s, steps[0], id);
      RunLedger(After(s, steps[0]), steps[1..], s', id);
    }
  }

  /** Poll ledger over every run of the gateway: each time a worker leaves the view it is
      reported exactly once, and each report is claimed for once, or dropped once because
      nobody healthy was left, or is still in the poll loop's hands. */
  lemma PollLedger(steps: seq<Step>, s: Sys, id: string)
    requires SysRun(INITIAL, steps, s)
    ensures Tally(Report, INITIAL, steps, id) + One(id, IdsOf(s.view)) == Tally(Entry, INITIAL, steps, id)
    ensures Tally(Report, INITIAL, steps, id)
            == Tally(Drop, INITIAL, steps, id) + Tally(Rescue, INITIAL, steps, id) + One(id, Pending(s.poll))
  {
    RunLedger(INITIAL, steps, s, id);
  }

  /** Record `r` gained one rerouted attempt at worker `w`, not launched yet, and nothing else
      but the count of it. */
  ghost predicate GainsAttempt(r: Record, r': Record, w: Worker) {
    && |r'.atts| == |r.atts| + 1 && r'.atts[..|r.atts|] == r.atts
    && r'.atts[|r.atts|] == Attempt(w, Rerouted, Owed, None, false)
    && r'.c == Counters(w.id, r.c.attempts + 1, r.c.dispatched + 1, r.c.tried)
    && r'.req == r.req && r'.claimed == r.claimed && r'.buffer == r.buffer && r'.received == r.received
  }

  /** A claiming step, record by record: who is registered, has budget left and is assigned to
      a departed worker gains one attempt at the healthy worker chosen for it, however many
      are in the air; everybody else is as before. */
  lemma ClaimByAssignee(s: Sys, choice: map<string, Worker>, p: nat)
    requires SysInv(s) && CanStep(s, PollClaim(choice)) && p < |s.recs|
    ensures
      var s', r := After(s, PollClaim(choice)), s.recs[p];
      && |s'.recs| == |s.recs|
      && (if Registered(s, p) && r.c.dispatched < 3 && r.c.assignee in s.poll.ids then
            && r.req.id in choice && choice[r.req.id] in s.poll.healthy && choice[r.req.id].id !in s.poll.ids
            && GainsAttempt(r, s'.recs[p], choice[r.req.id])
          else s'.recs[p] == r)
  {
    if Victim(s, p) {
      var w := choice[s.recs[p].req.id];
      assert w.id in IdsOf(s.poll.healthy);
      assert After(s, PollClaim(choice)).recs[p] == Apply(s.recs[p], Reroute(w));
    }
  }

  /** Reassignment follows dispatch on both failure paths: over every run of the gateway, a
      claiming step rescues a registered request with budget left if and only if the worker of
      its latest dispatch is among the departed, and after it the worker of the latest
      dispatch of every registered request with budget left is not. */
  lemma ClaimByLatestTarget(steps: seq<Step>, s: Sys, choice: map<string, Worker>, p: nat)
    requires SysRun(INITIAL, steps, s) && CanStep(s, PollClaim(choice)) && p < |s.recs| && Registered(s, p)
    ensures s.recs[p].atts != []
    ensures
      var r, r' := s.recs[p], After(s, PollClaim(choice)).recs[p];
      var latest, latest' := r.atts[|r.atts| - 1].target.id, r'.atts[|r'.atts| - 1].target.id;
      && (|r'.atts| == |r.atts| + 1 <==> |r.atts| < 3 && latest in s.poll.ids)
      && (|r'.atts| == |r.atts| <==> r' == r)
      && (|r'.atts| < 3 ==> latest' !in s.poll.ids)
      && r'.c.assignee == latest'
  {
    ReachableIsOk(steps, s);
    assert CountersOk(s.recs[p]);
    ClaimByAssignee(s, choice, p);
  }

  /** The targets on offer are all the workers of the view that did not depart; with none, the
      report is dropped and nothing else happens. */
  lemma SnapshotOffersAll(s: Sys)
    requires CanStep(s, PollSnapshot)
    ensures
      var s' := After(s, PollSnapshot);
      && s' == s.(poll := s'.poll)
      && (if exists w :: w in s.view && w.id !in s.poll.ids then
            && s'.poll.Ready? && s'.poll.ids == s.poll.ids
            && forall w :: w in s'.poll.healthy <==> w in s.view && w.id !in s.poll.ids
          else s'.poll == Idle)
  {
    var healthy := Without(s.view, s.poll.ids);
    if healthy != [] { assert healthy[0] in healthy; }
  }

  /** The scan may pick any healthy worker for everybody. */
  lemma AnyHealthyTarget(s: Sys, w: Worker) returns (choice: map<string, Worker>)
    requires s.poll.Ready? && w in s.poll.healthy
    ensures CanStep(s, PollClaim(choice))
    ensures forall p: nat :: p < |s.recs| ==> s.recs[p].req.id in choice && choice[s.recs[p].req.id] == w
  {
    choice := map r | r in s.recs :: r.req.id := w;
    assert forall p: nat :: p < |s.recs| ==> s.recs[p].req.id in choice;
  }

  /** A rescued report leaves no registered request with budget on the departed worker. */
  lemma RescueIsComplete(s: Sys, st: Step, id: string, p: nat)
    requires SysInv(s) && CanStep(s, st) && Happens(Rescue, s, st, id) && Registered(s, p)
    ensures
      var c := After(s, st).recs[p].c;
      c.assignee == id ==> c.dispatched == 3
    ensures s.recs[p].c.assignee == id && s.recs[p].c.dispatched < 3 ==>
              exists w :: w in s.poll.healthy && GainsAttempt(s.recs[p], After(s, st).recs[p], w)
  {
    ClaimByAssignee(s, st.choice, p);
    assert CountersOk(s.recs[p]);
  }

  // ---------- the view ----------

  /** What the last successful poll of `steps` answered, or `view` when there was none. */
  function LastAnswer(view: seq<Worker>, steps: seq<Step>): seq<Worker>
    decreases |steps|
  {
    if steps == [] then view
    else
      match steps[0]
      case PollSwap(Some(latest)) => LastAnswer(latest, steps[1..])
      case _ => LastAnswer(view, steps[1..])
  }

  lemma {:induction false} ViewFollows(s: Sys, steps: seq<Step>, s': Sys)
    requires SysRun(s, steps, s')
    ensures s'.view == LastAnswer(s.view, steps)
    decreases |steps|
  {
    if steps != [] { ViewFollows(After(s, steps[0]), steps[1..], s'); }
  }

  /** In every run the view is the answer of the last successful poll, and empty before the
      first; a failed poll changes nothing at all. */
  lemma ViewIsLastAnswer(steps: seq<Step>, s: Sys)
    requires SysRun(INITIAL, steps, s)
    ensures s.view == LastAnswer([], steps)
    ensures s.poll.Idle? ==> After(s, PollSwap(None)) == s
  {
    ViewFollows(INITIAL, steps, s);
  }

  // ---------- the scan of the table ----------

  /** The counters the tracker's table leads to. */
  function TableOf(s: Sys): map<string, Counters> {
    map id | id in s.table && s.table[id] < |s.recs| :: s.recs[s.table[id]].c
  }

  /** The picks that `choice` makes for the victims of the scan. */
  function PicksOf(s: Sys, choice: map<string, Worker>): map<string, Worker> {
    map id | id in Victims(TableOf(s), PollIds(s)) && id in choice :: choice[id]
  }

  function PollIds(s: Sys): set<string> {
    if s.poll.Ready? then s.poll.ids else {}
  }

  lemma PicksAreHealthy(s: Sys, choice: map<string, Worker>)
    requires TableOk(s) && PollOk(s) && CanStep(s, PollClaim(choice))
    ensures PicksOf(s, choice).Keys == Victims(TableOf(s), s.poll.ids)
    ensures forall id :: id in PicksOf(s, choice) ==>
              choice[id] in s.poll.healthy && PicksOf(s, choice)[id].id !in s.poll.ids
  {
    forall id | id in Victims(TableOf(s), s.poll.ids)
      ensures id in choice && choice[id] in s.poll.healthy && choice[id].id !in s.poll.ids
    {
      assert Victim(s, s.table[id]);
      assert choice[id].id in IdsOf(s.poll.healthy);
    }
  }

  /** Entry `id` of the table, before and after the scan. */
  ghost predicate EntryMoves(s: Sys, s': Sys, ids: set<string>, choice: map<string, Worker>, id: string) {
    id in s.table ==>
      var p := s.table[id];
      && p < |s.recs| == |s'.recs| && s'.table == s.table
      && (if Stranded(s.recs[p].c, ids) then id in choice && s'.recs[p].c == Claim(s.recs[p].c, choice[id].id)
          else s'.recs[p].c == s.recs[p].c)
  }

  lemma ClaimMovesEntry(s: Sys, choice: map<string, Worker>, id: string)
    requires TableOk(s) && CanStep(s, PollClaim(choice))
    ensures EntryMoves(s, Claimed(s, choice), s.poll.ids, choice, id)
  {
    if id in s.table {
      assert Victim(s, s.table[id]) <==> Stranded(s.recs[s.table[id]].c, s.poll.ids);
    }
  }

  lemma EntriesMakeTable(s: Sys, s': Sys, choice: map<string, Worker>)
    requires s.poll.Ready? && s'.table == s.table
    requires forall id :: EntryMoves(s, s', s.poll.ids, choice, id)
    ensures TableOf(s') == RerouteAll(TableOf(s), PicksOf(s, choice))
  {
    assert forall id :: id in s.table ==> EntryMoves(s, s', s.poll.ids, choice, id);
  }

  lemma ClaimMovesTable(s: Sys, choice: map<string, Worker>)
    requires TableOk(s) && CanStep(s, PollClaim(choice))
    ensures TableOf(Claimed(s, choice)) == RerouteAll(TableOf(s), PicksOf(s, choice))
  {
    forall id ensures EntryMoves(s, Claimed(s, choice), s.poll.ids, choice, id) {
      ClaimMovesEntry(s, choice, id);
    }
    EntriesMakeTable(s, Claimed(s, choice), choice);
  }

  /** In the step system, phase 2 is the same scan that `ClaimStranded` makes over the
      objects: exactly the stranded requests of the table are claimed, for workers that
      did not depart, and an immediate rerun finds nobody. */
  lemma PollClaimIsReroute(s: Sys, choice: map<string, Worker>)
    requires SysInv(s) && CanStep(s, PollClaim(choice))
    ensures
      var now, picks := TableOf(After(s, PollClaim(choice))), PicksOf(s, choice);
      && picks.Keys == Victims(TableOf(s), s.poll.ids)
      && now == RerouteAll(TableOf(s), picks)
      && Victims(now, s.poll.ids) == {}
      && Spent(now) == Spent(TableOf(s)) + |picks|
  {
    PicksAreHealthy(s, choice);
    ClaimMovesTable(s, choice);
    RerouteIsClaim(TableOf(s), s.poll.ids, PicksOf(s, choice));
  }
}
