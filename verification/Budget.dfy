/** The part of an in-flight record that the tracker's mutex guards, as a value, and
    what the two failure paths do to it while they hold that mutex. */
module Budget {
  import opened Rpc

  const MAX_ATTEMPTS: int := 3

  datatype Counters = Counters(assignee: string, attempts: int, dispatched: int, tried: set<string>)

  /** Admission counts as a dispatch. */
  function Admitted(workerID: string): Counters {
    Counters(workerID, 1, 1, {})
  }

  /** A claim moves the request to another worker: one more attempt in the air, one more unit spent. */
  function Claim(c: Counters, workerID: string): Counters {
    c.(assignee := workerID, attempts := c.attempts + 1, dispatched := c.dispatched + 1)
  }

  /** One attempt is over, and its worker has provably failed. */
  function Fail(c: Counters, workerID: string): Counters {
    c.(attempts := c.attempts - 1, tried := c.tried + {workerID})
  }

  /** The choices left to the random pick once a failure has been booked in `f`: some
      untried candidate while budget and candidates last, nothing otherwise. */
  predicate MayReplace(f: Counters, candidates: seq<Worker>, replacement: Option<Worker>) {
    if f.dispatched < MAX_ATTEMPTS && Without(candidates, f.tried) != [] then
      replacement.Some? && replacement.value in Without(candidates, f.tried)
    else
      replacement.None?
  }

  function AfterFailure(c: Counters, workerID: string, replacement: Option<Worker>): Counters {
    var f := Fail(c, workerID);
    if replacement.Some? then Claim(f, replacement.value.id) else f
  }

  /** The slow path's victims: assigned to a departed worker, with budget left. */
  predicate Stranded(c: Counters, departed: set<string>) {
    c.assignee in departed && c.dispatched < MAX_ATTEMPTS
  }

  // ---------- the reroute over the whole table ----------

  function Victims(was: map<string, Counters>, departed: set<string>): set<string> {
    set id | id in was && Stranded(was[id], departed)
  }

  /** Phase 2 of `rerouteFrom`: each picked request is claimed for its target. */
  function RerouteAll(was: map<string, Counters>, picks: map<string, Worker>): map<string, Counters> {
    map id | id in was :: if id in picks then Claim(was[id], picks[id].id) else was[id]
  }

  lemma NothingToReroute(was: map<string, Counters>)
    ensures RerouteAll(was, map[]) == was && Victims(was, {}) == {}
  {
  }

  /** Halfway through the scan: `todo` is still to be looked at. */
  ghost predicate Scanned(was: map<string, Counters>, now: map<string, Counters>, todo: set<string>,
                          departed: set<string>, healthy: seq<Worker>, picks: map<string, Worker>) {
    && picks.Keys == (set id | id in was && id !in todo && Stranded(was[id], departed))
    && (forall id :: id in picks ==> picks[id] in healthy)
    && now == RerouteAll(was, picks)
  }

  lemma ScanVictim(was: map<string, Counters>, now: map<string, Counters>, todo: set<string>,
                   departed: set<string>, healthy: seq<Worker>, picks: map<string, Worker>, id: string, w: Worker)
    requires Scanned(was, now, todo, departed, healthy, picks)
    requires id in todo && id in was && Stranded(was[id], departed) && w in healthy
    ensures id !in picks && now[id] == was[id]
    ensures Scanned(was, now[id := Claim(now[id], w.id)], todo - {id}, departed, healthy, picks[id := w])
  {
  }

  lemma ScanBystander(was: map<string, Counters>, now: map<string, Counters>, todo: set<string>,
                      departed: set<string>, healthy: seq<Worker>, picks: map<string, Worker>, id: string)
    requires Scanned(was, now, todo, departed, healthy, picks)
    requires id in todo && id in was && !Stranded(was[id], departed)
    ensures Scanned(was, now, todo - {id}, departed, healthy, picks)
  {
    assert picks.Keys == set other | other in was && other !in todo - {id} && Stranded(was[other], departed);
  }

  /** The budget spent by all requests in the table. */
  ghost function Spent(m: map<string, Counters>): int
    decreases |m|
  {
    if m == map[] then 0
    else
      var id :| id in m;
      m[id].dispatched + Spent(m - {id})
  }

  lemma {:induction false} SpentRemove(m: map<string, Counters>, id: string)
    requires id in m
    ensures Spent(m) == m[id].dispatched + Spent(m - {id})
    decreases |m|
  {
    var first :| first in m && Spent(m) == m[first].dispatched + Spent(m - {first});
    if first != id {
      SpentRemove(m - {first}, id);
      SpentRemove(m - {id}, first);
      assert m - {first} - {id} == m - {id} - {first};
    }
  }

  lemma {:induction false} SpentByReroute(was: map<string, Counters>, picks: map<string, Worker>)
    requires picks.Keys <= was.Keys
    ensures Spent(RerouteAll(was, picks)) == Spent(was) + |picks|
    decreases |picks|
  {
    if picks == map[] {
      assert RerouteAll(was, picks) == was;
    } else {
      var id :| id in picks;
      var fewer := picks - {id};
      SpentByReroute(was, fewer);
      var before, after := RerouteAll(was, fewer), RerouteAll(was, picks);
      SpentRemove(before, id);
      SpentRemove(after, id);
      assert before - {id} == after - {id};
    }
  }

  /** Reroute is a claim: with one target outside the departed set for each victim, nothing
      is stranded any more, so an immediate rerun picks nobody; the budget spent rises by
      one per pick; everybody else is untouched and nobody exceeds the budget. */
  lemma RerouteIsClaim(was: map<string, Counters>, departed: set<string>, picks: map<string, Worker>)
    requires picks.Keys == Victims(was, departed)
    requires forall id :: id in picks ==> picks[id].id !in departed
    ensures
      var now := RerouteAll(was, picks);
      && now.Keys == was.Keys
      && Victims(now, departed) == {}
      && Spent(now) == Spent(was) + |picks|
      && (forall id :: id in was && id !in picks ==> now[id] == was[id])
      && (forall id :: id in was && was[id].dispatched <= 3 ==> now[id].dispatched <= 3)
  {
    SpentByReroute(was, picks);
  }

  /** One request before and after a rescue for departed workers, in numbers. With budget left
      on a departed worker it moves to one that stays, however many attempts are in the air:
      one more of them, one more unit spent, and the evidence as it was. Any other request
      is as it was. */
  ghost predicate RescuedByNumbers(c: Counters, c': Counters, departed: set<string>, target: Option<string>) {
    if c.assignee in departed && c.dispatched < 3 then
      && target.Some? && target.value !in departed && c'.assignee == target.value
      && c'.attempts == c.attempts + 1 && c'.dispatched == c.dispatched + 1 && c'.tried == c.tried
    else target.None? && c' == c
  }

  function PickFor(picks: map<string, Worker>, id: string): Option<string> {
    if id in picks then Some(picks[id].id) else None
  }

  lemma RerouteByNumbers(was: map<string, Counters>, departed: set<string>, picks: map<string, Worker>)
    requires picks.Keys == Victims(was, departed)
    requires forall id :: id in picks ==> picks[id].id !in departed
    ensures RerouteAll(was, picks).Keys == was.Keys
    ensures forall id :: id in was ==>
              RescuedByNumbers(was[id], RerouteAll(was, picks)[id], departed, PickFor(picks, id))
  {
  }

  /** The choice after a booked failure, worker by worker: a replacement is sent exactly while
      fewer than three dispatches were made and some candidate has not failed yet, whatever
      else is in the air; and it may be any of those. */
  lemma ReplacementExactly(f: Counters, candidates: seq<Worker>)
    ensures forall w :: MayReplace(f, candidates, Some(w)) <==> f.dispatched < 3 && w in candidates && w.id !in f.tried
    ensures MayReplace(f, candidates, None) <==>
              f.dispatched >= 3 || forall w :: w in candidates ==> w.id in f.tried
  {
    var eligible := Without(candidates, f.tried);
    if eligible != [] { assert eligible[0] in eligible; }
  }
}
