/** The whole gateway as a step system: records identified by pointer (their index), the
    tracker's table from request id to pointer, one handler per client call, the poll
    loop, and the attempts of every record, interleaved in any order. */
module System {
  import opened Rpc
  import opened Budget
  import opened Race

  /** What a client call returns. */
  datatype Reply = Refused(err: Error) | Served(result: AttemptResult) | GaveUp

  /** Where a call of `Generate` stands. `Leaving` still owes its deferred `unregister`. */
  datatype Handler =
    | Picked(req: Request, worker: Worker)
    | Waiting(req: Request, p: nat)
    | Leaving(req: Request, p: nat, reply: Reply)
    | Returned(req: Request, home: Option<nat>, reply: Reply)

  /** Where the poll loop stands: between polls, after the view swap, after phase 1. */
  datatype Poll = Idle | Departed(ids: set<string>) | Ready(ids: set<string>, healthy: seq<Worker>)

  datatype Sys = Sys(
    view: seq<Worker>, recs: seq<Record>, table: map<string, nat>,
    handlers: seq<Handler>, poll: Poll)

  datatype Step =
    | Arrive(req: Request, pick: Option<Worker>)
    | Admit(h: nat)
    | Take(h: nat)
    | Cancel(h: nat)
    | Unregister(h: nat)
    | Attempting(p: nat, a: Action)
    | PollSwap(resp: Option<seq<Worker>>)
    | PollSnapshot
    | PollClaim(choice: map<string, Worker>)

  const INITIAL := Sys([], [], map[], [], Idle)

  /** The record a table entry points to, when that entry is still the record's own. */
  predicate Registered(s: Sys, p: nat) {
    p < |s.recs| && s.recs[p].req.id in s.table && s.table[s.recs[p].req.id] == p
  }

  predicate Victim(s: Sys, p: nat) {
    Registered(s, p) && s.poll.Ready? && Stranded(s.recs[p].c, s.poll.ids)
  }

  predicate CanStep(s: Sys, st: Step) {
    match st
    case Arrive(req, pick) =>
      if req.id == "" || s.view == [] then pick.None? else pick.Some? && pick.value in s.view
    case Admit(h) => h < |s.handlers| && s.handlers[h].Picked?
    case Take(h) =>
      && h < |s.handlers| && s.handlers[h].Waiting? && s.handlers[h].p < |s.recs|
      && FirstLaunched(s.recs[s.handlers[h].p]) && s.recs[s.handlers[h].p].buffer != []
    case Cancel(h) =>
      && h < |s.handlers| && s.handlers[h].Waiting? && s.handlers[h].p < |s.recs|
      && FirstLaunched(s.recs[s.handlers[h].p])
    case Unregister(h) => h < |s.handlers| && s.handlers[h].Leaving?
    case Attempting(p, a) =>
      && p < |s.recs| && !a.Reroute? && !a.Receive? && Enabled(s.recs[p], a)
      && (a.Snapshot? ==> a.candidates == Without(s.view, {s.recs[p].atts[a.k].target.id}))
    case PollSwap(_) => s.poll.Idle?
    case PollSnapshot => s.poll.Departed?
    case PollClaim(choice) =>
      && s.poll.Ready?
      && forall p: nat :: p < |s.recs| && Victim(s, p) ==>
           s.recs[p].req.id in choice && choice[s.recs[p].req.id] in s.poll.healthy
  }

  /** A failed poll keeps the stale view. */
  function Polled(view: seq<Worker>, resp: Option<seq<Worker>>): seq<Worker> {
    match resp
    case None => view
    case Some(latest) => latest
  }

  /** The `go` statement of the first attempt precedes the handler's `select`. */
  predicate FirstLaunched(r: Record) {
    r.atts != [] && !r.atts[0].pc.Owed?
  }

  function Arrived(s: Sys, req: Request, pick: Option<Worker>): Sys {
    var h := if req.id == "" then Returned(req, None, Refused(Status(InvalidArgument, "request_id is required")))
             else match pick
                  case None => Returned(req, None, Refused(Status(Unavailable, "no healthy workers available")))
                  case Some(w) => Picked(req, w);
    s.(handlers := s.handlers + [h])
  }

  /** `register`: a request id already in flight is rejected, before the `defer`. */
  function Admitting(s: Sys, h: nat): Sys
    requires h < |s.handlers| && s.handlers[h].Picked?
  {
    var Picked(req, w) := s.handlers[h];
    if req.id in s.table then
      s.(handlers := s.handlers[h := Returned(req, None, Refused(Status(AlreadyExists, "request already in flight")))])
    else
      s.(recs := s.recs + [NewRecord(req, w)], table := s.table[req.id := |s.recs|],
         handlers := s.handlers[h := Waiting(req, |s.recs|)])
  }

  function Taking(s: Sys, h: nat): Sys
    requires CanStep(s, Take(h))
  {
    var Waiting(req, p) := s.handlers[h];
    s.(recs := s.recs[p := Apply(s.recs[p], Receive)],
       handlers := s.handlers[h := Leaving(req, p, Served(s.recs[p].buffer[0]))])
  }

  /** `unregister` deletes by request id, whatever the entry points to. */
  function Unregistering(s: Sys, h: nat): Sys
    requires h < |s.handlers| && s.handlers[h].Leaving?
  {
    var Leaving(req, p, reply) := s.handlers[h];
    s.(table := s.table - {req.id}, handlers := s.handlers[h := Returned(req, Some(p), reply)])
  }

  /** Phase 2 of `rerouteFrom`, one critical section over the whole table. */
  function Claimed(s: Sys, choice: map<string, Worker>): Sys
    requires CanStep(s, PollClaim(choice))
  {
    s.(poll := Idle,
       recs := seq(|s.recs|, p requires 0 <= p < |s.recs| =>
         if Victim(s, p) then Apply(s.recs[p], Reroute(choice[s.recs[p].req.id])) else s.recs[p]))
  }

  function After(s: Sys, st: Step): Sys
    requires CanStep(s, st)
  {
    match st
    case Arrive(req, pick) => Arrived(s, req, pick)
    case Admit(h) => Admitting(s, h)
    case Take(h) => Taking(s, h)
    case Cancel(h) => s.(handlers := s.handlers[h := Leaving(s.handlers[h].req, s.handlers[h].p, GaveUp)])
    case Unregister(h) => Unregistering(s, h)
    case Attempting(p, a) => s.(recs := s.recs[p := Apply(s.recs[p], a)])
    case PollSwap(resp) =>
      var latest := Polled(s.view, resp);
      var ids := IdsOf(s.view) - IdsOf(latest);
      s.(view := latest, poll := if ids == {} then Idle else Departed(ids))
    case PollSnapshot =>
      var healthy := Without(s.view, s.poll.ids);
      s.(poll := if healthy == [] then Idle else Ready(s.poll.ids, healthy))
    case PollClaim(choice) => Claimed(s, choice)
  }

  ghost predicate SysRun(s: Sys, steps: seq<Step>, s': Sys)
    decreases |steps|
  {
    if steps == [] then s == s'
    else CanStep(s, steps[0]) && SysRun(After(s, steps[0]), steps[1..], s')
  }

  // ---------- the invariant ----------

  /** The handler registered record `p`, now or in the past. */
  predicate Owns(h: Handler, p: nat) {
    match h
    case Picked(_, _) => false
    case Waiting(_, q) => q == p
    case Leaving(_, q, _) => q == p
    case Returned(_, home, _) => home == Some(p)
  }

  predicate Active(h: Handler) { h.Waiting? || h.Leaving? }

  predicate ReplyOk(r: Record, req: Request, reply: Reply) {
    && r.req == req
    && match reply
       case Refused(_) => false
       case Served(result) => r.received == [result]
       case GaveUp => r.received == []
  }

  predicate HandlerOk(s: Sys, h: Handler) {
    match h
    case Picked(req, _) => req.id != ""
    case Waiting(req, p) => Registered(s, p) && s.recs[p].req == req && s.recs[p].received == []
    case Leaving(req, p, reply) => Registered(s, p) && ReplyOk(s.recs[p], req, reply)
    case Returned(req, None, reply) => reply.Refused?
    case Returned(req, Some(p), reply) => p < |s.recs| && ReplyOk(s.recs[p], req, reply)
  }

  ghost predicate RecsOk(s: Sys) {
    forall p: nat :: p < |s.recs| ==> Inv(s.recs[p])
  }

  ghost predicate HandlersOk(s: Sys) {
    && (forall h: nat :: h < |s.handlers| ==> HandlerOk(s, s.handlers[h]))
    && (forall h: nat, h2: nat, p: nat ::
          h < h2 < |s.handlers| && Owns(s.handlers[h], p) ==> !Owns(s.handlers[h2], p))
  }

  ghost predicate TableOk(s: Sys) {
    forall id :: id in s.table ==>
      && s.table[id] < |s.recs| && s.recs[s.table[id]].req.id == id
      && exists h: nat :: h < |s.handlers| && Active(s.handlers[h]) && Owns(s.handlers[h], s.table[id])
  }

  ghost predicate PollOk(s: Sys) {
    s.poll.Ready? ==> s.poll.healthy != [] && IdsOf(s.poll.healthy) !! s.poll.ids
  }

  ghost predicate SysInv(s: Sys) {
    RecsOk(s) && HandlersOk(s) && TableOk(s) && PollOk(s)
  }
}
