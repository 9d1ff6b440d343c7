/** What a failed attempt does, by the code of its error and in numbers, in every state of the
    record and whatever else is in the air. */
module FastPath {
  import opened Rpc
  import opened Budget
  import opened Race
  import opened RaceSafety

  lemma Prefixed(r: Record, a: Action, acts: seq<Action>, r': Record)
    requires Enabled(r, a) && Run(Apply(r, a), acts, r')
    ensures Run(r, [a] + acts, r')
  {
    assert ([a] + acts)[1..] == acts;
  }

  /** Latch and send, when the latch is open. */
  lemma SettlingLands(r: Record, k: nat)
    requires Inv(r) && k < |r.atts| && r.atts[k].pc.Settling? && !r.claimed
    ensures
      var r' := r.(claimed := true, buffer := [r.atts[k].pc.result], atts := r.atts[k := r.atts[k].(pc := Done)]);
      Run(r, [Cas(k)] + ([Send(k)] + []), r')
  {
    var won := Apply(r, Cas(k));
    StepKeepsInv(r, Cas(k));
    WinnerFacesEmptyBuffer(won, k);
    var r' := Apply(won, Send(k));
    assert r' == r.(claimed := true, buffer := [r.atts[k].pc.result], atts := r.atts[k := r.atts[k].(pc := Done)]);
    Prefixed(won, Send(k), [], r');
    Prefixed(r, Cas(k), [Send(k)] + [], r');
  }

  // ---------- the locked region in numbers ----------

  /** When a failure is booked without a replacement: the gauge falls, and the error goes out
      if nobody is left. */
  ghost predicate GivesUp(r: Record, r': Record, k: nat, err: Error)
    requires k < |r.atts|
  {
    var a := r.atts[k];
    var pc := if r.c.attempts == 1 then Settling(Fault(ExhaustedAttempts(r.c.dispatched, err), a.target.id)) else Done;
    r' == r.(c := Counters(r.c.assignee, r.c.attempts - 1, r.c.dispatched, r.c.tried + {a.target.id}),
             atts := r.atts[k := a.(over := true, pc := pc)])
  }

  /** When it is booked with one: the request moves to `w`, and the gauge stays. */
  ghost predicate MovesTo(r: Record, r': Record, k: nat, w: Worker)
    requires k < |r.atts|
  {
    var a := r.atts[k];
    r' == r.(c := Counters(w.id, r.c.attempts, r.c.dispatched + 1, r.c.tried + {a.target.id}),
             atts := r.atts[k := a.(over := true, pc := Done)] + [Attempt(w, Replacing(k), Owed, None, false)])
  }

  /** The locked region, exactly: a replacement is sent if and only if fewer than three
      dispatches were made and some candidate of the snapshot has not failed this request,
      whether or not other attempts are in the air; it may be any of those and nobody else. */
  lemma LockExactly(r: Record, k: nat)
    requires AttemptsOk(r.atts) && k < |r.atts| && r.atts[k].pc.Holding?
    ensures
      var candidates := r.atts[k].pc.candidates;
      && (forall w :: Enabled(r, Lock(k, Some(w))) <==> r.c.dispatched < 3 && w in candidates && w.id !in r.c.tried)
      && (Enabled(r, Lock(k, None)) <==> r.c.dispatched >= 3 || forall w :: w in candidates ==> w.id in r.c.tried)
  {
    var candidates := r.atts[k].pc.candidates;
    assert AttemptOk(r.atts[k]);
    assert forall w :: w in candidates ==> w.id in IdsOf(candidates);
    ReplacementExactly(Fail(r.c, r.atts[k].target.id), candidates);
  }

  /** And what it does to the record. */
  lemma LockInNumbers(r: Record, k: nat, replacement: Option<Worker>)
    requires Enabled(r, Lock(k, replacement))
    ensures
      var r' := Apply(r, Lock(k, replacement));
      match replacement
      case Some(w) => MovesTo(r, r', k, w)
      case None => GivesUp(r, r', k, r.atts[k].pc.err)
  {
  }

  // ---------- by code ----------

  /** About the machine: the worker was unavailable or did not answer in time. */
  predicate AboutTheMachine(err: Error) {
    match err
    case Status(code, _) => code == Unavailable || code == DeadlineExceeded
    case Plain(_) => false
    case ExhaustedAttempts(_, _) => true
  }

  /** A terminal error, an error without a status included, is the answer at once, whatever
      else is in the air: look, latch and send follow, and the client finds that error. */
  lemma TerminalAnswersAtOnce(r: Record, k: nat, err: Error)
    requires Inv(r) && k < |r.atts| && r.atts[k].pc == Failed(err) && !r.claimed && !AboutTheMachine(err)
    ensures
      var result := Fault(err, r.atts[k].target.id);
      var r' := r.(claimed := true, buffer := [result], atts := r.atts[k := r.atts[k].(pc := Done)]);
      Run(r, [Check(k)] + ([Cas(k)] + ([Send(k)] + [])), r')
  {
    var result := Fault(err, r.atts[k].target.id);
    var r' := r.(claimed := true, buffer := [result], atts := r.atts[k := r.atts[k].(pc := Done)]);
    var r1 := MoveTo(r, k, Settling(result));
    assert Apply(r, Check(k)) == r1;
    StepKeepsInv(r, Check(k));
    SettlingLands(r1, k);
    assert r1.atts[k := r1.atts[k].(pc := Done)] == r'.atts;
    Prefixed(r, Check(k), [Cas(k)] + ([Send(k)] + []), r');
  }

  /** An unavailable or timed-out worker is replaced by any worker of the view that has not
      failed this request, while fewer than three dispatches were made: the request moves
      there, the evidence is kept, and the others in the air stay as they are. */
  lemma MachineFailureIsRescued(r: Record, k: nat, err: Error, candidates: seq<Worker>, w: Worker)
    requires k < |r.atts| && r.atts[k].pc == Failed(err) && !r.claimed && AboutTheMachine(err)
    requires r.c.dispatched < 3 && r.atts[k].target.id !in IdsOf(candidates)
    requires w in candidates && w.id !in r.c.tried
    ensures
      var failed := r.atts[k].target.id;
      var r' := r.(c := Counters(w.id, r.c.attempts, r.c.dispatched + 1, r.c.tried + {failed}),
                   atts := r.atts[k := r.atts[k].(pc := Done, over := true)]
                           + [Attempt(w, Replacing(k), Owed, None, false)]);
      Run(r, [Check(k)] + ([Snapshot(k, candidates)] + ([Lock(k, Some(w))] + [])), r')
  {
    var failed := r.atts[k].target.id;
    var r1, r2 := MoveTo(r, k, Retrying(err)), MoveTo(r, k, Holding(err, candidates));
    var r3 := r.(c := Counters(w.id, r.c.attempts, r.c.dispatched + 1, r.c.tried + {failed}),
                 atts := r.atts[k := r.atts[k].(pc := Done, over := true)]
                         + [Attempt(w, Replacing(k), Owed, None, false)]);
    assert Apply(r, Check(k)) == r1;
    assert Apply(r1, Snapshot(k, candidates)) == r2;
    assert w.id != failed by { assert w.id in IdsOf(candidates); }
    ReplacementExactly(Fail(r2.c, failed), candidates);
    LockInNumbers(r2, k, Some(w));
    assert Apply(r2, Lock(k, Some(w))) == r3;
    Prefixed(r2, Lock(k, Some(w)), [], r3);
    Prefixed(r1, Snapshot(k, candidates), [Lock(k, Some(w))] + [], r3);
    Prefixed(r, Check(k), [Snapshot(k, candidates)] + ([Lock(k, Some(w))] + []), r3);
  }

  // ---------- responses ----------

  /** A response is the client's answer if the latch is still open, under the name of the worker
      that gave it; otherwise the attempt ends and nothing else changes. */
  lemma ResponseWinsOrVanishes(r: Record, k: nat, resp: Response)
    requires Inv(r) && k < |r.atts| && r.atts[k].pc.Running?
    ensures
      var atts := r.atts[k := r.atts[k].(pc := Done, rpc := Some(Ok(resp)))];
      var landing := [Return(k, Ok(resp))] + ([Cas(k)] + if r.claimed then [] else [Send(k)] + []);
      Run(r, landing, if r.claimed then r.(atts := atts)
                      else r.(claimed := true, buffer := [Answer(resp, r.atts[k].target.id)], atts := atts))
  {
    var r1 := Apply(r, Return(k, Ok(resp)));
    StepKeepsInv(r, Return(k, Ok(resp)));
    var atts := r.atts[k := r.atts[k].(pc := Done, rpc := Some(Ok(resp)))];
    assert r1.atts[k := r1.atts[k].(pc := Done)] == atts;
    if r.claimed {
      Prefixed(r1, Cas(k), [], r.(atts := atts));
      Prefixed(r, Return(k, Ok(resp)), [Cas(k)] + [], r.(atts := atts));
    } else {
      SettlingLands(r1, k);
      Prefixed(r, Return(k, Ok(resp)), [Cas(k)] + ([Send(k)] + []),
               r.(claimed := true, buffer := [Answer(resp, r.atts[k].target.id)], atts := atts));
    }
  }

  // ---------- stragglers ----------

  /** Attempt `k` will not dispatch: it is not past the look at the latch on the way to a
      replacement, and has none. */
  ghost predicate NoReplacement(r: Record, k: nat) {
    && k < |r.atts| && !r.atts[k].pc.Retrying? && !r.atts[k].pc.Holding?
    && forall j: nat :: j < |r.atts| ==> r.atts[j].origin != Replacing(k)
  }

  lemma StragglerStep(r: Record, k: nat, a: Action)
    requires r.claimed && NoReplacement(r, k) && Enabled(r, a)
    ensures Apply(r, a).claimed && NoReplacement(Apply(r, a), k)
  {
  }

  lemma {:induction false} StragglerRun(r: Record, k: nat, acts: seq<Action>, r': Record)
    requires r.claimed && NoReplacement(r, k) && Run(r, acts, r')
    ensures NoReplacement(r', k)
    decreases |acts|
  {
    if acts != [] {
      StragglerStep(r, k, acts[0]);
      StragglerRun(Apply(r, acts[0]), k, acts[1..], r');
    }
  }

  /** A straggler re-dispatches nothing: an attempt that has not passed the look when the latch
      is set never sends a replacement, however it fails and whatever happens after. */
  lemma StragglersDispatchNothing(r: Record, k: nat, acts: seq<Action>, r': Record)
    requires Inv(r) && r.claimed && Run(r, acts, r') && k < |r.atts|
    requires r.atts[k].pc.Owed? || r.atts[k].pc.Running? || r.atts[k].pc.Failed?
    ensures forall j: nat :: j < |r'.atts| ==> r'.atts[j].origin != Replacing(k)
  {
    assert AttemptOk(r.atts[k]);
    forall j: nat | j < |r.atts| ensures r.atts[j].origin != Replacing(k) {
      assert OriginOk(r.atts, j);
    }
    StragglerRun(r, k, acts, r');
  }
}
