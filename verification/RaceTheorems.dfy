/** What the invariant of the race means for one request, over all interleavings. */
module RaceTheorems {
  import opened Rpc
  import opened Budget
  import opened Race
  import opened RaceSafety

  // ---------- accounting ----------

  function BookedOne(a: Attempt): int { if a.over then 1 else 0 }

  /** Can this attempt still book a failure? */
  function Undecided(a: Attempt): int { if !a.over && !a.pc.Done? then 1 else 0 }

  ghost function BookedIds(atts: seq<Attempt>): set<string> {
    set a | a in atts && a.over :: a.target.id
  }

  lemma {:induction false} BookedIdsBound(atts: seq<Attempt>)
    ensures |BookedIds(atts)| <= Sum(atts, BookedOne)
  {
    if atts != [] {
      var rest, last := atts[..|atts| - 1], atts[|atts| - 1];
      BookedIdsBound(rest);
      assert atts == rest + [last];
      assert BookedIds(atts) == BookedIds(rest) + if last.over then {last.target.id} else {};
    }
  }

  lemma {:induction false} LiveSplits(atts: seq<Attempt>)
    ensures Sum(atts, Live) + Sum(atts, BookedOne) == |atts|
    ensures Sum(atts, Undecided) <= Sum(atts, Live)
    ensures (forall j: nat :: j < |atts| && atts[j].pc.Done? ==> atts[j].over) ==>
              Sum(atts, Undecided) == Sum(atts, Live)
  {
    if atts != [] {
      var rest := atts[..|atts| - 1];
      LiveSplits(rest);
      assert forall j: nat :: j < |rest| ==> rest[j] == atts[j];
    }
  }

  /** Attempt accounting: `attempts` is the dispatches minus the failures booked under the
      lock, never below the attempts that may still report, and equal to them while the
      latch is open; the tried set costs at most one booked failure per member. */
  lemma Accounting(r: Record)
    requires Inv(r)
    ensures r.c.attempts == r.c.dispatched - Sum(r.atts, BookedOne)
    ensures 0 <= Sum(r.atts, Undecided) <= r.c.attempts <= r.c.dispatched <= 3
    ensures !r.claimed ==> r.c.attempts == Sum(r.atts, Undecided)
    ensures |r.c.tried| + r.c.attempts <= r.c.dispatched
  {
    LiveSplits(r.atts);
    BookedIdsBound(r.atts);
    SumBounds(r.atts, Undecided);
    SumBounds(r.atts, BookedOne);
    assert r.c.tried == BookedIds(r.atts);
  }

  /** Nobody is struck off on suspicion alone: the tried set is exactly the workers whose RPC
      for this record came back with a retryable error that was booked. */
  lemma TriedIsEvidence(r: Record, id: string)
    requires Inv(r)
    ensures id in r.c.tried <==>
            exists k: nat :: k < |r.atts| && r.atts[k].over && ProvenFailure(r.atts[k]) && r.atts[k].target.id == id
  {
    assert forall k: nat :: k < |r.atts| ==> AttemptOk(r.atts[k]);
  }

  // ---------- single delivery ----------

  /** One unit, conserved: it is with the attempt between latch and send, in the channel,
      or with the handler; and with nobody while the latch is open. */
  lemma SingleDelivery(r: Record)
    requires Inv(r)
    ensures Sum(r.atts, Winning) + |r.buffer| + |r.received| == if r.claimed then 1 else 0
    ensures |r.buffer| <= 1 && |r.received| <= 1
    ensures forall k: nat :: k < |r.atts| && r.atts[k].pc.Won? ==> Enabled(r, Send(k))
  {
    SumBounds(r.atts, Winning);
    forall k: nat | k < |r.atts| && r.atts[k].pc.Won? ensures Enabled(r, Send(k)) {
      WinnerFacesEmptyBuffer(r, k);
    }
  }

  ghost predicate LatchDecided(r: Record, results: seq<AttemptResult>) {
    r.claimed && Sum(r.atts, Winning) == 0 && r.received + r.buffer == results
  }

  /** Once a result was sent, no later run, however long, delivers another: a late loser
      cannot win even after the handler emptied the buffer. */
  lemma {:induction false} NoSecondDelivery(r: Record, acts: seq<Action>, r': Record)
    requires Inv(r) && Run(r, acts, r') && |r.buffer| + |r.received| == 1
    ensures LatchDecided(r', r.received + r.buffer)
    decreases |acts|
  {
    SumBounds(r.atts, Winning);
    if acts != [] {
      var n := Apply(r, acts[0]);
      StepKeepsInv(r, acts[0]);
      SentStays(r, acts[0]);
      NoSecondDelivery(n, acts[1..], r');
    }
  }

  lemma SentStays(r: Record, a: Action)
    requires Inv(r) && Enabled(r, a) && |r.buffer| + |r.received| == 1
    ensures Apply(r, a).received + Apply(r, a).buffer == r.received + r.buffer
  {
    if a.Send? { WinnerFacesEmptyBuffer(r, a.k); }
  }

  // ---------- no request is lost ----------

  /** On its way to the client: still able to report, or carrying the exhaustion error. */
  predicate StillComing(a: Attempt) {
    !a.pc.Done? && (!a.over || Exhausted(a))
  }

  lemma {:induction false} SomeoneLive(atts: seq<Attempt>)
    requires Sum(atts, Live) > 0
    ensures exists k: nat :: k < |atts| && !atts[k].over
  {
    if Live(atts[|atts| - 1]) == 0 {
      SomeoneLive(atts[..|atts| - 1]);
      var k: nat :| k < |atts| - 1 && !atts[..|atts| - 1][k].over;
      assert !atts[k].over;
    }
  }

  lemma NoRequestLost(r: Record)
    requires Inv(r) && !r.claimed
    ensures exists k: nat :: k < |r.atts| && StillComing(r.atts[k])
  {
    SumBounds(r.atts, Live);
    if r.c.attempts == 0 {
      var k: nat :| k < |r.atts| && Exhausted(r.atts[k]);
      assert StillComing(r.atts[k]);
    } else {
      SomeoneLive(r.atts);
      var k: nat :| k < |r.atts| && !r.atts[k].over;
      assert StillComing(r.atts[k]);
    }
  }

  predicate Quiescent(r: Record) {
    forall k: nat :: k < |r.atts| ==> r.atts[k].pc.Done?
  }

  /** When every attempt has ended, exactly one result is in the channel or already with
      the handler, and some attempt of this record stands behind it. */
  lemma QuiescentMeansAnswered(r: Record)
    requires Inv(r) && Quiescent(r)
    ensures r.claimed && |r.buffer| + |r.received| == 1
    ensures Delivered(r, (r.buffer + r.received)[0])
  {
    if !r.claimed {
      NoRequestLost(r);
      assert false;
    }
    NoWinner(r.atts);
    assert (r.buffer + r.received)[0] in r.buffer || (r.buffer + r.received)[0] in r.received;
  }

  lemma {:induction false} NoWinner(atts: seq<Attempt>)
    requires forall k: nat :: k < |atts| ==> !atts[k].pc.Won?
    ensures Sum(atts, Winning) == 0
  {
    if atts != [] { NoWinner(atts[..|atts| - 1]); }
  }

  // ---------- bounded work ----------

  function Weight(a: Attempt): int {
    match a.pc
    case Owed => 8
    case Running => 7
    case Failed(_) => 6
    case Retrying(_) => 5
    case Holding(_, _) => 4
    case Settling(_) => 3
    case Won(_) => 2
    case Done => 0
  }

  /** One unit of unspent budget outweighs a fresh attempt. */
  ghost function Measure(r: Record): int {
    9 * (MAX_ATTEMPTS - r.c.dispatched) + Sum(r.atts, Weight) + |r.buffer|
  }

  lemma MoveIsLighter(r: Record, a: Action)
    requires Inv(r) && Enabled(r, a) && !a.Lock? && !a.Reroute? && !a.Receive?
    ensures Measure(Apply(r, a)) < Measure(r)
  {
    SumUpdate(r.atts, a.k, Apply(r, a).atts[a.k], Weight);
  }

  lemma LockIsLighter(r: Record, k: nat, replacement: Option<Worker>)
    requires Enabled(r, Lock(k, replacement))
    ensures Measure(Locked(r, k, replacement)) < Measure(r)
  {
    var r' := Locked(r, k, replacement);
    var pc := if replacement.None? && r'.c.attempts == 0
              then Settling(Fault(ExhaustedAttempts(r'.c.dispatched, r.atts[k].pc.err), r.atts[k].target.id)) else Done;
    var att := r.atts[k].(pc := pc, over := true);
    assert Weight(att) <= 3 && Weight(r.atts[k]) == 4;
    SumUpdate(r.atts, k, att, Weight);
    match replacement
    case None => assert r'.atts == r.atts[k := att];
    case Some(w) =>
      SumAppend(r.atts[k := att], NewAttempt(w, Replacing(k)), Weight);
      assert r'.c.dispatched == r.c.dispatched + 1;
  }

  lemma MeasureFalls(r: Record, a: Action)
    requires Inv(r) && Enabled(r, a)
    ensures 0 <= Measure(Apply(r, a)) < Measure(r)
  {
    StepKeepsInv(r, a);
    SumBounds(Apply(r, a).atts, Weight);
    match a
    case Reroute(w) => SumAppend(r.atts, NewAttempt(w, Rerouted), Weight);
    case Receive =>
    case Lock(k, replacement) => LockIsLighter(r, k, replacement);
    case _ => MoveIsLighter(r, a);
  }

  /** Whole runs terminate: every attempt step, every reroute that touches the record and
      the receive draw on one finite measure, whatever the view does. */
  lemma {:induction false} RunsAreBounded(r: Record, acts: seq<Action>, r': Record)
    requires Inv(r) && Run(r, acts, r')
    ensures |acts| + Measure(r') <= Measure(r) && 0 <= Measure(r')
    decreases |acts|
  {
    if acts == [] {
      SumBounds(r.atts, Weight);
    } else {
      MeasureFalls(r, acts[0]);
      StepKeepsInv(r, acts[0]);
      RunsAreBounded(Apply(r, acts[0]), acts[1..], r');
    }
  }

  function Started(a: Attempt): int { if a.pc.Owed? then 0 else 1 }

  /** Every run of a request, over both failure paths and any sequence of views, starts at
      most three RPCs and is at most 26 steps long. */
  lemma RequestIsBounded(req: Request, w: Worker, acts: seq<Action>, r: Record)
    requires Run(NewRecord(req, w), acts, r)
    ensures |acts| <= 26 && Sum(r.atts, Started) <= 3
  {
    var r0 := NewRecord(req, w);
    NewRecordInv(req, w);
    RunKeepsInv(r0, acts, r);
    RunsAreBounded(r0, acts, r);
    assert Sum(r0.atts, Weight) == 8;
    StartedBound(r.atts);
  }

  lemma {:induction false} StartedBound(atts: seq<Attempt>)
    ensures Sum(atts, Started) <= |atts|
  {
    if atts != [] { StartedBound(atts[..|atts| - 1]); }
  }

  /** The next step of attempt `k`, if the RPC (when one is pending) answers `outcome`. */
  function NextOf(r: Record, k: nat, outcome: Outcome): Action
    requires k < |r.atts| && !r.atts[k].pc.Done?
  {
    match r.atts[k].pc
    case Owed => Launch(k)
    case Running => Return(k, outcome)
    case Failed(_) => Check(k)
    case Retrying(_) => Snapshot(k, [])
    case Holding(_, candidates) =>
      var f := Fail(r.c, r.atts[k].target.id);
      var eligible := Without(candidates, f.tried);
      Lock(k, if f.dispatched < MAX_ATTEMPTS && eligible != [] then Some(eligible[0]) else None)
    case Settling(_) => Cas(k)
    case Won(_) => Send(k)
  }

  /** No attempt is ever stuck: whatever it waits for, some step of it is enabled. */
  lemma Progress(r: Record, k: nat, outcome: Outcome)
    requires Inv(r) && k < |r.atts| && !r.atts[k].pc.Done?
    ensures Enabled(r, NextOf(r, k, outcome))
  {
    if r.atts[k].pc.Won? { SingleDelivery(r); }
  }

  /** Liveness without a clock: however the steps were scheduled, a run of a request that its
      attempts cannot go on with has answered the client, exactly once. */
  lemma StoppedMeansAnswered(req: Request, w: Worker, acts: seq<Action>, r: Record)
    requires Run(NewRecord(req, w), acts, r)
    requires forall a :: Enabled(r, a) ==> a.Reroute? || a.Receive?
    ensures Quiescent(r) && r.claimed && |r.buffer| + |r.received| == 1
  {
    NewRecordInv(req, w);
    RunKeepsInv(NewRecord(req, w), acts, r);
    forall k: nat | k < |r.atts| ensures r.atts[k].pc.Done? {
      if !r.atts[k].pc.Done? {
        Progress(r, k, Ok(Response("")));
        assert false;
      }
    }
    QuiescentMeansAnswered(r);
  }

  // ---------- exhaustion ----------

  ghost predicate AllOver(atts: seq<Attempt>) {
    forall k: nat :: k < |atts| ==> atts[k].over
  }

  lemma NobodyLeftIff(atts: seq<Attempt>)
    ensures Sum(atts, Live) == 0 <==> AllOver(atts)
  {
    SumBounds(atts, Live);
    if Sum(atts, Live) == 0 { AllBooked(atts); }
    else { SomeoneLive(atts); }
  }

  /** Exhaustion is computed true exactly when no attempt of the record is left that has
      not booked its failure. */
  lemma ExhaustionIsSound(r: Record, k: nat, replacement: Option<Worker>)
    requires Inv(r) && Enabled(r, Lock(k, replacement))
    ensures
      var r' := Apply(r, Lock(k, replacement));
      Exhausted(r'.atts[k]) <==> AllOver(r'.atts)
  {
    var r' := Apply(r, Lock(k, replacement));
    StepKeepsInv(r, Lock(k, replacement));
    NobodyLeftIff(r'.atts);
    if replacement.Some? { assert !r'.atts[|r'.atts| - 1].over; }
  }

  /** With the budget spent, exhaustion is final: no run brings an attempt back. */
  lemma {:induction false} SpentExhaustionIsFinal(r: Record, acts: seq<Action>, r': Record)
    requires Inv(r) && Run(r, acts, r') && r.c.dispatched == 3 && AllOver(r.atts)
    ensures AllOver(r'.atts) && r'.c == r.c
    decreases |acts|
  {
    if acts != [] {
      assert forall k: nat :: k < |r.atts| ==> AttemptOk(r.atts[k]);
      StepKeepsInv(r, acts[0]);
      SpentExhaustionIsFinal(Apply(r, acts[0]), acts[1..], r');
    }
  }

  /** When an exhaustion error takes the latch, the attempts it counted are all over, and
      every other attempt goes back to a reroute made after the unlock. */
  lemma ErrorWins(r: Record, k: nat)
    requires Inv(r) && Enabled(r, Cas(k)) && Exhausted(r.atts[k]) && !r.claimed
    ensures
      var n := r.atts[k].pc.result.err.dispatched;
      && (forall j: nat :: j < n ==> j < |r.atts| && r.atts[j].over)
      && (forall j: nat :: n <= j < |r.atts| ==> Descends(r.atts, j, n))
      && (n == |r.atts| || r.atts[n].origin.Rerouted?)
      && (n == 3 ==> AllOver(r.atts))
  {
    var n := r.atts[k].pc.result.err.dispatched;
    assert ExhaustionOk(r.atts, k, n);
    if n < |r.atts| {
      assert Descends(r.atts, n, n);
      if r.atts[n].origin.Replacing? { assert !Descends(r.atts, r.atts[n].origin.parent, n); }
    }
  }

  /** The claim "an error becomes the answer only when nobody is left" holds at the latch
      exactly when the live gauge, read again there, is still zero. */
  lemma ErrorWinsAloneIff(r: Record, k: nat)
    requires Inv(r) && Enabled(r, Cas(k)) && Exhausted(r.atts[k]) && !r.claimed
    ensures AllOver(r.atts) <==> r.c.attempts == 0
    ensures r.atts[k].pc.result.err.dispatched == r.c.dispatched ==> AllOver(r.atts)
  {
    NobodyLeftIff(r.atts);
    ErrorWins(r, k);
  }

  // ---------- the number an exhaustion error reports ----------

  /** The error counts attempts 0 to n-1, which are all over; every other attempt goes back to
      a reroute numbered n or later. */
  ghost predicate CountHolds(atts: seq<Attempt>, result: AttemptResult) {
    result.Fault? && result.err.ExhaustedAttempts? ==>
      exists k: nat :: ExhaustionOk(atts, k, result.err.dispatched)
  }

  /** The counts of the delivered errors hold, in the channel and with the handler. */
  ghost predicate SentOk(r: Record) {
    forall result :: result in r.buffer || result in r.received ==> CountHolds(r.atts, result)
  }

  lemma MoveGrows(r: Record, a: Action)
    requires Inv(r) && Enabled(r, a) && (a.Launch? || a.Return? || a.Check? || a.Snapshot?)
    ensures Grows(r.atts, Apply(r, a).atts)
  {
    MoveIsOne(r, a);
    ErrorsStable(r, a.k, Apply(r, a).atts[a.k], Apply(r, a).atts);
  }

  lemma DeliveryGrows(r: Record, a: Action)
    requires Inv(r) && Enabled(r, a) && (a.Cas? || a.Send?)
    ensures Grows(r.atts, Apply(r, a).atts)
  {
    assert AttemptOk(r.atts[a.k]);
    ErrorsStable(r, a.k, Apply(r, a).atts[a.k], Apply(r, a).atts);
  }

  lemma LockGrows(r: Record, k: nat, replacement: Option<Worker>)
    requires Inv(r) && Enabled(r, Lock(k, replacement))
    ensures Grows(r.atts, Locked(r, k, replacement).atts)
  {
    BookingGrows(r, k, Locked(r, k, replacement).atts[k].pc);
  }

  lemma StepGrows(r: Record, a: Action)
    requires Inv(r) && Enabled(r, a)
    ensures Grows(r.atts, Apply(r, a).atts)
  {
    match a
    case Receive =>
    case Reroute(w) => AppendStable(r, Apply(r, a).atts, w, Rerouted);
    case Lock(k, replacement) => LockGrows(r, k, replacement);
    case Cas(_) => DeliveryGrows(r, a);
    case Send(_) => DeliveryGrows(r, a);
    case _ => MoveGrows(r, a);
  }

  /** A dispatch after the count was taken descends from a reroute after it. */
  lemma NewcomersDescend(r: Record, a: Action, k: nat, n: int)
    requires Inv(r) && Enabled(r, a) && ExhaustionOk(r.atts, k, n)
    ensures
      var atts := Apply(r, a).atts;
      forall j: nat :: |r.atts| <= j < |atts| ==> Descends(atts, j, n)
  {
    if a.Lock? {
      StepGrows(r, a);
      assert AttemptOk(r.atts[a.k]);
      DescendsStable(r.atts, Apply(r, a).atts, a.k, n);
    }
  }

  lemma CountStays(r: Record, a: Action, result: AttemptResult)
    requires Inv(r) && Enabled(r, a) && CountHolds(r.atts, result)
    ensures CountHolds(Apply(r, a).atts, result)
  {
    if result.Fault? && result.err.ExhaustedAttempts? {
      var k: nat :| ExhaustionOk(r.atts, k, result.err.dispatched);
      StepGrows(r, a);
      NewcomersDescend(r, a, k, result.err.dispatched);
      ExhaustionStable(r.atts, Apply(r, a).atts, k, result.err.dispatched);
    }
  }

  lemma CountIsSent(r: Record, k: nat)
    requires Inv(r) && Enabled(r, Send(k))
    ensures CountHolds(r.atts, r.atts[k].pc.result)
  {
    assert AttemptOk(r.atts[k]);
    if Exhausted(r.atts[k]) { assert ExhaustionOk(r.atts, k, r.atts[k].pc.result.err.dispatched); }
  }

  lemma StepKeepsSentOk(r: Record, a: Action)
    requires Inv(r) && SentOk(r) && Enabled(r, a)
    ensures SentOk(Apply(r, a))
  {
    var r' := Apply(r, a);
    forall result | result in r'.buffer || result in r'.received ensures CountHolds(r'.atts, result) {
      if a.Send? { CountIsSent(r, a.k); }
      CountStays(r, a, result);
    }
  }
}
