/** Every step keeps the invariant of Race, and what the invariant says to the client. */
module RaceSafety {
  import opened Rpc
  import opened Budget
  import opened Race

  // ---------- what survives a change of one attempt ----------

  /** Targets and origins are fixed, a booked failure stays booked, evidence stays evidence,
      and attempts are only ever appended. */
  ghost predicate Grows(atts: seq<Attempt>, atts': seq<Attempt>) {
    && |atts| <= |atts'|
    && (forall j: nat :: j < |atts| ==> atts'[j].target == atts[j].target && atts'[j].origin == atts[j].origin)
    && (forall j: nat :: j < |atts| && atts[j].over ==> atts'[j].over)
    && (forall j: nat, res :: j < |atts| && Justified(atts[j], res) ==> Justified(atts'[j], res))
  }

  lemma {:induction false} DescendsStable(atts: seq<Attempt>, atts': seq<Attempt>, j: nat, n: int)
    requires Grows(atts, atts') && j < |atts|
    ensures Descends(atts, j, n) <==> Descends(atts', j, n)
    decreases j
  {
    if atts[j].origin.Replacing? && atts[j].origin.parent < j {
      DescendsStable(atts, atts', atts[j].origin.parent, n);
    }
  }

  lemma ExhaustionStable(atts: seq<Attempt>, atts': seq<Attempt>, k: nat, n: int)
    requires Grows(atts, atts') && ExhaustionOk(atts, k, n)
    requires forall j: nat :: |atts| <= j < |atts'| ==> Descends(atts', j, n)
    ensures ExhaustionOk(atts', k, n)
  {
    forall j: nat | n <= j < |atts'| ensures Descends(atts', j, n) {
      if j < |atts| { DescendsStable(atts, atts', j, n); }
    }
  }

  lemma DeliveredStable(r: Record, r': Record, res: AttemptResult)
    requires Grows(r.atts, r'.atts) && Delivered(r, res)
    ensures Delivered(r', res)
  {
    var k: nat :| k < |r.atts| && Justified(r.atts[k], res);
    assert Justified(r'.atts[k], res);
  }

  /** Attempt `k` moves on without booking a failure. */
  ghost predicate MovesOn(r: Record, k: nat, a: Attempt) {
    && k < |r.atts|
    && a.target == r.atts[k].target && a.origin == r.atts[k].origin && a.over == r.atts[k].over
    && (forall res :: Justified(r.atts[k], res) ==> Justified(a, res))
    && AttemptOk(a)
    && (Exhausted(a) ==> Exhausted(r.atts[k]) && a.pc.result == r.atts[k].pc.result)
  }

  lemma CountersStable(r: Record, k: nat, a: Attempt, r': Record)
    requires CountersOk(r) && MovesOn(r, k, a) && r'.atts == r.atts[k := a] && r'.c == r.c
    ensures CountersOk(r')
  {
    SumUpdate(r.atts, k, a, Live);
    forall id | id in r'.c.tried
      ensures exists j: nat :: j < |r'.atts| && r'.atts[j].over && r'.atts[j].target.id == id
    {
      var j: nat :| j < |r.atts| && r.atts[j].over && r.atts[j].target.id == id;
      assert r'.atts[j].over && r'.atts[j].target.id == id;
    }
  }

  lemma ErrorsStable(r: Record, k: nat, a: Attempt, atts: seq<Attempt>)
    requires ErrorsOk(r.atts) && MovesOn(r, k, a) && atts == r.atts[k := a]
    ensures Grows(r.atts, atts) && ErrorsOk(atts)
  {
    forall j: nat | j < |atts| && Exhausted(atts[j])
      ensures ExhaustionOk(atts, j, atts[j].pc.result.err.dispatched)
    {
      assert Exhausted(r.atts[j]);
      ExhaustionStable(r.atts, atts, j, atts[j].pc.result.err.dispatched);
    }
  }

  /** A step of attempt `k` that books no failure keeps everything but the latch. */
  lemma StepOfOne(r: Record, k: nat, a: Attempt, r': Record)
    requires Inv(r) && MovesOn(r, k, a) && r'.atts == r.atts[k := a] && r'.c == r.c
    requires Exhausted(r.atts[k]) && !Exhausted(a) ==> r'.claimed
    requires r.claimed ==> r'.claimed
    ensures Grows(r.atts, r'.atts)
    ensures CountersOk(r') && AttemptsOk(r'.atts) && ErrorsOk(r'.atts) && PendingOk(r')
    ensures Sum(r'.atts, Winning) == Sum(r.atts, Winning) - Winning(r.atts[k]) + Winning(a)
  {
    CountersStable(r, k, a, r');
    ErrorsStable(r, k, a, r'.atts);
    SumUpdate(r.atts, k, a, Winning);
    forall j: nat | j < |r'.atts| ensures AttemptOk(r'.atts[j]) && OriginOk(r'.atts, j) {
      assert AttemptOk(r.atts[j]) && OriginOk(r.atts, j);
    }
    if !r'.claimed && r'.c.attempts == 0 {
      var j: nat :| j < |r.atts| && Exhausted(r.atts[j]);
      assert Exhausted(r'.atts[j]);
    }
  }

  lemma LatchStable(r: Record, r': Record)
    requires LatchOk(r) && Grows(r.atts, r'.atts)
    requires r'.buffer == r.buffer && r'.received == r.received
    ensures forall res :: res in r'.buffer || res in r'.received ==> Delivered(r', res)
  {
    forall res | res in r'.buffer || res in r'.received ensures Delivered(r', res) {
      DeliveredStable(r, r', res);
    }
  }

  lemma LatchKept(r: Record, r': Record)
    requires LatchOk(r) && Grows(r.atts, r'.atts) && Sum(r'.atts, Winning) == Sum(r.atts, Winning)
    requires r'.buffer == r.buffer && r'.received == r.received && r'.claimed == r.claimed
    requires !r.claimed ==>
      forall k: nat :: k < |r'.atts| ==> !r'.atts[k].pc.Won? && (r'.atts[k].pc.Done? ==> r'.atts[k].over)
    ensures LatchOk(r')
  {
    LatchStable(r, r');
  }

  // ---------- one lemma per kind of step ----------

  lemma MoveIsOne(r: Record, a: Action)
    requires AttemptsOk(r.atts) && Enabled(r, a)
    requires a.Launch? || a.Return? || a.Check? || a.Snapshot?
    ensures MovesOn(r, a.k, Apply(r, a).atts[a.k])
    ensures Apply(r, a) == r.(atts := r.atts[a.k := Apply(r, a).atts[a.k]])
    ensures !Exhausted(r.atts[a.k]) && !r.atts[a.k].pc.Won? && !Apply(r, a).atts[a.k].pc.Won?
    ensures Apply(r, a).atts[a.k].pc.Done? ==> r.claimed
  {
    assert AttemptOk(r.atts[a.k]);
  }

  lemma MoveKeepsInv(r: Record, a: Action)
    requires Inv(r) && Enabled(r, a)
    requires a.Launch? || a.Return? || a.Check? || a.Snapshot?
    ensures Inv(Apply(r, a))
  {
    MoveIsOne(r, a);
    LatchAfterMove(r, a.k, Apply(r, a).atts[a.k]);
  }

  lemma LatchAfterMove(r: Record, k: nat, a: Attempt)
    requires Inv(r) && MovesOn(r, k, a) && !Exhausted(r.atts[k])
    requires !r.atts[k].pc.Won? && !a.pc.Won? && (a.pc.Done? ==> r.claimed)
    ensures Inv(r.(atts := r.atts[k := a]))
  {
    var r' := r.(atts := r.atts[k := a]);
    StepOfOne(r, k, a, r');
    LatchKept(r, r');
  }

  lemma CasKeepsInv(r: Record, k: nat)
    requires Inv(r) && Enabled(r, Cas(k))
    ensures Inv(Apply(r, Cas(k)))
  {
    var r' := Apply(r, Cas(k));
    StepOfOne(r, k, r'.atts[k], r');
    LatchStable(r, r');
  }

  /** Two different attempts cannot both be part of a sum smaller than theirs. */
  lemma {:induction false} SumBounds(atts: seq<Attempt>, f: Attempt -> int)
    requires forall a :: f(a) >= 0
    ensures Sum(atts, f) >= 0
    ensures forall j: nat :: j < |atts| ==> f(atts[j]) <= Sum(atts, f)
    ensures forall j: nat, k: nat :: j < k < |atts| ==> f(atts[j]) + f(atts[k]) <= Sum(atts, f)
  {
    if atts != [] {
      var rest := atts[..|atts| - 1];
      SumBounds(rest, f);
      assert forall j: nat :: j < |rest| ==> rest[j] == atts[j];
    }
  }

  /** The winner holds the whole of the conserved unit: the latch is set, the channel is
      empty, nobody has received anything, and there is no second winner. */
  lemma WinnerFacesEmptyBuffer(r: Record, k: nat)
    requires Inv(r) && k < |r.atts| && r.atts[k].pc.Won?
    ensures r.claimed && r.buffer == [] && r.received == []
    ensures forall j: nat :: j < |r.atts| && r.atts[j].pc.Won? ==> j == k
  {
    SumBounds(r.atts, Winning);
  }

  lemma SendKeepsInv(r: Record, k: nat)
    requires Inv(r) && Enabled(r, Send(k))
    ensures Inv(Apply(r, Send(k)))
  {
    var r' := Apply(r, Send(k));
    WinnerFacesEmptyBuffer(r, k);
    StepOfOne(r, k, r'.atts[k], r');
    assert Justified(r'.atts[k], r.atts[k].pc.result);
  }

  /** A dispatch appends an attempt that has evidence for nothing yet. */
  lemma AppendStable(r: Record, atts: seq<Attempt>, w: Worker, origin: Origin)
    requires atts == r.atts + [NewAttempt(w, origin)]
    ensures Grows(r.atts, atts)
    ensures Sum(atts, Live) == Sum(r.atts, Live) + 1 && Sum(atts, Winning) == Sum(r.atts, Winning)
  {
    SumAppend(r.atts, NewAttempt(w, origin), Live);
    SumAppend(r.atts, NewAttempt(w, origin), Winning);
  }

  lemma AppendKeepsErrors(atts: seq<Attempt>, a: Attempt)
    requires AttemptsOk(atts) && ErrorsOk(atts) && !a.over && AttemptOk(a)
    requires a.origin.Rerouted? || (a.origin.Replacing? && a.origin.parent < |atts|)
    requires a.origin.Replacing? ==>
      forall k: nat :: k < |atts| && Exhausted(atts[k]) ==>
        Descends(atts, a.origin.parent, atts[k].pc.result.err.dispatched)
    ensures ErrorsOk(atts + [a])
  {
    var atts' := atts + [a];
    assert Grows(atts, atts');
    forall j: nat | j < |atts'| && Exhausted(atts'[j])
      ensures ExhaustionOk(atts', j, atts'[j].pc.result.err.dispatched)
    {
      assert Exhausted(atts[j]);
      var n := atts[j].pc.result.err.dispatched;
      if a.origin.Replacing? { DescendsStable(atts, atts', a.origin.parent, n); }
      ExhaustionStable(atts, atts', j, n);
    }
  }

  lemma AppendKeepsCounters(r: Record, r': Record, a: Attempt)
    requires CountersOk(r) && AttemptsOk(r.atts) && !a.over && a.pc.Owed?
    requires r'.atts == r.atts + [a] && r.c.dispatched < MAX_ATTEMPTS && r'.c == Claim(r.c, a.target.id)
    ensures CountersOk(r')
    ensures forall j: nat :: j < |r.atts| ==> AttemptOk(r'.atts[j]) && OriginOk(r'.atts, j)
    ensures r'.c.attempts > 0
  {
    SumAppend(r.atts, a, Live);
    SumBounds(r.atts, Live);
    forall j: nat | j < |r.atts| ensures AttemptOk(r'.atts[j]) && OriginOk(r'.atts, j) {
      assert r'.atts[j] == r.atts[j];
      assert OriginOk(r.atts, j);
    }
    forall id | id in r'.c.tried
      ensures exists k: nat :: k < |r'.atts| && r'.atts[k].over && r'.atts[k].target.id == id
    {
      var j: nat :| j < |r.atts| && r.atts[j].over && r.atts[j].target.id == id;
      assert r'.atts[j].over && r'.atts[j].target.id == id;
    }
  }

  lemma RerouteKeepsInv(r: Record, w: Worker)
    requires Inv(r) && Enabled(r, Reroute(w))
    ensures Inv(Apply(r, Reroute(w)))
  {
    var r' := Apply(r, Reroute(w));
    AppendStable(r, r'.atts, w, Rerouted);
    AppendKeepsErrors(r.atts, NewAttempt(w, Rerouted));
    AppendKeepsCounters(r, r', NewAttempt(w, Rerouted));
    LatchStable(r, r');
  }

  /** The first half of the locked region: the failure of attempt `k` is booked. */
  ghost function Booked(r: Record, k: nat, pc: Pc): Record
    requires k < |r.atts|
  {
    r.(c := Fail(r.c, r.atts[k].target.id), atts := r.atts[k := r.atts[k].(pc := pc, over := true)])
  }

  lemma BookingGrows(r: Record, k: nat, pc: Pc)
    requires AttemptsOk(r.atts) && k < |r.atts| && r.atts[k].pc.Holding?
    ensures Grows(r.atts, Booked(r, k, pc).atts)
  {
    assert AttemptOk(r.atts[k]);
  }

  lemma BookingKeepsCounters(r: Record, k: nat, pc: Pc)
    requires CountersOk(r) && AttemptsOk(r.atts) && k < |r.atts| && r.atts[k].pc.Holding?
    ensures CountersOk(Booked(r, k, pc))
  {
    var r' := Booked(r, k, pc);
    assert AttemptOk(r.atts[k]);
    SumUpdate(r.atts, k, r'.atts[k], Live);
    forall id | id in r'.c.tried
      ensures exists j: nat :: j < |r'.atts| && r'.atts[j].over && r'.atts[j].target.id == id
    {
      if id == r.atts[k].target.id {
        assert r'.atts[k].over;
      } else {
        var j: nat :| j < |r.atts| && r.atts[j].over && r.atts[j].target.id == id;
        assert r'.atts[j].over && r'.atts[j].target.id == id;
      }
    }
  }

  /** All attempts are booked when the sum of the unbooked ones is zero. */
  lemma AllBooked(atts: seq<Attempt>)
    requires Sum(atts, Live) == 0
    ensures forall j: nat :: j < |atts| ==> atts[j].over
  {
    SumBounds(atts, Live);
    forall j: nat | j < |atts| ensures atts[j].over {
      assert Live(atts[j]) <= 0;
    }
  }

  lemma BookingKeepsErrors(r: Record, k: nat, pc: Pc)
    requires Inv(r) && k < |r.atts| && r.atts[k].pc.Holding?
    requires
      || pc == Done
      || (&& Fail(r.c, r.atts[k].target.id).attempts == 0
          && pc == Settling(Fault(ExhaustedAttempts(r.c.dispatched, r.atts[k].pc.err), r.atts[k].target.id)))
    ensures ErrorsOk(Booked(r, k, pc).atts) && AttemptsOk(Booked(r, k, pc).atts)
  {
    var r' := Booked(r, k, pc);
    BookingGrows(r, k, pc);
    BookingKeepsCounters(r, k, pc);
    forall j: nat | j < |r'.atts| ensures AttemptOk(r'.atts[j]) && OriginOk(r'.atts, j) {
      assert AttemptOk(r.atts[j]) && OriginOk(r.atts, j);
    }
    forall j: nat | j < |r'.atts| && Exhausted(r'.atts[j])
      ensures ExhaustionOk(r'.atts, j, r'.atts[j].pc.result.err.dispatched)
    {
      if j == k {
        AllBooked(r'.atts);
      } else {
        assert Exhausted(r.atts[j]);
        ExhaustionStable(r.atts, r'.atts, j, r'.atts[j].pc.result.err.dispatched);
      }
    }
  }

  lemma BookingKeepsLatch(r: Record, k: nat, pc: Pc)
    requires Inv(r) && k < |r.atts| && r.atts[k].pc.Holding? && (pc.Done? || pc.Settling?)
    ensures LatchOk(Booked(r, k, pc))
  {
    var r' := Booked(r, k, pc);
    BookingGrows(r, k, pc);
    SumUpdate(r.atts, k, r'.atts[k], Winning);
    LatchStable(r, r');
  }

  lemma BookingKeepsAll(r: Record, k: nat, replacement: Option<Worker>)
    requires Inv(r) && Enabled(r, Lock(k, replacement))
    ensures
      var b := Booked(r, k, Locked(r, k, replacement).atts[k].pc);
      CountersOk(b) && LatchOk(b) && AttemptsOk(b.atts) && ErrorsOk(b.atts)
  {
    var pc := Locked(r, k, replacement).atts[k].pc;
    BookingKeepsCounters(r, k, pc);
    BookingKeepsErrors(r, k, pc);
    BookingKeepsLatch(r, k, pc);
  }

  lemma LockWithoutReplacement(r: Record, k: nat)
    requires Inv(r) && Enabled(r, Lock(k, None))
    ensures Inv(Locked(r, k, None))
  {
    BookingKeepsAll(r, k, None);
    var r' := Locked(r, k, None);
    assert r' == Booked(r, k, r'.atts[k].pc);
    if r'.c.attempts == 0 { assert Exhausted(r'.atts[k]); }
  }

  /** Attempt `k` was not booked, so it is none of the attempts a pending error has
      counted: it descends from a later reroute, and so does its replacement. */
  lemma UnbookedDescends(r: Record, k: nat, pc: Pc)
    requires Inv(r) && k < |r.atts| && r.atts[k].pc.Holding? && pc.Done?
    ensures
      var atts := Booked(r, k, pc).atts;
      forall j: nat :: j < |atts| && Exhausted(atts[j]) ==> Descends(atts, k, atts[j].pc.result.err.dispatched)
  {
    var atts := Booked(r, k, pc).atts;
    BookingGrows(r, k, pc);
    assert AttemptOk(r.atts[k]);
    forall j: nat | j < |atts| && Exhausted(atts[j])
      ensures Descends(atts, k, atts[j].pc.result.err.dispatched)
    {
      assert Exhausted(r.atts[j]);
      DescendsStable(r.atts, atts, k, atts[j].pc.result.err.dispatched);
    }
  }

  lemma LockWithReplacement(r: Record, k: nat, w: Worker)
    requires Inv(r) && Enabled(r, Lock(k, Some(w)))
    ensures Inv(Locked(r, k, Some(w)))
  {
    BookingKeepsAll(r, k, Some(w));
    UnbookedDescends(r, k, Done);
    var r', b := Locked(r, k, Some(w)), Booked(r, k, Done);
    assert r' == b.(c := Claim(b.c, w.id), atts := b.atts + [NewAttempt(w, Replacing(k))]);
    ReplacementKeepsInv(b, k, w, r');
  }

  lemma ReplacementKeepsInv(b: Record, k: nat, w: Worker, r': Record)
    requires CountersOk(b) && LatchOk(b) && AttemptsOk(b.atts) && ErrorsOk(b.atts)
    requires k < |b.atts| && b.atts[k].over && b.c.dispatched < MAX_ATTEMPTS
    requires forall j: nat :: j < |b.atts| && Exhausted(b.atts[j]) ==>
               Descends(b.atts, k, b.atts[j].pc.result.err.dispatched)
    requires r' == b.(c := Claim(b.c, w.id), atts := b.atts + [NewAttempt(w, Replacing(k))])
    ensures Inv(r')
  {
    AppendStable(b, r'.atts, w, Replacing(k));
    AppendKeepsErrors(b.atts, NewAttempt(w, Replacing(k)));
    AppendKeepsCounters(b, r', NewAttempt(w, Replacing(k)));
    LatchKept(b, r');
  }

  // ---------- all interleavings ----------

  lemma NewRecordInv(req: Request, w: Worker)
    ensures Inv(NewRecord(req, w))
  {
    var a := NewAttempt(w, FirstDispatch);
    assert NewRecord(req, w).atts == [] + [a];
    SumAppend([], a, Live);
    SumAppend([], a, Winning);
  }

  lemma ReceiveKeepsInv(r: Record)
    requires Inv(r) && Enabled(r, Receive)
    ensures Inv(Apply(r, Receive))
  {
    LatchStable(r, r);
    assert forall res :: Delivered(r, res) ==> Delivered(Apply(r, Receive), res);
  }

  lemma StepKeepsInv(r: Record, a: Action)
    requires Inv(r) && Enabled(r, a)
    ensures Inv(Apply(r, a))
  {
    match a
    case Lock(k, None) => LockWithoutReplacement(r, k);
    case Lock(k, Some(w)) => LockWithReplacement(r, k, w);
    case Cas(k) => CasKeepsInv(r, k);
    case Send(k) => SendKeepsInv(r, k);
    case Reroute(w) => RerouteKeepsInv(r, w);
    case Receive => ReceiveKeepsInv(r);
    case _ => MoveKeepsInv(r, a);
  }

  lemma {:induction false} RunKeepsInv(r: Record, acts: seq<Action>, r': Record)
    requires Inv(r) && Run(r, acts, r')
    ensures Inv(r')
    decreases |acts|
  {
    if acts != [] {
      StepKeepsInv(r, acts[0]);
      RunKeepsInv(Apply(r, acts[0]), acts[1..], r');
    }
  }
}
