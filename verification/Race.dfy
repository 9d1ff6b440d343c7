/** The race over one in-flight record, as a step system. The record is shared by the
    waiting handler, the attempt goroutines and the poll loop's reroute; every step
    below is one critical section, one atomic operation or one channel operation, and
    any enabled step may come next. */
module Race {
  import opened Rpc
  import opened Budget

  /** Why an attempt was dispatched: by `Generate`, by the failed attempt `parent`, or by
      the poll loop. */
  datatype Origin = FirstDispatch | Replacing(parent: nat) | Rerouted

  /** Where an attempt goroutine stands. */
  datatype Pc =
    | Owed                                               // counted, goroutine not launched yet
    | Running                                            // the RPC has not returned
    | Failed(err: Error)                                 // before the look at the latch
    | Retrying(err: Error)                               // retryable, before the view snapshot
    | Holding(err: Error, candidates: seq<Worker>)       // snapshot in hand, before the lock
    | Settling(result: AttemptResult)                    // about to try the latch
    | Won(result: AttemptResult)                         // latch taken, before the send
    | Done

  /** `rpc` and `over` are history: what the RPC returned, and whether the failure was
      booked under the lock (the decrement of `attempts`). */
  datatype Attempt = Attempt(target: Worker, origin: Origin, pc: Pc, rpc: Option<Outcome>, over: bool)

  /** `buffer` is the cap-1 channel; `received` records what the handler took out of it. */
  datatype Record = Record(
    req: Request, c: Counters, claimed: bool,
    buffer: seq<AttemptResult>, received: seq<AttemptResult>,
    atts: seq<Attempt>)

  datatype Action =
    | Launch(k: nat)
    | Return(k: nat, outcome: Outcome)
    | Check(k: nat)
    | Snapshot(k: nat, candidates: seq<Worker>)
    | Lock(k: nat, replacement: Option<Worker>)
    | Cas(k: nat)
    | Send(k: nat)
    | Reroute(target: Worker)
    | Receive

  function NewAttempt(target: Worker, origin: Origin): Attempt {
    Attempt(target, origin, Owed, None, false)
  }

  /** The record `register` creates, with the first attempt still to be launched. */
  function NewRecord(req: Request, target: Worker): Record {
    Record(req, Admitted(target.id), false, [], [], [NewAttempt(target, FirstDispatch)])
  }

  predicate Enabled(r: Record, a: Action) {
    match a
    case Launch(k) => k < |r.atts| && r.atts[k].pc.Owed?
    case Return(k, _) => k < |r.atts| && r.atts[k].pc.Running?
    case Check(k) => k < |r.atts| && r.atts[k].pc.Failed?
    case Snapshot(k, candidates) =>
      && k < |r.atts| && r.atts[k].pc.Retrying?
      && r.atts[k].target.id !in IdsOf(candidates)
    case Lock(k, replacement) =>
      && k < |r.atts| && r.atts[k].pc.Holding?
      && MayReplace(Fail(r.c, r.atts[k].target.id), r.atts[k].pc.candidates, replacement)
    case Cas(k) => k < |r.atts| && r.atts[k].pc.Settling?
    case Send(k) => k < |r.atts| && r.atts[k].pc.Won? && |r.buffer| < 1
    case Reroute(_) => r.c.dispatched < MAX_ATTEMPTS
    case Receive => r.buffer != []
  }

  function MoveTo(r: Record, k: nat, pc: Pc): Record
    requires k < |r.atts|
  {
    r.(atts := r.atts[k := r.atts[k].(pc := pc)])
  }

  /** `attempt` (gateway.go): a response goes straight to `settle`, an error to `attemptFailed`. */
  function Returned(r: Record, k: nat, outcome: Outcome): Record
    requires k < |r.atts|
  {
    var att := r.atts[k];
    var pc := match outcome
              case Ok(resp) => Settling(Answer(resp, att.target.id))
              case Err(err) => Failed(err);
    r.(atts := r.atts[k := att.(pc := pc, rpc := Some(outcome))])
  }

  /** The look at the latch, then the terminal/retryable split. */
  function Checked(r: Record, k: nat): Record
    requires k < |r.atts| && r.atts[k].pc.Failed?
  {
    var err := r.atts[k].pc.err;
    MoveTo(r, k, if r.claimed then Done
                 else if !Retryable(err) then Settling(Fault(err, r.atts[k].target.id))
                 else Retrying(err))
  }

  /** The locked region of `attemptFailed`, and the branch taken right after the unlock. */
  function Locked(r: Record, k: nat, replacement: Option<Worker>): Record
    requires k < |r.atts| && r.atts[k].pc.Holding?
  {
    var att := r.atts[k];
    var c := AfterFailure(r.c, att.target.id, replacement);
    var pc := if replacement.None? && c.attempts == 0
              then Settling(Fault(ExhaustedAttempts(c.dispatched, att.pc.err), att.target.id))
              else Done;
    var atts := r.atts[k := att.(pc := pc, over := true)];
    r.(c := c, atts := if replacement.Some? then atts + [NewAttempt(replacement.value, Replacing(k))] else atts)
  }

  /** The compare-and-swap of `settle`. */
  function Swapped(r: Record, k: nat): Record
    requires k < |r.atts| && r.atts[k].pc.Settling?
  {
    if r.claimed then MoveTo(r, k, Done)
    else MoveTo(r, k, Won(r.atts[k].pc.result)).(claimed := true)
  }

  function Apply(r: Record, a: Action): Record
    requires Enabled(r, a)
  {
    match a
    case Launch(k) => MoveTo(r, k, Running)
    case Return(k, outcome) => Returned(r, k, outcome)
    case Check(k) => Checked(r, k)
    case Snapshot(k, candidates) => MoveTo(r, k, Holding(r.atts[k].pc.err, candidates))
    case Lock(k, replacement) => Locked(r, k, replacement)
    case Cas(k) => Swapped(r, k)
    case Send(k) => MoveTo(r, k, Done).(buffer := r.buffer + [r.atts[k].pc.result])
    case Reroute(w) => r.(c := Claim(r.c, w.id), atts := r.atts + [NewAttempt(w, Rerouted)])
    case Receive => r.(buffer := [], received := r.received + r.buffer)
  }

  /** `acts` is a run of the record from `r` to `r'`, in any interleaving. */
  ghost predicate Run(r: Record, acts: seq<Action>, r': Record)
    decreases |acts|
  {
    if acts == [] then r == r'
    else Enabled(r, acts[0]) && Run(Apply(r, acts[0]), acts[1..], r')
  }

  // ---------- sums over the attempts ----------

  ghost function Sum(atts: seq<Attempt>, f: Attempt -> int): int {
    if atts == [] then 0 else Sum(atts[..|atts| - 1], f) + f(atts[|atts| - 1])
  }

  lemma {:induction false} SumUpdate(atts: seq<Attempt>, k: nat, a: Attempt, f: Attempt -> int)
    requires k < |atts|
    ensures Sum(atts[k := a], f) == Sum(atts, f) - f(atts[k]) + f(a)
  {
    var n := |atts| - 1;
    if k == n {
      assert atts[k := a][..n] == atts[..n];
    } else {
      SumUpdate(atts[..n], k, a, f);
      assert atts[k := a][..n] == atts[..n][k := a];
    }
  }

  lemma SumAppend(atts: seq<Attempt>, a: Attempt, f: Attempt -> int)
    ensures Sum(atts + [a], f) == Sum(atts, f) + f(a)
  {
    assert (atts + [a])[..|atts|] == atts;
  }

  function Live(a: Attempt): int { if a.over then 0 else 1 }

  function Winning(a: Attempt): int { if a.pc.Won? then 1 else 0 }

  // ---------- the invariant ----------

  /** The attempt's own evidence for the result it offers. */
  predicate Justified(a: Attempt, r: AttemptResult) {
    && r.workerID == a.target.id
    && match r
       case Answer(resp, _) => a.rpc == Some(Ok(resp)) && !a.over
       case Fault(err, _) =>
         if a.over then err.ExhaustedAttempts? && a.rpc == Some(Err(err.last)) && 1 <= err.dispatched <= MAX_ATTEMPTS
         else a.rpc == Some(Err(err)) && !Retryable(err)
  }

  /** A failure is booked only for a worker that returned a retryable error. */
  predicate ProvenFailure(a: Attempt) {
    a.rpc.Some? && a.rpc.value.Err? && Retryable(a.rpc.value.err)
  }

  predicate AttemptOk(a: Attempt) {
    && (a.over ==> ProvenFailure(a))
    && match a.pc
       case Owed => a.rpc.None? && !a.over
       case Running => a.rpc.None? && !a.over
       case Failed(err) => a.rpc == Some(Err(err)) && !a.over
       case Retrying(err) => a.rpc == Some(Err(err)) && Retryable(err) && !a.over
       case Holding(err, candidates) =>
         a.rpc == Some(Err(err)) && Retryable(err) && !a.over && a.target.id !in IdsOf(candidates)
       case Settling(result) => Justified(a, result)
       case Won(result) => Justified(a, result)
       case Done => a.rpc.Some?
  }

  /** On its way to the latch, or past it, with the exhaustion error. */
  predicate Exhausted(a: Attempt) {
    a.over && (a.pc.Settling? || a.pc.Won?) && a.pc.result.Fault? && a.pc.result.err.ExhaustedAttempts?
  }

  predicate OriginOk(atts: seq<Attempt>, k: nat)
    requires k < |atts|
  {
    match atts[k].origin
    case FirstDispatch => k == 0
    case Replacing(parent) => parent < k && atts[parent].over
    case Rerouted => k > 0
  }

  /** Attempt `j` goes back, through replacements, to a reroute made at dispatch number `n` or later. */
  ghost predicate Descends(atts: seq<Attempt>, j: nat, n: int)
    requires j < |atts|
    decreases j
  {
    && n <= j
    && match atts[j].origin
       case FirstDispatch => false
       case Replacing(parent) => parent < j && Descends(atts, parent, n)
       case Rerouted => true
  }

  /** What holds while attempt `k` carries an exhaustion error computed at `n` dispatches. */
  ghost predicate ExhaustionOk(atts: seq<Attempt>, k: nat, n: int) {
    && k < n <= |atts|
    && (forall j: nat :: j < n ==> atts[j].over)
    && (forall j: nat :: n <= j < |atts| ==> Descends(atts, j, n))
  }

  predicate Delivered(r: Record, res: AttemptResult) {
    exists k: nat :: k < |r.atts| && Justified(r.atts[k], res)
  }

  ghost predicate CountersOk(r: Record) {
    && |r.atts| == r.c.dispatched
    && (r.atts != [] ==> r.c.assignee == r.atts[|r.atts| - 1].target.id)
    && 1 <= r.c.dispatched <= MAX_ATTEMPTS
    && r.c.attempts == Sum(r.atts, Live)
    && (forall k: nat :: k < |r.atts| && r.atts[k].over ==> r.atts[k].target.id in r.c.tried)
    && (forall id :: id in r.c.tried ==> exists k: nat :: k < |r.atts| && r.atts[k].over && r.atts[k].target.id == id)
  }

  ghost predicate LatchOk(r: Record) {
    && Sum(r.atts, Winning) + |r.buffer| + |r.received| == (if r.claimed then 1 else 0)
    && (!r.claimed ==> forall k: nat :: k < |r.atts| ==> !r.atts[k].pc.Won? && (r.atts[k].pc.Done? ==> r.atts[k].over))
    && (forall res :: res in r.buffer || res in r.received ==> Delivered(r, res))
  }

  ghost predicate AttemptsOk(atts: seq<Attempt>) {
    forall k: nat :: k < |atts| ==> AttemptOk(atts[k]) && OriginOk(atts, k)
  }

  ghost predicate ErrorsOk(atts: seq<Attempt>) {
    forall k: nat :: k < |atts| && Exhausted(atts[k]) ==> ExhaustionOk(atts, k, atts[k].pc.result.err.dispatched)
  }

  /** Nobody in the air and nobody answered yet: the exhaustion error is on its way. */
  ghost predicate PendingOk(r: Record) {
    !r.claimed && r.c.attempts == 0 ==> exists k: nat :: k < |r.atts| && Exhausted(r.atts[k])
  }

  ghost predicate Inv(r: Record) {
    CountersOk(r) && LatchOk(r) && AttemptsOk(r.atts) && ErrorsOk(r.atts) && PendingOk(r)
  }
}
