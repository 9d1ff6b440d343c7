# A verified model of the inference gateway and its failure detector

The gateway forwards each client request to one worker and rescues it when that worker
fails. One in-flight record is shared by the waiting handler, up to three attempt
goroutines and the poll loop's reroute; two failure paths (an RPC that failed, a worker
that left the view) spend one budget, and a one-way latch decides whose result the client
sees. The detector turns a worker's silence into a death verdict with a phi-accrual score
over a window of inter-arrival gaps, and evicts the dead from the registry. Nearly all that
the code promises is about interleavings, so both halves are modelled twice: as classes
whose methods are the critical sections and loops of the code, and as step systems in which
any enabled step may come next. The methods are proved against the functions the step
systems are made of.

## How the parts fit

- `Rpc`, `Budget`: workers, errors, and the counters of a record as a value, with what each
  failure path does to them under the tracker's lock.
- `Race`, `RaceSafety`, `RaceTheorems`: the race over one record. A step is one critical
  section, one compare-and-swap or one channel operation. `Race.Inv` is inductive; the
  theorems follow from it for every reachable state or every run.
- `FastPath`: what a failed attempt does, by the code of its error and in numbers, in any
  state of its record.
- `System`, `SystemSafety`, `Isolation`: the whole gateway. Records are identified by
  pointer, the table maps request ids to pointers, and handlers, polls and attempts
  interleave freely. `SystemSafety.RunProjects` carries every theorem about one record over
  to every record of every run of the gateway.
- `SystemTheorems`: what the gateway can do. Every waiting client can still be served, and
  an exhaustion error can overtake a reroute.
- `Calm`, `Steady`: a request against a fleet that holds still while the picks stay arbitrary,
  first alone, then with any number of other clients interleaved, who are answered as the
  workers please.
- `Tracker`, `Gateway`: the objects. `Gateway.Gateway.Attempt` and what it calls return, as
  ghosts, the run of the race that they are.
- `Poll`: what becomes of every worker that leaves the view, over whole runs of the gateway,
  and the reroute scan as a step of `System`.
- `Window`, `Phi`, `Scan`, `Registry`, `Detector`: the ring buffer and its statistics, the
  score, one scan as a function on values, and the objects that carry them out in place.
  `Suspicion` says what the score depends on.
- `ControlPlane`, `ControlPlaneSafety`, `ControlPlaneTheorems`: registry and scanner as a
  step system. Registry operations may come between any two phases of a scan; a log records
  registrations, first sightings, folded arrivals, evictions and events. `Verdicts` says
  what one verdict and one undisturbed scan do to a worker, in terms of its score, its times
  and the thresholds.

Attempts are numbered by dispatch. `over` marks an attempt whose failure was booked under
the lock; `tried` and the live gauge `attempts` are tied to those marks by the invariant.

## Where code and comments disagree

The model follows the code.

- "Nobody is left to answer" (internal/gateway/gateway.go:483-486) and "the only moment an
  error is allowed to become the client's answer" (internal/gateway/tracker.go:70-73): the
  decision is made under the lock, but `settle` runs after the unlock, and a reroute can
  slip in between. `SystemTheorems.ErrorCanOvertakeReroute` gives a run of the whole gateway
  from its empty state; `RaceTheorems.ErrorWinsAloneIff` gives the exact condition (the live
  gauge, read again at the latch, is still zero); `RaceTheorems.ErrorWins` says what is true
  in every case, and `SystemSafety.ServedCountHolds` what is true of a served error.
  The same sentence is contradicted by a terminal error too: it settles at once while other
  attempts may be running (internal/gateway/gateway.go:399-407, which says so itself). The step
  `Race.Checked` does that, and `SystemSafety.ServedFromOwnRecord` names both kinds of error.
- "We never declare a warming-up worker dead" (internal/detector/detector.go:140-142): every
  death of every run has two arrivals folded since the worker's last first sighting, also
  when it was reaped and sighted afresh, if and only if the death threshold is not negative
  (`ControlPlaneTheorems.ColdDeathExactly`). The other side of this: a worker that falls
  silent before two arrivals were folded, or any worker when the window holds one sample, is
  never declared dead under such a threshold (`Scan.SilenceKillsIff`).
- internal/gateway/tracker.go:113-115 calls the channel's buffer slot the claim token. The
  token is the latch (lines 107-111, 133-143).
- proto/inference.proto:19-20 says the gateway mints an empty request id. The code rejects
  it (internal/gateway/gateway.go:292-298).

## Model

| member | source | states |
|---|---|---|
| RaceSafety.StepKeepsInv | internal/gateway/gateway.go:338-498 | Every step of an attempt, of the reroute and of the handler keeps the invariant of a record (accounting, latch, evidence, pending exhaustion), whatever the interleaving. |
| RaceSafety.RunKeepsInv | internal/gateway/gateway.go:338-498 | So does every run. |
| RaceSafety.WinnerFacesEmptyBuffer | internal/gateway/tracker.go:139-142 | Whoever took the latch is alone and finds the channel empty and nothing received yet. |
| RaceTheorems.Accounting | internal/gateway/tracker.go:70-90 | attempts = dispatched minus booked failures; it bounds the undecided attempts and equals them while the latch is open; 0 <= attempts <= dispatched <= 3; tried and attempts together never exceed dispatched. |
| RaceTheorems.TriedIsEvidence | internal/gateway/tracker.go:92-105 | A worker is in tried if and only if an RPC of this record to it returned a retryable error that was booked. |
| RaceTheorems.SingleDelivery | internal/gateway/tracker.go:107-143 | Winners before the send, results buffered and results received total one if the latch is set and zero otherwise; the winner's send never blocks. |
| RaceTheorems.NoSecondDelivery | internal/gateway/tracker.go:107-143 | After a result was sent, no run, however long, delivers another, even after the handler emptied the channel. |
| RaceTheorems.NoRequestLost | internal/gateway/gateway.go:385-498 | While the latch is open some attempt is still to report, or carries the exhaustion error. |
| RaceTheorems.QuiescentMeansAnswered | internal/gateway/gateway.go:385-498 | Once all attempts have ended exactly one result is in the channel or received, with an attempt of this record behind it. |
| RaceTheorems.MeasureFalls | internal/gateway/gateway.go:198-216 | Unspent budget and attempt positions, weighted, strictly fall on every step, both dispatching steps included. |
| RaceTheorems.RunsAreBounded | internal/gateway/gateway.go:473-481 | Every run of a record is no longer than the measure it uses up, under arbitrary views. |
| RaceTheorems.RequestIsBounded | internal/gateway/tracker.go:14-27 | Every run of a request starts at most three RPCs over both paths and has at most 26 steps. |
| RaceTheorems.Progress | internal/gateway/gateway.go:338-498 | No attempt that has not ended is ever stuck. |
| RaceTheorems.StoppedMeansAnswered | internal/gateway/gateway.go:338-498 | However its steps were scheduled, a run of a request that its attempts cannot go on with has answered the client, exactly once. |
| RaceTheorems.ExhaustionIsSound | internal/gateway/gateway.go:427-471 | The locked region computes exhaustion if and only if no attempt is left whose failure is not booked. |
| RaceTheorems.SpentExhaustionIsFinal | internal/gateway/gateway.go:436-463 | With the budget spent, no run brings an attempt back. |
| RaceTheorems.ErrorWins | internal/gateway/gateway.go:483-497 | When an exhaustion error takes the latch, the attempts it counted are over and all others descend from a reroute made after its unlock. |
| RaceTheorems.ErrorWinsAloneIff | internal/gateway/gateway.go:469-497 | It wins with nobody left if and only if the live gauge is still zero at the latch. |
| FastPath.LockExactly | internal/gateway/gateway.go:441-463 | A replacement is sent if and only if fewer than three dispatches were made and some candidate of the snapshot has not failed this request, whether or not other attempts are in the air; it may be any of those and nobody else. |
| FastPath.LockInNumbers | internal/gateway/gateway.go:427-471 | With a replacement the request is assigned to it, one more dispatch is spent and the gauge stays; without one the assignee stays, the gauge falls, and the error goes out if the gauge was one. |
| FastPath.MachineFailureIsRescued | internal/gateway/gateway.go:409-481 | An Unavailable or DeadlineExceeded worker is replaced by any candidate that has not failed this request, while fewer than three dispatches were made; all else in the air stays as it is. |
| FastPath.TerminalAnswersAtOnce | internal/gateway/gateway.go:396-407 | Any other status, or an error without one, is the client's answer at once while the latch is open, whatever else is in the air. |
| FastPath.ResponseWinsOrVanishes | internal/gateway/gateway.go:353-359 | A response is the answer if the latch is open, under the name of its worker; otherwise only its attempt ends. |
| FastPath.StragglersDispatchNothing | internal/gateway/gateway.go:389-394 | An attempt that has not passed the look when the latch is set never sends a replacement, in any run. |
| SystemSafety.StepRefinesRace | internal/gateway/gateway.go:101-360 | Each step of the gateway moves each record by at most one step of the race. |
| SystemSafety.StepKeepsSysInv | internal/gateway/gateway.go:101-360 | Each step keeps the system invariant: records, handlers, table and poll loop agree. |
| SystemSafety.ReachableIsOk | internal/gateway/gateway.go:101-360 | Every state of every run from the empty gateway satisfies it. |
| SystemSafety.RunProjects | internal/gateway/tracker.go:214-217 | Every run of the gateway is, for each record, a run of the race. |
| SystemSafety.ServedFromOwnRecord | internal/gateway/gateway.go:313-319 | What a client is served is a response its own record's RPC got from the named worker, a terminal error of it, or the Unavailable exhaustion error of a worker in tried; no other client was served from that record. |
| SystemSafety.ServedCountHolds | internal/gateway/gateway.go:469-497 | In every run, a client served the exhaustion error with number n: attempts 0 to n-1 of its record are all over, and every other attempt descends from a reroute numbered n or later. |
| SystemSafety.WaitingIsNeverStranded | internal/gateway/gateway.go:313-327 | In every reachable state a waiting client can take its result from the channel, or one of its own attempts is not done and can move. |
| SystemTheorems.ArrivalByCase | internal/gateway/gateway.go:288-303 | Without an id the call is refused as InvalidArgument, with an empty view as Unavailable; otherwise it is given some worker of the view, any of them possible. |
| SystemTheorems.CancelStopsNothing | internal/gateway/gateway.go:321-326 | A client that gives up leaves its record and all attempts as they are. |
| SystemTheorems.CanAlwaysFinish | internal/gateway/gateway.go:288-360 | From every reachable state every waiting client can be served by steps of its own record's attempts and its own handler alone, whatever the view is then and whatever the RPCs answer. |
| SystemTheorems.ErrorCanOvertakeReroute | internal/gateway/gateway.go:469-497 | For any request id and any two different workers, a run of the gateway from its empty state in which the exhaustion error has won while the rescued attempt is running on the other worker. |
| Isolation.UnregisterRemovesOwn | internal/gateway/tracker.go:214-222 | A handler's deferred unregister, though it deletes by id, removes its own record and no other. |
| Isolation.DuplicateIsHarmless | internal/gateway/tracker.go:184-200 | A rejected duplicate changes only its own reply, and never unregisters anything later. |
| Isolation.EntryLastsWithHandler | internal/gateway/gateway.go:305-311 | Through all runs a record keeps its table entry as long as its handler is active. |
| Isolation.RetiredRunsAlone | internal/gateway/tracker.go:214-222 | A record that left the table is never again rerouted, received from or registered; the rest of its run is its own attempts. |
| Isolation.IncarnationsAreApart | internal/gateway/tracker.go:214-222 | Strike the attempts of an unregistered record from any run, and all the rest of the run, a new record of the same request id included, goes exactly as before. |
| Calm.CalmRunKeeps | internal/gateway/gateway.go:409-463 | Over a still fleet the targets stay pairwise distinct and only the latest attempt can move. |
| Calm.CalmEnding | internal/gateway/gateway.go:385-498 | A finished call ends with what its last attempt got, or with exhaustion after every attempt failed retryably. |
| Calm.PigeonholeSuccess | internal/gateway/gateway.go:421-480 | At most two workers failing retryably and some other one, all others answering: the client gets a response, for every sequence of picks. |
| Calm.ExactDispatchCount | internal/gateway/gateway.go:421-497 | N distinct workers all failing retryably: exactly min(N, 3) RPCs to distinct workers, and Unavailable reporting that number. |
| Steady.StepRefinesCalm | internal/gateway/gateway.go:288-498 | While the worker ids of the view and the answers to one record hold still, each step of the gateway moves that record by at most one step of the calm race. |
| Steady.SteadyCallEndsWell | internal/gateway/gateway.go:288-498 | After any run of the gateway, with any other clients interleaved, answered in any way, and polls that may reorder the view: a call that comes and is served while the fleet's ids hold still ends as pigeonhole success and exact dispatch count say. |
| Budget.RerouteIsClaim | internal/gateway/gateway.go:183-220 | The reroute leaves nobody stranded, so an immediate rerun claims nobody; total spending rises by the number of claims; all others are untouched and nobody exceeds the budget. |
| Budget.RerouteByNumbers | internal/gateway/gateway.go:185-216 | Whoever is assigned to a departed worker with fewer than three dispatches moves to one that stays, however many attempts are in the air: one more of them, one more dispatch, the same evidence. Everybody else is as before. |
| Budget.ReplacementExactly | internal/gateway/gateway.go:441-463 | The choices after a booked failure, worker by worker. |
| Budget.SpentByReroute | internal/gateway/gateway.go:209-216 | The budget spent in the whole table rises by one per claim. |
| Tracker.Inflight.constructor | internal/gateway/tracker.go:202-209 | A new record: assigned, one attempt, one dispatch spent, nothing tried, latch open, channel empty. |
| Tracker.Inflight.Settle | internal/gateway/tracker.go:133-143 | First wins: the result goes into the channel if and only if the latch was open; otherwise nothing changes. |
| Tracker.Inflight.Receive | internal/gateway/gateway.go:313-319 | The handler takes the one buffered result; the latch stays. |
| Tracker.Inflight.FailUnderLock | internal/gateway/gateway.go:427-471 | The locked region: the failure is booked, a replacement is claimed if and only if fewer than three dispatches were made and some candidate is untried, the request is then assigned to it, and exhaustion means a live gauge of zero. |
| Tracker.SettleIsCasThenSend | internal/gateway/tracker.go:133-143 | Settle is the race's compare-and-swap followed, for the winner, by a send that is enabled at once. |
| Tracker.Filter | internal/gateway/gateway.go:238-245 | The loop keeps, in order, exactly the workers outside the excluded ids. |
| Tracker.RequestTracker.Register | internal/gateway/tracker.go:190-212 | A duplicate is refused and changes nothing; otherwise a fresh record is entered under the id. |
| Tracker.RequestTracker.Unregister | internal/gateway/tracker.go:218-222 | The entry of the id is gone, the rest of the table stays. |
| Tracker.AdmittingIsRegister | internal/gateway/tracker.go:190-212 | The admitting step of the system does to the table what Register does to the objects, refusal of a duplicate included. |
| Tracker.LeavingIsUnregister | internal/gateway/tracker.go:218-222 | The leaving step does what Unregister does. |
| Tracker.RequestTracker.ClaimStranded | internal/gateway/gateway.go:183-220 | Exactly the stranded requests with budget left are claimed, each for a healthy worker and with one job; the rest of the table is unchanged. |
| Gateway.LockStep | internal/gateway/gateway.go:427-471 | For any record in any state with the invariant, the locked region is one step of its race, and what follows the unlock completes the failed attempt. |
| Gateway.Gateway.HealthyExcept | internal/gateway/gateway.go:233-246 | The view without the excluded ids. |
| Gateway.Gateway.PickWorker | internal/gateway/gateway.go:248-258 | Some worker of the view, or Unavailable when it is empty. |
| Gateway.Gateway.DepartedIDs | internal/gateway/gateway.go:131-144 | Exactly the ids of the old view that the new one lacks. |
| Gateway.Gateway.RerouteFrom | internal/gateway/gateway.go:164-231 | With some healthy target: every request assigned to a departed worker with fewer than three dispatches moves to one that did not depart, with one more attempt and dispatch each and one job, all others stay, and spending rises by the jobs. With none: nothing changes. |
| Gateway.Gateway.PollOnce | internal/gateway/gateway.go:101-129 | A failed poll changes nothing, reports nobody and claims for nobody; a successful one swaps the view, reports exactly what vanished, and claims for it as the reroute does. |
| Gateway.Gateway.Attempt | internal/gateway/gateway.go:338-360 | One attempt with all it re-dispatches is a run of the race in which no other attempt moves, and it terminates. |
| Gateway.Gateway.SettleWith | internal/gateway/gateway.go:359-360 | Settling is one or two steps of the race and ends the attempt; the counters stay. |
| Gateway.Gateway.AttemptFailed | internal/gateway/gateway.go:385-421 | Straggler, terminal error and retryable error each follow the race to the attempt's end. |
| Gateway.Gateway.BookFailure | internal/gateway/gateway.go:427-471 | The locked region over the object is an enabled locking step of its race, and leaves the object showing that step's counters. |
| Gateway.Gateway.ReplaceOrGiveUp | internal/gateway/gateway.go:421-497 | So do snapshot, locked region and what follows the unlock. |
| Gateway.Gateway.AwaitResult | internal/gateway/gateway.go:311-319 | The call's run comes to its end and the handler receives its one result. |
| Gateway.Gateway.Serve | internal/gateway/gateway.go:305-319 | A duplicate is refused; otherwise the reply is the result of a complete run, and the table is as before. |
| Gateway.Gateway.Generate | internal/gateway/gateway.go:288-328 | Each refusal has its code and leaves the tracker alone; otherwise the reply is the result of a complete run, the table is as before, and the pigeonhole and exact-count facts hold of the reply. |
| Poll.PollLedger | internal/gateway/gateway.go:101-173 | Over every run of the gateway, with successful and failed polls, for every worker id: reports of its departure plus one if now in the view equal the times it entered; and each report is claimed for once, or dropped once for want of a healthy worker, or still in the poll loop's hands. |
| Poll.ClaimByAssignee | internal/gateway/gateway.go:183-220 | A claiming step, record by record: who is registered, has fewer than three dispatches and is assigned to a departed worker gains exactly one attempt at a healthy worker, however many are in the air; everybody else is as before. |
| Poll.ClaimByLatestTarget | internal/gateway/gateway.go:205-218 | Over every run: a claiming step rescues a registered request with budget left if and only if the worker of its latest dispatch, by whichever path, is among the departed; after it no such request is left. |
| Poll.RescueIsComplete | internal/gateway/gateway.go:183-220 | A report that is claimed for leaves no registered request with budget on the departed worker, and gives each one it found there one attempt elsewhere. |
| Poll.SnapshotOffersAll | internal/gateway/gateway.go:165-173 | The targets on offer are all the workers of the view that did not depart; with none the report is dropped and nothing else happens. |
| Poll.ViewIsLastAnswer | internal/gateway/gateway.go:101-115 | In every run the view is the answer of the last successful poll, empty before the first; a failed poll changes nothing. |
| Poll.PollClaimIsReroute | internal/gateway/gateway.go:183-220 | The claiming step of the system does to the table what the scan over the objects does, and an immediate rerun finds nobody. |
| Window.PushUnrolled | internal/detector/detector.go:66-83 | Writing the next slot and wrapping around is keeping the last samples in arrival order. |
| Window.StatisticsIgnoreRotation | internal/detector/detector.go:88-111 | Mean and variance do not depend on where the buffer wrapped. |
| Window.VarianceZeroIff | internal/detector/detector.go:100-111 | Variance is never negative, and zero if and only if all samples are equal. |
| Window.VarianceIsMeanOfSquares | internal/detector/detector.go:56-65 | Over the reals the two-pass form equals mean of squares minus squared mean. |
| Window.SlidingWindow.Push | internal/detector/detector.go:76-83 | The window holds the last samples, up to its capacity, the new one last. |
| Window.SlidingWindow.ComputeMean | internal/detector/detector.go:88-98 | The loop over the wrapped storage computes the mean of the samples in arrival order. |
| Window.SlidingWindow.ComputeVariance | internal/detector/detector.go:100-111 | The second pass computes their population variance. |
| Registry.WorkerRegistry.Register | internal/registry/registry.go:58-79 | Upsert: the id's facts are replaced, all others stay. |
| Registry.WorkerRegistry.Deregister | internal/registry/registry.go:81-95 | The id is gone, and the answer says whether it was there. |
| Registry.WorkerRegistry.Heartbeat | internal/registry/registry.go:97-121 | Load and last-seen of a known id change together; an unknown id registers nobody. |
| Registry.WorkerRegistry.ListWorkers | internal/registry/registry.go:123-152 | The snapshot lists every worker once, with its facts. |
| Phi.ScoreGrowsInSilence | internal/detector/detector.go:139-168 | Phi lies between 0 and the cap and, for a fixed window, does not fall as time goes on. |
| Phi.SilenceIsCertain | internal/detector/detector.go:155-168 | From some time of silence on, the score of a window with two samples is at its cap. |
| Suspicion.ScoreInSpreads | internal/detector/detector.go:147-167 | A silence of z spreads times the square root of two beyond the mean scores -log10 of half of erfc(z), and 20 at most; the spread is the standard deviation but at least 0.05. |
| Suspicion.ScoreOnSchedule | internal/detector/detector.go:147-158 | A worker that beats on the mean of its gaps is scored by half of erfc(0). |
| Suspicion.ScoreOfRegular | internal/detector/detector.go:149-153 | A perfectly regular worker is given 0.05 seconds of spread. |
| Suspicion.ScoreIgnoresShift | internal/detector/detector.go:147-158 | One amount more in every gap and in the silence leaves the score as it was. |
| Suspicion.ScoreIgnoresStretch | internal/detector/detector.go:147-158 | So does one factor on all gaps and the silence, while the spread stays above its floor. |
| Phi.AdvanceIsHistoryFree | internal/detector/detector.go:279-296 | The state after a scan depends on the score alone. |
| Phi.ColdDeathIff | internal/detector/detector.go:139-145 | A worker with fewer than two samples dies in a scan if and only if the death threshold is negative. |
| Phi.RecoveryNeedsArrival | internal/detector/detector.go:288-293 | With time not running back, SUSPECT turns to ALIVE only if there is a newer arrival. |
| Scan.ScanReaches | internal/detector/detector.go:253-306 | The loop leaves for each worker of the snapshot what that worker's own turn computes; later turns do not disturb it. |
| Scan.DeathsAreDistinct | internal/detector/detector.go:298-305 | Nobody dies twice in one scan, and all deaths are of the snapshot. |
| Scan.ScanIsExact | internal/detector/detector.go:248-315 | Stored keys are the snapshot's ids minus the deaths, no stored entry is DEAD, deaths had entries, survivors are classified by their score alone, newcomers are born ALIVE. |
| Scan.SilenceKillsIff | internal/detector/detector.go:139-168 | A known worker dies from some time of silence on, if and only if the death threshold is negative, or is below the cap of the score and the window holds two samples. |
| Scan.DeathsHadSamples | internal/detector/detector.go:139-145 | Nobody dies on fewer than two samples while the death threshold is not negative. |
| Detector.DetectorEntry.ComputePhi | internal/detector/detector.go:139-168 | The score of the window in arrival order. |
| Detector.DetectorEntry.Observe | internal/detector/detector.go:268-296 | Fold, score and advance, in place, as the scan function says. |
| Detector.Detector.Observe | internal/detector/detector.go:268-296 | One worker's entry moves in place; the entries of all others, whose objects are separate, hold what they held. |
| Detector.Detector.JudgeAll | internal/detector/detector.go:248-315 | Phase 2 with the reaping loop computes the scan function. |
| Detector.Detector.Bury | internal/detector/detector.go:317-324 | Exactly the deaths leave the registry, and one event each is emitted, in scan order. |
| Detector.Detector.ScanOnce | internal/detector/detector.go:244-325 | The three phases together, over a true snapshot of the registry. |
| ControlPlaneSafety.NotesOn | internal/detector/detector.go:256-274 | A scan adds for each worker of its snapshot one first sighting, one folded arrival or nothing. |
| ControlPlaneSafety.VerdictKeepsInv | internal/detector/detector.go:248-315 | Phase 2 keeps the invariant although the registry has moved on since the snapshot. |
| ControlPlaneSafety.OpKeepsInv | internal/detector/detector.go:244-325 | So does every registry operation and every phase. |
| ControlPlaneSafety.RunKeepsPlaneInv | internal/detector/detector.go:244-325 | So does every run. |
| Verdicts.KnownAfterVerdict | internal/detector/detector.go:268-305 | In every run: a later arrival is folded, whatever the difference; the worker dies if and only if its score is then above the death threshold, and otherwise is SUSPECT if and only if it is above the suspicion threshold. |
| Verdicts.NewcomerAfterVerdict | internal/detector/detector.go:256-266 | A worker seen for the first time is ALIVE with an empty window, its clock at the arrival shown. |
| Verdicts.AbsentAfterVerdict | internal/detector/detector.go:308-314 | A worker that is not in the snapshot is forgotten without a death. |
| Verdicts.BeatIsFolded | internal/registry/registry.go:111-121 | A heartbeat later than the last folded arrival is folded by the next undisturbed scan. |
| Verdicts.StrayBeatIsIgnored | internal/registry/registry.go:108-120 | A heartbeat of an unknown worker changes nothing. |
| Verdicts.RegistrationIsSeen | internal/registry/registry.go:58-79 | A registration is seen by the next undisturbed scan at its time: as a newcomer, or as an arrival if later than the last. |
| Verdicts.LeavingIsNoDeath | internal/registry/registry.go:87-95 | A worker that deregisters is forgotten by the next undisturbed scan and is not a death. |
| Verdicts.EvictionRemoves | internal/detector/detector.go:318-322 | Each eviction takes the first of the doomed out of the registry and nobody else. |
| ControlPlaneTheorems.EvictionNeedsFreshLife | internal/detector/detector.go:298-324 | Between two evictions of one worker by the detector lie a registration, a first sighting after it, and, unless the death threshold is negative, two folded arrivals after that, at rising times. |
| ControlPlaneTheorems.DeathNeedsFreshLife | internal/detector/detector.go:298-324 | Between two DeadEvents of one worker lie the eviction of the first, a later registration and first sighting, and, unless the death threshold is negative, two folds at rising times after that. |
| ControlPlaneTheorems.ColdDeathExactly | internal/detector/detector.go:139-145 | In every run every verdict of death has two arrivals folded since the worker's last first sighting, if and only if the death threshold is not negative. |
| ControlPlaneTheorems.SilenceKills | internal/detector/detector.go:244-325 | In every run, a known worker of the snapshot dies if the scan at hand comes late enough, if and only if the death threshold is negative, or is below the cap, the window can hold two samples and two arrivals were folded since the first sighting. |
| ControlPlaneTheorems.NobodyDiesAboveCap | internal/detector/detector.go:160-166 | With the death threshold at the cap or above, no verdict of any run kills anybody. |
| ControlPlaneTheorems.WindowTelescopes | internal/detector/detector.go:256-274 | In every run the window holds exactly the last min(k, size) gaps since first sighting, all positive; their sum is the time since the arrival folded that many folds earlier, and the mean is that span over the count. |
| ControlPlaneTheorems.RecoveryFoldsArrival | internal/detector/detector.go:268-293 | In every run a SUSPECT worker is ALIVE after a scan only if that scan folded a new arrival of it. |
| ControlPlaneTheorems.ScanIsRun | internal/detector/detector.go:244-325 | A scan with no registry operation in between is one of the runs, with the same entries, registry and deaths. |

## Left out

- gRPC, connection caching, `dispatchRPC`, `Close`, generated code, `main` functions, flags,
  logging and scripts: an RPC is a step that returns a response or any error.
- Real time in the gateway: the attempt timeout means only that every RPC returns; liveness
  is stated as "an attempt can move" and "when all attempts have ended".
- The Go memory model: mutex regions, the compare-and-swap and channel operations are atomic
  steps.
- The distribution of random picks: each pick is arbitrary within its range.
- IEEE rounding and the exact error function, logarithm and square root: times and samples
  are reals, and these functions are parameters with stated range and monotonicity.
- Blocking of the detector on its 64-slot event channel: emitted events are a sequence.
- Clock readings: the times of registrations, heartbeats and scans are passed in.
- A window of size zero: the code panics on the first arrival it folds.
- The control plane's RPC adapter, the worker's mock inference, and any use of load and
  capacity: they decide nothing here.
- Response fields other than the text, and the formatted text of error messages: the
  exhaustion error keeps the dispatch count and the last error.
- The wait of one poll for the next: a new poll may begin while attempts claimed by the last
  one are still to be launched, which allows more interleavings than the code has.
- Gateway.Gateway.Attempt: in the method no other goroutine moves the record while the attempt
  runs, and a worker's answer is a function of its id. `Race` interleaves the attempts freely
  and lets every RPC answer anything.
- Gateway.Gateway.AttemptFailed: the look at the latch, the snapshot and the lock follow each
  other without interference; `Race` has them as three steps, and `Gateway.LockStep` and
  `Tracker.SettleIsCasThenSend` tie the critical sections to those steps in any state.
- Gateway.Gateway.ReplaceOrGiveUp: likewise for the snapshot, the lock and what follows it.
- Gateway.Gateway.AwaitResult: the attempt runs to its end before the receive, and the client
  does not give up; `System` has the handler's receive and its cancellation as steps of
  their own.
- Gateway.Gateway.Serve: likewise for the whole stretch from `register` to `unregister`.
- Gateway.Gateway.Generate: the method is the run in which one call goes on alone over a
  still view; other calls, polls and a client that gives up are interleaved in `System`, and
  `Steady` proves the method's results with other calls interleaved.
- Gateway.Gateway.RerouteFrom: ends with the jobs; launching them is the first step of the
  attempts in `Race`.
- Detector.Detector.ScanOnce: registry operations between its phases are interleaved in
  `ControlPlane`, of which `ControlPlaneTheorems.ScanIsRun` shows it to be a run.
