# Supervisor verification

A Dafny model of the worker supervisor in `packages/worker-manager`, of the debounce machine and the environment-file
parser of `packages/plugin-file-watcher`, and of the sizing arithmetic of `packages/plugin-container-sizing`.

The supervisor runs in one event loop: every stretch of code between two awaits or timer callbacks is one atomic step,
and the environment chooses which step comes next. The model follows that.

- `FleetModel.dfy` gives the transition system: books of live, marked and staggered workers, the restart engine
  (queue, single runner, backoff, breaker, give-up, quarantine), rolls, shutdown, and the thirteen events the
  environment may choose from. `Run` is an arbitrary finite sequence of events from a started fleet. An event whose
  handler is not armed leaves the fleet as it is, so "for all event sequences" quantifies over every interleaving.
- `Supervisor.dfy` holds the objects with the fields the program updates. Each method is one synchronous stretch and
  is proved to make exactly the transition `FleetModel` gives it, so the theorems below hold of the objects.
- `FleetSafety.dfy`, `FleetCapacity.dfy`, `FleetPacing.dfy`, `FleetRetries.dfy` and `FleetRoll.dfy` prove the theorems
  over all runs; `FleetDrain.dfy` runs the fleet in step with the drains of its recycles, and `FleetShutdown.dfy` joins
  its runs with those of the shutdown coordinator.
- `FleetHistory.dfy`, `FleetFates.dfy` and `FleetRollWaits.dfy` hold the fleet's counters, timers and records against
  readings of the run's events that do not mention them.
- `CrashTracker.dfy`, `Drain.dfy`, `Shutdown.dfy`, `HealthMonitor.dfy`, `FleetHealth.dfy` and `FileWatcher.dfy` have
  the same shape: the class, the machine it refines, and theorems about all runs of that machine.
- `Config.dfy`, `Sizing.dfy` and `EnvParser.dfy` are the pure parts; `Config.ValidConfig` is what validation
  guarantees and what the bounds rely on.

Time is a non-decreasing clock in whole milliseconds. In the timed machines the clock cannot pass an armed timer or a
continuation that is ready; separate lemmas (`ClockNeverStuck`, `RollNeverStalls`, `JointNeverStuck`,
`WatchNeverStuck`) show that something can then always move, so no time bound holds by stopping time. Worker ids are
never reused, and a worker's `online` and `exit` are delivered at most once. Fields and records marked `ghost` or
called history (the ledger of fates, accepted crashes, `surplus`, sent signals, reports per worker) are read by no
code and only serve to state properties.

What the proofs show about statements that look right. Each is given with the exact condition under which it holds
and an input or a run that breaks it; `FleetWitnesses.dfy` has those of a started fleet:

- "Recycling and rolls never over-fork." A slot is taken by a serving worker, or by a restart in its backoff wait, whose
  fork does not look again. A run keeps the target exactly if every staggered recycle coming due, and every roll turn
  that forks for a worker already marked, finds a free slot (`TargetKeptIff`, per step `StaggerOverForksIffFull` and
  `RollTurnOverForksIffMarked`), and no other step can exceed it (`CleanRunHasNoSurplus`, `SurplusIsReached`). The code
  checks neither; `AgedSweepOverForks` and `RecycleOvertakesRoll` break the claim.
- "A refill restores the target." Refills after a breaker reset or a roll count active workers, marked ones included.
  `ResetRefillsIff` and `RollEndRefillsIff` say exactly when they suffice; `RefillMissesTheMarked` breaks both.
- "A restart is given up after three failed forks." The count of failures in a row is the engine's, not the restart's. A
  failed fork gives its restart up exactly if two failures were on count, whosever (`FailureGivesUpIff`,
  `ThirdFailureEndsItIff`); breaker resets, roll forks and forks of other restarts forget them (`ForgottenIff`), and
  `FailuresPerRestart` bounds what that allows. `OtherRestartBuysAnAttempt` and `RollBuysTwoMoreAttempts` are runs with
  four and five failures of one restart. In total, only resets and roll forks buy attempts beyond three for each restart
  requested (`OverspendsIffRefreshes`, `AttemptsAreBounded`).
- "A backoff reset takes effect." One that lands while a restart waits stands exactly if that restart does not fork
  (`ResetDuringWaitStandsIff`); otherwise it is overwritten from the captured delay (`ResetIsUndone`).
- "SIGKILL falls inside the budget." The repository's README.md:92-93 advises to set `shutdown.timeoutMs` below the
  platform's grace period for that. The code waits for the ACKs, then for the whole timeout, then for both signal
  delays, so a grace period is kept exactly if it covers the sum of the four (`GraceKeptIff`, `SlowestEscalation`). The
  model follows the code.
- "Balanced sizing is constrained only at `minWorkers`." The loop rounds once and the result twice. Above the minimum
  it is constrained exactly if the memory falls short of the whole megabytes that as many workers need as the inputs
  allow (`BalancedIsClosedForm`, `ConstrainedAboveMinimumIff`); `ConstrainedAboveMinimum` is a container where it
  does.
- "Pending changes end with a teardown." The next call carries them exactly if something was pending
  (`PendingSurvivesTeardownIff`); `StalePayloadIsSent` is a run. The timing promise covers only changes since the last
  teardown (`PendingIffArmed`, `ChangesAreCarriedInTime`).

## Model

| member | source | states |
|---|---|---|
| `FleetSafety.NoOverFork` | packages/worker-manager/src/restart-coordinator.ts:285-395 | On every run, in every order of events: marks are live workers, the active counter is the number of live workers, and until shutdown the serving workers (live minus marked) exceed the target by at most `surplus`, staying strictly below that bound while a restart sits in its backoff wait, although capacity is checked before the wait and the fork comes after it; `surplus` rises only when a roll turn on a marked worker or a staggered recycle fills a slot while none is free |
| `FleetSafety.SurplusIsReached` | packages/worker-manager/src/restart-coordinator.ts:303-316 | The bound is exact: if `surplus` is positive, the run did hold that many filled slots above the target at some point |
| `FleetSafety.NeverAboveTarget` | packages/worker-manager/src/worker-manager.ts:156-182 | Without age-based recycling, and when no roll turn takes a worker that is already marked, the fleet never serves with more than the target, and with fewer while a restart waits |
| `FleetSafety.CleanRunHasNoSurplus` | packages/worker-manager/src/orchestrator.ts:542-565 | Under those two hypotheses `surplus` is zero on the whole run: no other operation can fill a slot twice |
| `FleetSafety.StepSafe` | packages/worker-manager/src/restart-coordinator.ts:303-316 | Every single event keeps the safety invariant (marks within live, bound on serving workers, queued work has a loop, online workers live) |
| `FleetSafety.TargetKeptIff` | packages/worker-manager/src/orchestrator.ts:527-565 | The exact condition over runs: until shutdown a run of a started fleet never fills more slots than the target if and only if every staggered recycle coming due, and every roll turn that forks for a marked worker, finds a slot that neither a serving worker nor a restart in its backoff wait has; the code looks for neither |
| `FleetSafety.RollTurnOverForksIffMarked` | packages/worker-manager/src/orchestrator.ts:527-565 | At or below the target, counting a waiting restart as a filled slot, a roll turn that forks keeps it if and only if its worker is unmarked or a slot is free |
| `FleetSafety.StaggerOverForksIffFull` | packages/worker-manager/src/worker-manager.ts:206-232 | A staggered recycle coming due always fills one more slot, so it keeps the target if and only if a slot was free, counting the one a waiting restart will fill as taken |
| `FleetWitnesses.AgedSweepOverForks` | packages/worker-manager/src/worker-manager.ts:189-236 | A timed run of a started fleet of two that exceeds its target without any roll: shortly before the sweep a worker is recycled; the sweep marks its slow and already aged replacement, whose own replacement is due half a minute later; meanwhile the worker crashes, waits out its backoff and is restarted, and the staggered fork comes on top |
| `FleetSafety.RecycleOvertakesRoll` | packages/worker-manager/src/orchestrator.ts:527-575 | The race itself, from any fleet at target: roll two workers, recycle the second while the roll waits for the first, let the first replacement come online and the first worker leave; seven events later the fleet serves with one worker too many |
| `FleetSafety.NoLostWakeUp` | packages/worker-manager/src/restart-coordinator.ts:277-325 | At every step boundary of every run a non-empty queue has a restart loop that is waiting or about to continue |
| `FleetSafety.ShutdownForksNothing` | packages/worker-manager/src/restart-coordinator.ts:291-341 | Once shutdown has begun no event forks: the set of live workers only shrinks, no new id is given out, and the kill list stays |
| `FleetSafety.NoOrphan` | packages/worker-manager/src/orchestrator.ts:807-830 | On every run, every worker alive after shutdown began is in the kill list captured at its start, whatever was queued, waiting, rolling or staggered then |
| `FleetSafety.ShutdownOnlyByRequest` | packages/worker-manager/src/orchestrator.ts:807-808 | No other event latches the shutdown |
| `FleetCapacity.NoLostCapacity` | packages/worker-manager/src/restart-coordinator.ts:100-163 | On every run: target <= serving + staged + queued or waiting + quarantined, up to what the ledger records as rejected by a trip, dropped by the breaker, by shutdown or by fork give-up, quarantined slots a hot restart forgot, and exits nothing was asked to replace |
| `FleetCapacity.CapacityHoldsUntilACause` | packages/worker-manager/src/restart-coordinator.ts:303-385 | As long as there was no shutdown, no hot restart over quarantined slots, no graceful exit of a worker without a replacement and no loss in the ledger: target <= serving + staged recycles + queued or waiting + quarantined |
| `FleetCapacity.AtRestTheTargetServes` | packages/worker-manager/src/restart-coordinator.ts:285-385 | On such runs on which no slot is filled blindly while none is free, whenever nothing is pending: serving <= target <= serving + staged + quarantined, so with none staged or quarantined exactly the target serves |
| `FleetCapacity.EveryTicketHasOneFate` | packages/worker-manager/src/restart-coordinator.ts:285-385 | Each crash or refill ever requested is in exactly one place: the queue (once), the backoff wait, or the ledger of fates |
| `FleetCapacity.CrashDrawsOneTicket` | packages/worker-manager/src/orchestrator.ts:689-740 | Outside shutdown the crash of any live worker on any run draws exactly one new ticket |
| `FleetHistory.CrashFate` | packages/worker-manager/src/restart-coordinator.ts:100-163 | On every run a crash gives its slot up exactly if it is at least the `bootFailQuarantine`-th boot failure in a row while others serve, is rejected exactly if otherwise the window, by the crashes of the run since the last reset, now holds the threshold, and is accepted otherwise |
| `FleetHistory.CountersAreHistory` | packages/worker-manager/src/restart-coordinator.ts:101-122 | On every run the boot failures in a row and the crashes on record are those read off its events |
| `FleetHistory.FailuresAreHistory` | packages/worker-manager/src/restart-coordinator.ts:361-386 | On every run the failures on count are the forks, of restarts and of roll turns, that failed since the last that did not or a breaker reset |
| `FleetHistory.TicketsIff` | packages/worker-manager/src/restart-coordinator.ts:159-210 | Only crashes and refills are ever queued: a crash outside shutdown draws one ticket, a breaker reset or the end of a roll the missing active workers, and no other event any; a graceful exit draws none |
| `FleetHistory.OnlineIff` | packages/worker-manager/src/orchestrator.ts:674-732 | On every run the online workers are the live ones whose online event has come |
| `FleetFates.EveryFateIsTrue` | packages/worker-manager/src/restart-coordinator.ts:285-386 | On every run a fate is given only when it is the case: a fork was made with the breaker, by the crashes of the run, closed; a drop for capacity found the target served, one by the breaker found it tripped, one by shutdown found it begun, a give-up two failures in a row |
| `FleetFates.ClosedLoopDrops` | packages/worker-manager/src/restart-coordinator.ts:290-314 | And the loop stops for those reasons: resumed when the breaker is tripped, shutdown has begun or the target is served, it drops all that is queued and rests |
| `FleetCapacity.FatesAreFinal` | packages/worker-manager/src/restart-coordinator.ts:285-395 | No event changes or forgets a fate once it is in the ledger |
| `FleetCapacity.AttemptAccounts` | packages/worker-manager/src/restart-coordinator.ts:343-386 | One fork attempt moves its entry to exactly one fate or back to the end of the queue, and capacity on record does not fall |
| `FleetCapacity.LoopAccounts` | packages/worker-manager/src/restart-coordinator.ts:290-316 | The loop accounts for every entry it drops, restarts or leaves queued |
| `FleetCapacity.CrashAccounts` | packages/worker-manager/src/restart-coordinator.ts:100-163 | A crash is covered by its own ticket whether quarantined, rejected by a trip or queued |
| `FleetCapacity.ResetRefillsIff` | packages/worker-manager/src/orchestrator.ts:399-415 | A breaker reset in any safe state brings serving plus pending up to the target if and only if there are at least as many pending restarts as marked workers, or the target was met anyway: it counts active workers, not serving ones |
| `FleetCapacity.RollEndRefillsIff` | packages/worker-manager/src/orchestrator.ts:505-514 | The refill at the end of a roll does so if and only if the target was met anyway, or that same condition holds and the kicked loop keeps its queue (breaker closed, no give-up at its first fork) |
| `FleetCapacity.RefillExactIffUnmarked` | packages/worker-manager/src/orchestrator.ts:399-415 | With nothing pending, a breaker reset is exact if and only if no worker is marked or the target was met anyway |
| `FleetWitnesses.RefillMissesTheMarked` | packages/worker-manager/src/orchestrator.ts:399-415 | A run of any started fleet with threshold one on which neither a breaker reset nor a roll makes up for the crashed replacement of a marked worker: one short, with nothing pending |
| `FleetPacing.CrashLoopRateLimit` | packages/worker-manager/src/restart-coordinator.ts:121-160 | On every run, any interval of length `crashWindowMs` holds at most `crashThreshold` - 1 crashes accepted into the queue since the last breaker reset |
| `FleetPacing.RecordKeepsRate` | packages/worker-manager/src/restart-coordinator.ts:122-134 | Recording a crash keeps the limit, and accepting it does when the breaker counts fewer than the threshold including this one |
| `FleetPacing.BackoffClosedForm` | packages/worker-manager/src/restart-coordinator.ts:330-341 | On every run the wait of a parked restart, and the next wait due, are the closed form for the successful forks since the last reset that took effect, between `backoffMs` and `maxBackoffMs` |
| `FleetPacing.NextBackoffIsClosedForm` | packages/worker-manager/src/restart-coordinator.ts:391-394 | One step of the recurrence is one step of the closed form, capped or not, also from a backoff of zero |
| `FleetPacing.BackoffAfterIsCappedPower` | packages/worker-manager/src/restart-coordinator.ts:391-394 | The closed form is min(backoffMs * multiplier^k, maxBackoffMs) |
| `FleetPacing.BackoffGrows` | packages/worker-manager/src/validation.ts:225-230 | For a validated configuration the wait never shrinks with another restart and never exceeds `maxBackoffMs` |
| `FleetHistory.StabilityTimerIff` | packages/worker-manager/src/restart-coordinator.ts:251-275 | On every run the stability timer is armed exactly if, since the last crash, firing or shutdown, a live worker came online for the first time while there was a backoff; it is due a whole window after the latest such, and time does not pass it |
| `FleetHistory.QuietWindowResets` | packages/worker-manager/src/restart-coordinator.ts:166-180 | On every run, if neither crash nor shutdown nor another such worker comes within the window, the backoff is gone exactly at its end |
| `FleetHistory.BackoffResetsIff` | packages/worker-manager/src/restart-coordinator.ts:183-275 | On every run a backoff goes back to nothing exactly by a breaker reset, by the due stability timer outside shutdown, or, with no window, by a worker that comes online first; the next wait is `backoffMs` then |
| `FleetPacing.ResetDuringWaitStandsIff` | packages/worker-manager/src/restart-coordinator.ts:330-394 | A backoff reset while a restart waits stands if and only if that restart does not fork (shutdown, tripped breaker or failed fork); if it does, the backoff is what it would have been without the reset |
| `FleetWitnesses.ResetIsUndone` | packages/worker-manager/src/restart-coordinator.ts:166-174 | A run of a started fleet on which a worker comes online during a wait, the backoff drops to zero, and the restart that was waiting brings it to the second step of the closed form |
| `FleetPacing.AttemptsAreBounded` | packages/worker-manager/src/restart-coordinator.ts:361-386 | From any state and in every run the loop makes in total at most three fork attempts times the restarts pending or requested, plus two for each breaker reset or roll fork that forgets failures while restarts are pending, although failed entries are queued again |
| `FleetPacing.AttemptsPerRequest` | packages/worker-manager/src/restart-coordinator.ts:290-386 | On every run of a started fleet, attempts made and still possible are at most 3 * requests + 2 * such events |
| `FleetPacing.OverspendsIffRefreshes` | packages/worker-manager/src/orchestrator.ts:543-564 | A step raises that total beyond three per request if and only if it is a breaker reset, or a roll turn whose own fork succeeds, while failures are counted and restarts pending |
| `FleetPacing.CalmTotalIsThreePerPending` | packages/worker-manager/src/restart-coordinator.ts:361-386 | In a run that queues nothing and has no such event, the total of attempts is at most three times the number of restarts pending at its start; a single one may take more than three of them |
| `FleetWitnesses.RollBuysTwoMoreAttempts` | packages/worker-manager/src/orchestrator.ts:543-564 | A timed run of a started fleet with a single restart and five fork attempts, all failed: a hot restart of another worker while it waits for its third makes both bounds exact |
| `FleetRetries.FailuresPerRestart` | packages/worker-manager/src/restart-coordinator.ts:360-386 | On every run each restart fails to fork at most three times between two times the failures are forgotten, at most twice if it is pending still, and in total at most three times and two for each of those |
| `FleetRetries.ThirdFailureEndsItIff` | packages/worker-manager/src/restart-coordinator.ts:360-386 | On every run and for every event, a restart that fails its third fork is given up if and only if two failures in a row were on count, whosever they were; if not, it is pending again and the failures were forgotten since its first |
| `FleetRetries.FailureGivesUpIff` | packages/worker-manager/src/restart-coordinator.ts:327-384 | On every run and for every event and restart, whether it waited or is attempted straight from the loop: if its failed forks rise they rise by one, and it is given up if and only if two failures in a row were on count (none right after a breaker reset), and otherwise pending again |
| `FleetRetries.ForgottenIff` | packages/worker-manager/src/restart-coordinator.ts:386 | Failures on count are forgotten exactly by a breaker reset and by every fork that is not a recycle: of a restart, that is, or of a roll turn |
| `FleetWitnesses.OtherRestartBuysAnAttempt` | packages/worker-manager/src/restart-coordinator.ts:361-386 | A timed run of a started fleet, without roll or reset, on which a restart fails four times before it is given up, because another restart forked after its first |
| `FleetPacing.LoopComesToRest` | packages/worker-manager/src/restart-coordinator.ts:290-325 | In such a calm run every continuation of the suspended loop uses up a rank, whatever the forks do, and at rank zero the loop is idle with nothing pending |
| `FleetPacing.RunnerLowersRank` | packages/worker-manager/src/restart-coordinator.ts:285-395 | Waking the parked loop or resuming the suspended one strictly lowers that rank |
| `FleetRoll.RollIsBounded` | packages/worker-manager/src/drain-coordinator.ts:99-146 | A roll of n targets still running on any run started at most n * (timeoutMs + sigtermDelayMs + sigintDelayMs + 7000 + staggerMs) ms ago |
| `FleetRoll.RollNeverStalls` | packages/worker-manager/src/orchestrator.ts:480-579 | Whenever the clock may not pass, the roll can move, and every move strictly lowers a rank that is zero only when the in-progress guard is released, on every path |
| `FleetRoll.TurnRecordsTruth` | packages/worker-manager/src/orchestrator.ts:527-571 | A turn skips exactly the dead workers and replaces exactly the live ones whose fork succeeds; then the replacement is a new, unmarked, live worker and the old one is marked; otherwise no worker and no mark changes. The roll ends exactly when its targets are done, at shutdown, or at the third failed fork in a row, and in the last two cases no worker and no mark changes either |
| `FleetRoll.EveryTurnWasTaken` | packages/worker-manager/src/orchestrator.ts:527-571 | On every run each recorded turn of a running roll was taken by an event of that very roll, at its top, in the state and with the effect it records, and with a failing fork if it records one |
| `FleetRoll.CompleteRollAccounts` | packages/worker-manager/src/orchestrator.ts:520-579 | A roll that completes took every target once in order, each at an event of the run at which it was dead, or its fork failed, or it was replaced; it reports exactly the replaced ones in order, and leaves the guard open |
| `FleetRollWaits.RollAwaitsEachExit` | packages/worker-manager/src/drain-coordinator.ts:99-146 | On every run a worker is counted as restarted only when it is dead, or when exactly the drain budget and the kill grace have passed since its turn, read off the run, with one more forced kill; it is the worker of the latest turn, and all before are counted |
| `FleetRollWaits.RollStaggersTurns` | packages/worker-manager/src/orchestrator.ts:569-575 | On every run the next turn is taken, and the roll ends, only when the worker replaced last has been counted and `staggerMs` have passed since |
| `FleetRollWaits.RollKillsOnlyAfterBudget` | packages/worker-manager/src/drain-coordinator.ts:123-141 | On every run a roll kills only a worker that is alive exactly the drain budget after its turn, and once |
| `FleetHistory.RestartStartsRollIff` | packages/worker-manager/src/orchestrator.ts:465-480 | A hot restart starts a roll of its targets, with the quarantine cleared, exactly outside shutdown while no roll is running, and changes nothing otherwise |
| `Supervisor.WorkerManager.ForkWorker` | packages/worker-manager/src/worker-manager.ts:69-103 | A fork takes a fresh id, its start time and one active worker; a failing one changes nothing |
| `Supervisor.WorkerManager.ForkWorkers` | packages/worker-manager/src/worker-manager.ts:108-112 | That many single forks, or those before the first that throws |
| `Supervisor.WorkerManager.RecycleWorkerNow` | packages/worker-manager/src/worker-manager.ts:156-182 | A recycle is accepted exactly for a live unmarked worker outside shutdown whose replacement forks; otherwise no mark is left behind |
| `Supervisor.WorkerManager.Sweep` | packages/worker-manager/src/worker-manager.ts:189-237 | A sweep marks and staggers exactly the live unmarked workers older than `maxAgeMs` |
| `FleetHistory.SweepMarksIff` | packages/worker-manager/src/worker-manager.ts:192-203 | On every run a sweep marks and stages exactly the unmarked live workers forked, by the run, more than `maxAgeMs` ago, outside shutdown and with the limit on |
| `FleetHistory.StartIsFork` | packages/worker-manager/src/worker-manager.ts:100-127 | On every run the start time of a live worker is when it was forked |
| `Supervisor.WorkerManager.StaggerTimerFires` | packages/worker-manager/src/worker-manager.ts:206-232 | A staggered recycle forks its replacement, or unmarks its worker when that is dead, shutdown has begun or the fork fails |
| `Supervisor.WorkerManager.StopRecycling` | packages/worker-manager/src/worker-manager.ts:242-247 | Stopping clears marks and stagger timers and nothing else |
| `Supervisor.WorkerManager.MarkForRecycling` | packages/worker-manager/src/worker-manager.ts:133-135 | A mark is added |
| `Supervisor.WorkerManager.CleanupWorker` | packages/worker-manager/src/worker-manager.ts:252-264 | An exit removes the worker, its mark and its timer |
| `Supervisor.RestartCoordinator.ProcessRestartQueue` | packages/worker-manager/src/restart-coordinator.ts:285-325 | The while loop, from its guard until it suspends or ends, makes exactly the modelled transition: each drop, the first backoff wait or fork |
| `Supervisor.RestartCoordinator.RestartWorkerWithBackoff` | packages/worker-manager/src/restart-coordinator.ts:327-341 | Up to the wait, or straight through when the delay is zero |
| `Supervisor.RestartCoordinator.ForkReplacement` | packages/worker-manager/src/restart-coordinator.ts:343-395 | From the fork-time breaker check to the next backoff, with re-queueing and give-up at the third consecutive failure |
| `Supervisor.RestartCoordinator.RetryOrGiveUp` | packages/worker-manager/src/restart-coordinator.ts:366-384 | A failed fork is counted and re-queues its entry; the third in a row drops entry and queue |
| `Supervisor.RestartCoordinator.IncreaseBackoff` | packages/worker-manager/src/restart-coordinator.ts:391-394 | The backoff takes one step of the recurrence |
| `Supervisor.RestartCoordinator.QueueRestart` | packages/worker-manager/src/restart-coordinator.ts:159-162 | An accepted crash is queued under a new ticket and the loop is kicked |
| `Supervisor.RestartCoordinator.BackoffElapsed` | packages/worker-manager/src/restart-coordinator.ts:334-346 | After the wait: aborted by shutdown, otherwise on to the fork |
| `Supervisor.RestartCoordinator.RestartReturned` | packages/worker-manager/src/restart-coordinator.ts:316-325 | The loop continues after a restart came back |
| `Supervisor.RestartCoordinator.KickRestartQueue` | packages/worker-manager/src/restart-coordinator.ts:277-287 | A kick does nothing while a loop is running, so there is never a second one |
| `Supervisor.RestartCoordinator.OnWorkerCrash` | packages/worker-manager/src/restart-coordinator.ts:100-163 | Quarantine, crash record, trip or queueing, with the sliding-window breaker run for real |
| `Supervisor.RestartCoordinator.BootFailureQuarantines` | packages/worker-manager/src/restart-coordinator.ts:101-119 | A boot failure counts only while the rest serves, and gives the slot up at the limit |
| `Supervisor.RestartCoordinator.OnWorkerOnline` | packages/worker-manager/src/restart-coordinator.ts:166-174 | Coming online clears boot failures, and with a backoff resets it at once or arms its reset for a whole stability window later |
| `Supervisor.RestartCoordinator.BackoffResetFires` | packages/worker-manager/src/restart-coordinator.ts:263-274 | The stability timer resets a backoff outside shutdown |
| `Supervisor.RestartCoordinator.Reset` | packages/worker-manager/src/restart-coordinator.ts:183-187 | A reset clears tracker, backoff and fork failures, and keeps queue and quarantine |
| `Supervisor.RestartCoordinator.NoteForkFailure` | packages/worker-manager/src/restart-coordinator.ts:213-215 | One more failure in a row |
| `Supervisor.RestartCoordinator.NoteForkSuccess` | packages/worker-manager/src/restart-coordinator.ts:218-220 | The failures in a row are forgotten |
| `Supervisor.RestartCoordinator.ResetQuarantine` | packages/worker-manager/src/restart-coordinator.ts:195-198 | A hot restart clears the quarantine counters |
| `Supervisor.RestartCoordinator.RequestCapacityRefill` | packages/worker-manager/src/restart-coordinator.ts:204-210 | Any number of refills is queued and the loop is kicked |
| `Supervisor.Orchestrator.constructor` | packages/worker-manager/src/orchestrator.ts:607-628 | A started fleet has the target number of workers and an idle engine |
| `Supervisor.Orchestrator.HandleWorkerOnline` | packages/worker-manager/src/orchestrator.ts:674-687 | Online handling makes the modelled step |
| `Supervisor.Orchestrator.HandleWorkerExit` | packages/worker-manager/src/orchestrator.ts:689-740 | Exit handling makes the modelled step in each of its branches: shutdown, graceful, crash with or without a prior online |
| `Supervisor.Orchestrator.TriggerWorkerRecycle` | packages/worker-manager/src/orchestrator.ts:791-801 | A policy recycle makes the modelled step |
| `Supervisor.Orchestrator.RecycleSweep` | packages/worker-manager/src/worker-manager.ts:192-200 | The sweep is off during shutdown and without `maxAgeMs` |
| `Supervisor.Orchestrator.StaggerTimerFires` | packages/worker-manager/src/worker-manager.ts:206-232 | A stagger timer makes the modelled step |
| `Supervisor.Orchestrator.ResetCircuitBreaker` | packages/worker-manager/src/orchestrator.ts:399-419 | The breaker reset makes the modelled step; outside shutdown it refills target minus active |
| `Supervisor.Orchestrator.RestartWorkers` | packages/worker-manager/src/orchestrator.ts:465-487 | A hot restart is ignored during shutdown or another roll, otherwise clears the quarantine and starts the roll |
| `Supervisor.Orchestrator.RollTurn` | packages/worker-manager/src/orchestrator.ts:527-569 | The next turn, or the end of the roll and its refill |
| `Supervisor.Orchestrator.ReplaceWorker` | packages/worker-manager/src/orchestrator.ts:542-569 | The turn of a live worker: fork first, then the mark and the bounded wait; or the failure noted, with the bail-out |
| `Supervisor.Orchestrator.AdvanceRoll` | packages/worker-manager/src/drain-coordinator.ts:99-146 | The bounded exit wait, the forced kill with its grace period and the stagger, from every suspension point |
| `Supervisor.Orchestrator.ShutdownPrimary` | packages/worker-manager/src/orchestrator.ts:807-830 | Shutdown stops the recycling, captures the live workers and latches in one step |
| `CrashTracking.PruneRefines` | packages/worker-manager/src/crash-tracker.ts:41-49 | Pruning and truncating the bounded list still remembers the unbounded log, and its length is min(maxSize, true in-window count) at this and, by its invariant, every later time |
| `CrashTracking.WindowShrinks` | packages/worker-manager/src/crash-tracker.ts:35-38 | Time alone can only take crashes out of the window, which is how a breaker untrips by itself |
| `CrashTracking.CountMonotone` | packages/worker-manager/src/crash-tracker.ts:41-43 | Counting in a smaller interval never counts more |
| `CrashTracking.CrashTracker.Record` | packages/worker-manager/src/crash-tracker.ts:22-29 | A crash is appended to the log; bounded growth keeps the refinement |
| `CrashTracking.CrashTracker.IsTripped` | packages/worker-manager/src/crash-tracker.ts:35-38 | Tripped exactly when the unbounded log holds at least `threshold` crashes younger than the window |
| `CrashTracking.CrashTracker.Prune` | packages/worker-manager/src/crash-tracker.ts:41-49 | Pruning never changes the log it stands for |
| `CrashTracking.CrashTracker.Count` | packages/worker-manager/src/crash-tracker.ts:57-60 | The count is min(maxSize, true in-window count) |
| `CrashTracking.CrashTracker.Reset` | packages/worker-manager/src/crash-tracker.ts:52-54 | A reset empties the log |
| `Drain.HandoverIsBounded` | packages/worker-manager/src/drain-coordinator.ts:35-85 | Unless shutdown starts, after 2 * (timeoutMs + sigtermDelayMs + sigintDelayMs) + 5000 ms the old worker is dead or was sent SIGKILL, whatever the two workers do |
| `Drain.DrainsOnceForCause` | packages/worker-manager/src/drain-coordinator.ts:45-85 | The old worker is drained at most once, and only after the replacement came online, died first, or the budget ran out, within the budget |
| `Drain.SignalsEscalate` | packages/worker-manager/src/drain-coordinator.ts:188-210 | At most SIGTERM, a full `timeoutMs` after the drain, then SIGKILL after both signal delays; never anything else or earlier |
| `Drain.NoSignalInShutdown` | packages/worker-manager/src/drain-coordinator.ts:188-204 | Whatever timers are armed, on every run a drain sends no signal and drains nothing more once shutdown has begun |
| `Drain.NoSignalToTheDead` | packages/worker-manager/src/drain-coordinator.ts:189-206 | On every run it sends none after the exit of its worker |
| `Drain.LatchesAreEvents` | packages/worker-manager/src/drain-coordinator.ts:58-77 | Its knowledge of shutdown and of the deaths is what the events of the run say |
| `FleetDrain.DrainsAreSilentInShutdown` | packages/worker-manager/src/drain-coordinator.ts:189-196 | In step with the fleet: no drain sends a signal after the shutdown of the fleet has begun, nor to a worker the fleet counts as dead |
| `Drain.ClockNeverStuck` | packages/worker-manager/src/drain-coordinator.ts:76-84 | Where the clock may not pass, a timer is due and firing it changes the state, so the time bound is never met by stopping time |
| `FleetDrain.MarkedWorkersLeaveInTime` | packages/worker-manager/src/orchestrator.ts:778-787 | On every run of the fleet in step with the drains of all its recycles, immediate, staggered or by a roll, until shutdown: every marked worker that has its replacement is being recycled, and each recycle of it started no longer than 2 * (timeoutMs + sigtermDelayMs + sigintDelayMs) + 5000 ms ago or had it sent SIGKILL |
| `FleetDrain.JointRunOk` | packages/worker-manager/src/drain-coordinator.ts:45-85 | On every such run each drain knows of its two workers exactly what the fleet knows, and no marked worker with a replacement is without a drain |
| `FleetDrain.JointNeverStuck` | packages/worker-manager/src/drain-coordinator.ts:76-84 | Where the clock of fleet and drains may not pass, the roll can move or a timer of a drain is due |
| `Drain.Recycle.DrainOldWorker` | packages/worker-manager/src/drain-coordinator.ts:51-56 | Draining latches, disarms the failsafe and arms SIGTERM unless the worker is dead |
| `Drain.Recycle.OnReplacementExit` | packages/worker-manager/src/drain-coordinator.ts:58-62 | A replacement that dies before online starts the drain |
| `Drain.Recycle.OnReplacementOnline` | packages/worker-manager/src/drain-coordinator.ts:65-69 | A replacement that comes online starts the drain outside shutdown |
| `Drain.Recycle.OnFailsafe` | packages/worker-manager/src/drain-coordinator.ts:76-83 | The failsafe drains only a live worker whose replacement is not online |
| `Drain.Recycle.OnForceKill` | packages/worker-manager/src/drain-coordinator.ts:188-208 | SIGTERM, and SIGKILL armed, for a live worker outside shutdown |
| `Drain.Recycle.OnSigkill` | packages/worker-manager/src/drain-coordinator.ts:195-204 | SIGKILL under the same guard; one forced kill counted per signal |
| `Drain.Recycle.OnOldExit` | packages/worker-manager/src/drain-coordinator.ts:206-210 | The exit of the old worker disarms both kill timers |
| `Shutdown.ShutdownIsBounded` | packages/worker-manager/src/shutdown-coordinator.ts:51-96 | Past ackTimeoutMs + timeoutMs + sigtermDelayMs + sigintDelayMs the sequence is over whatever the workers do, and a validated configuration makes that less than 3 * timeoutMs |
| `Shutdown.NobodyIsForgotten` | packages/worker-manager/src/shutdown-coordinator.ts:82-87 | When it is over every listed worker is dead or was sent SIGTERM, SIGINT and SIGKILL in this order |
| `FleetShutdown.NobodyAliveIsSpared` | packages/worker-manager/src/orchestrator.ts:807-830 | Fleet and coordinator together: started on the captured kill list, a coordinator that is done, which it is past its budget, leaves every worker the fleet still counts as alive dead or sent all three signals, whatever either did meanwhile |
| `Shutdown.EachAckSettlesOnce` | packages/worker-manager/src/shutdown-coordinator.ts:115-202 | No ACK wait ever resolves twice, resolved ones have a result, and past the ACK phase each listed worker has resolved exactly once |
| `Shutdown.StandingIsHistory` | packages/worker-manager/src/shutdown-coordinator.ts:115-202 | On every run what is known of each listed worker is what the events that concern it say: acknowledged if it was gone at the start or its ACK came before any error, disconnect, exit or timeout; disconnected by the ACK, the timeout, a failed message or itself; dead if it was or has exited |
| `Shutdown.ForcedKillsAreSigkills` | packages/worker-manager/src/shutdown-coordinator.ts:243-247 | On every run the forced kills counted are the workers that were sent SIGKILL |
| `Shutdown.GraceKeptIff` | README.md:92-93 | A platform grace period is kept on every start and every run, that is, everyone listed is dead or was sent SIGKILL once it is over, if and only if it is at least ackTimeoutMs + timeoutMs + sigtermDelayMs + sigintDelayMs; setting `timeoutMs` below it, as advised there, is not enough |
| `Shutdown.NoKillWithinTimeout` | README.md:92-93 | On every run any SIGKILL comes strictly later than `timeoutMs` after the start |
| `Shutdown.SlowestEscalation` | packages/worker-manager/src/shutdown-coordinator.ts:229-248 | A run on which a worker that never reacts is sent SIGKILL, at the very end of that sum, and is alive with SIGTERM and SIGINT only up to then |
| `Shutdown.ClockNeverStuck` | packages/worker-manager/src/shutdown-coordinator.ts:75-88 | Where the clock may not pass, a timer or a continuation can go and changes the state |
| `Shutdown.StepOk` | packages/worker-manager/src/shutdown-coordinator.ts:51-248 | Every event keeps the invariant on phases, ACK results, deadlines and signals sent |
| `Shutdown.ShutdownCoordinator.InitiateShutdown` | packages/worker-manager/src/shutdown-coordinator.ts:51-102 | Idempotent; the first call opens one ACK wait per listed worker, in order |
| `Shutdown.ShutdownCoordinator.Latch` | packages/worker-manager/src/shutdown-coordinator.ts:51-54 | The latch and the captured list |
| `Shutdown.ShutdownCoordinator.WaitForWorkerAck` | packages/worker-manager/src/shutdown-coordinator.ts:115-201 | A wait for a dead or disconnected worker resolves at once as acknowledged, one whose message cannot be sent as not |
| `Shutdown.ShutdownCoordinator.OnMessageAck` | packages/worker-manager/src/shutdown-coordinator.ts:171-178 | An ACK resolves an open wait and disconnects |
| `Shutdown.ShutdownCoordinator.OnDisconnect` | packages/worker-manager/src/shutdown-coordinator.ts:180-188 | A disconnect resolves an open wait as not acknowledged |
| `Shutdown.ShutdownCoordinator.OnExit` | packages/worker-manager/src/shutdown-coordinator.ts:180-187 | So does an exit |
| `Shutdown.ShutdownCoordinator.OnError` | packages/worker-manager/src/shutdown-coordinator.ts:148-155 | So does an error |
| `Shutdown.ShutdownCoordinator.OnAckTimeout` | packages/worker-manager/src/shutdown-coordinator.ts:192-197 | So does the timeout, which also disconnects |
| `Shutdown.ShutdownCoordinator.Continue` | packages/worker-manager/src/shutdown-coordinator.ts:75-87 | From ACKs to the exit wait, from there to completion or SIGTERM to exactly the survivors, and to completion after all escalations |
| `Shutdown.ShutdownCoordinator.EscalateKill` | packages/worker-manager/src/shutdown-coordinator.ts:229-248 | After a delay a dead worker is left alone; a live one gets the next signal, SIGKILL counted |
| `HealthMonitoring.HealthMonitor.OnWorkerMessage` | packages/worker-manager/src/health-monitor.ts:70-81 | A report fires the rss and the lag policy exactly when the whole history of that worker says so; malformed and stale reports and reports during shutdown fire nothing |
| `HealthMonitoring.HealthMonitor.ApplyPolicies` | packages/worker-manager/src/health-monitor.ts:79-80 | Both policies decide by the history including this report |
| `HealthMonitoring.HealthMonitor.CheckRssLimit` | packages/worker-manager/src/health-monitor.ts:83-95 | The rss policy fires exactly at the first report over the limit |
| `HealthMonitoring.HealthMonitor.CheckLagLimit` | packages/worker-manager/src/health-monitor.ts:102-138 | The lag policy fires exactly at the first spike or the first report that completes the consecutive run, and the beat counter is the length of the current run |
| `HealthMonitoring.HealthMonitor.WedgedSweep` | packages/worker-manager/src/health-monitor.ts:142-157 | With the watch on, a sweep flags exactly the registered workers silent for more than T, none of them silent for more than T + heartbeatMs, and unregisters them; during shutdown it does nothing |
| `HealthMonitoring.SilenceIsFlaggedOnce` | packages/worker-manager/src/health-monitor.ts:142-165 | On every run of reports, exits and sweeps: each silence is flagged at most once, after more than T and at most T + heartbeatMs of it, never for a worker silent for no more than T, and, unless the watch is stopped, always if the silence of a worker that reported lasts longer than T + heartbeatMs |
| `HealthMonitoring.WatchNeverStuck` | packages/worker-manager/src/health-monitor.ts:145-156 | Where the clock may not pass, the sweep is due, and firing it lets the clock go on |
| `HealthMonitoring.HealthMonitor.OnWorkerExit` | packages/worker-manager/src/health-monitor.ts:159-165 | An exit forgets the worker for good |
| `HealthMonitoring.HealthMonitor.Stop` | packages/worker-manager/src/health-monitor.ts:167-174 | Stopping keeps what was counted |
| `HealthMonitoring.HealthMonitor.OneShot` | packages/worker-manager/src/health-monitor.ts:86-104 | Over the whole run each policy has fired for a worker id at most once, and once exactly if its history holds a firing report |
| `HealthMonitoring.BeatsMeanSustained` | packages/worker-manager/src/health-monitor.ts:120-125 | The running count reaches `lagRecycleBeats` exactly when that many consecutive last reports are over the threshold |
| `HealthMonitoring.FiresIffProvoked` | packages/worker-manager/src/health-monitor.ts:102-138 | A policy fires somewhere in a history exactly if some report was a reason |
| `HealthMonitoring.FiresAtMostOnce` | packages/worker-manager/src/health-monitor.ts:86-104 | A policy fires at no two places of one history |
| `FleetHealth.AnnouncementsAlternate` | packages/worker-manager/src/orchestrator.ts:750-776 | On every run degraded and recovered strictly alternate; each degraded comes exactly `degradedAfterMs` after the recompute that began the shortfall, and every recompute from that one up to the announcement saw active < target; each recovered ends such a shortfall at its own recompute and reports exactly its length, at least `degradedAfterMs` |
| `FleetHealth.DegradedIffShortLongEnough` | packages/worker-manager/src/orchestrator.ts:766-775 | Outside shutdown the degraded flag is a function of the history of recomputes |
| `FleetHealth.SilentInShutdown` | packages/worker-manager/src/orchestrator.ts:817-820 | Once shutdown has begun nothing is announced |
| `FleetHealth.SamplesAreRecomputes` | packages/worker-manager/src/orchestrator.ts:750-753 | The samples the announcements are justified by are the recomputes of the run, with the active counts they were given, before shutdown and with the policy on |
| `FleetHealth.FullFleetIsNeverAnnounced` | packages/worker-manager/src/orchestrator.ts:753-766 | A fleet at its target at every recompute is never announced |
| `FleetHealth.ShortFleetIsAnnounced` | packages/worker-manager/src/orchestrator.ts:768-775 | A run that outlasts `degradedAfterMs` of recomputes below target, outside shutdown, ends with the fleet announced degraded |
| `FleetHealth.MetTargetRecovers` | packages/worker-manager/src/orchestrator.ts:753-766 | The first recompute that sees the target met again announces the recovery, with the length of the shortfall |
| `FleetHealth.FleetHealthWatch.RecomputeFleetHealth` | packages/worker-manager/src/orchestrator.ts:750-776 | A recompute makes the modelled step and announces a recovery with its duration exactly when one is due |
| `FleetHealth.FleetHealthWatch.OnDegradedTimer` | packages/worker-manager/src/orchestrator.ts:770-775 | The timer announces a degradation except during shutdown |
| `FleetHealth.FleetHealthWatch.OnShutdown` | packages/worker-manager/src/orchestrator.ts:817-820 | Shutdown clears timer and flag |
| `FileWatcher.EachChangeInOneCall` | packages/plugin-file-watcher/src/index.ts:142-197 | Every carried change is in exactly one restart call, whose payload is the right-biased merge of its stretch of changes and whose reason is the last one given |
| `FileWatcher.PendingIffArmed` | packages/plugin-file-watcher/src/index.ts:147-197 | However installs and teardowns overlap, a timer is armed exactly when there are uncarried changes since the last teardown, and the pending payload is the right-biased merge of all changes since the last call |
| `FileWatcher.ChangesAreCarriedInTime` | packages/plugin-file-watcher/src/index.ts:163-196 | With a maximum wait, every call comes by max(change + debounceMaxWaitMs, previous restart + minRestartIntervalMs) for each change it carries from after the last teardown, and no such change is still pending later than that |
| `FileWatcher.ChangesSettleInTime` | packages/plugin-file-watcher/src/index.ts:163-196 | With a maximum wait or without, every call with changes from after the last teardown comes by max(its last change + debounceMs, previous restart + minRestartIntervalMs), and nothing is pending later than that after the last change |
| `FileWatcher.CallsAreTimed` | packages/plugin-file-watcher/src/index.ts:142-197 | On every run each call with changes from after the last teardown comes exactly `debounceMs` after its last change, or `debounceMaxWaitMs`, if positive, after its first since the flush before, or at the end of the interval such a flush had found running, and never before one of these |
| `FileWatcher.CloseChangesLeaveTogether` | packages/plugin-file-watcher/src/index.ts:186-191 | With no maximum wait and no interval two changes less than `debounceMs` apart are in one call |
| `FileWatcher.DueTimerCallsIff` | packages/plugin-file-watcher/src/index.ts:163-177 | On every run a due timer calls for a restart exactly unless the current install, counted off the events, restarted less than the interval ago, and waits for the end of that interval otherwise; so a new install opens it again |
| `FileWatcher.ChangesAreSeen` | packages/plugin-file-watcher/src/index.ts:186-189 | The changes of a run are those that were seen, when and with what they brought |
| `FileWatcher.CallsAreSpaced` | packages/plugin-file-watcher/src/index.ts:163-175 | Two calls of one install in a row are at least `minRestartIntervalMs` apart |
| `FileWatcher.ClockNeverStuck` | packages/plugin-file-watcher/src/index.ts:186-197 | Where the clock may not pass, a timer is due and firing it changes the state |
| `FileWatcher.PendingSurvivesTeardownIff` | packages/plugin-file-watcher/src/index.ts:99-124 | From any reachable state in which a teardown ends, the next call, whenever it comes, carries a change from before if and only if something was pending then, and then it carries every pending change |
| `FileWatcher.StalePayloadIsSent` | packages/plugin-file-watcher/src/index.ts:132-177 | A run on which the payload of the first install leaves with the first change of the second, which has none of its own |
| `FileWatcher.DryRunForgets` | packages/plugin-file-watcher/src/index.ts:157-162 | A due timer of a dry run drops the pending payload without a call |
| `FileWatcher.ClosedIff` | packages/plugin-file-watcher/src/index.ts:99-136 | On every run the watcher is closed exactly if a teardown has begun since the last install |
| `FileWatcher.DryRunNeverCalls` | packages/plugin-file-watcher/src/index.ts:157-162 | A dry run makes no call on any run |
| `FileWatcher.FileWatcherPlugin.TriggerRestart` | packages/plugin-file-watcher/src/index.ts:186-197 | A change merges its payload, re-arms the debounce and arms the maximum wait once |
| `FileWatcher.FileWatcherPlugin.FlushRestart` | packages/plugin-file-watcher/src/index.ts:142-177 | A flush makes the modelled step and issues a call with the pending payload exactly when it is not a dry run and the interval is over |
| `FileWatcher.FileWatcherPlugin.IssueCall` | packages/plugin-file-watcher/src/index.ts:172-177 | The pending reason and payload leave for one call, which starts a new interval |
| `FileWatcher.FileWatcherPlugin.ClearTimers` | packages/plugin-file-watcher/src/index.ts:143-154 | All three timers are disarmed |
| `FileWatcher.FileWatcherPlugin.OnInstall` | packages/plugin-file-watcher/src/index.ts:132-136 | An install, also of a plugin that is still watching or being torn down, opens the interval again and leaves timers and pending payload alone |
| `FileWatcher.FileWatcherPlugin.BeginTeardown` | packages/plugin-file-watcher/src/index.ts:99-105 | A teardown closes, and waits with its timers still armed |
| `FileWatcher.FileWatcherPlugin.EndTeardown` | packages/plugin-file-watcher/src/index.ts:111-123 | A teardown disarms all timers; the pending payload stays |
| `Sizing.CalculateSizing` | packages/plugin-container-sizing/src/calculator.ts:86-138 | Bad options are rejected with the option named; cpu-first takes the CPU count; balanced takes the largest viable count, which is a closed form of the inputs; heap and share belong to the count, and the result is constrained exactly if memory * overhead is below count * MB times the least whole share with a viable heap |
| `Sizing.RejectedIff` | packages/plugin-container-sizing/src/calculator.ts:56-84 | Options are rejected exactly when one is out of its range, and the one named is |
| `Sizing.LimitsWin` | packages/plugin-container-sizing/src/calculator.ts:97-105 | A container limit decides, and what the machine has only where there is none; the CPU count is taken when it lies between the bounds |
| `Sizing.BalancedIsTheLargestViable` | packages/plugin-container-sizing/src/calculator.ts:107-114 | There is only one such count, and above the minimum every smaller count is viable too |
| `Sizing.ViableDownward` | packages/plugin-container-sizing/src/calculator.ts:109-112 | If a count is viable, so is every smaller one |
| `Sizing.UnconstrainedHeapFits` | packages/plugin-container-sizing/src/calculator.ts:116-123 | Unless clamped, workers * heap fits memory * overhead * heapRatio |
| `Sizing.ClampAddsAtMostOneMbEach` | packages/plugin-container-sizing/src/calculator.ts:122-123 | Above the minimum the clamp exceeds that by at most one megabyte per worker |
| `Sizing.BalancedIsClosedForm` | packages/plugin-container-sizing/src/calculator.ts:105-114 | What the loop finds is max(minWorkers, min(CPU count, floor(memory * overhead * heapRatio / 128 MB))) |
| `Sizing.ViableIff` | packages/plugin-container-sizing/src/calculator.ts:110-111 | A count is viable exactly up to that quotient |
| `Sizing.ConstrainedIff` | packages/plugin-container-sizing/src/calculator.ts:116-123 | For every count, the result is constrained exactly if memory * overhead < count * MB * ceil(128 / heapRatio) |
| `Sizing.ConstrainedAboveMinimumIff` | packages/plugin-container-sizing/src/calculator.ts:110-123 | A balanced result is constrained above `minWorkers` if and only if the closed form exceeds `minWorkers` and that inequality holds for it, both conditions on the inputs |
| `Sizing.EvenRatioNeverConstrains` | packages/plugin-container-sizing/src/calculator.ts:110-123 | With a heapRatio that divides 128 into whole megabytes, a balanced result above `minWorkers` is never constrained |
| `Sizing.RoundingCostsOneMb` | packages/plugin-container-sizing/src/calculator.ts:116-117 | Rounding the share before the heap costs a viable count at most one megabyte |
| `Sizing.ConstrainedAboveMinimum` | packages/plugin-container-sizing/src/calculator.ts:110-123 | So "constrained" does occur above `minWorkers`: a concrete container |
| `EnvParser.ParseEnvFile` | packages/plugin-file-watcher/src/parse-env.ts:25-37 | The loop computes the meaning of the lines of the content |
| `EnvParser.RoundTrip` | packages/plugin-file-watcher/src/parse-env.ts:8-37 | Parsing the rendering of any pairs, each as KEY="value" on its line, gives their right-biased map, whatever quotes, `#` or `=` the values hold |
| `EnvParser.RoundTripIff` | packages/plugin-file-watcher/src/parse-env.ts:25-37 | For distinct keys the round trip holds if and only if every key is trimmed, has no `=` or newline, does not start with `#` and is not forbidden, and no value has a newline |
| `EnvParser.WrittenFileParses` | packages/plugin-file-watcher/src/parse-env.ts:8-37 | Files as people write them, with either kind of quotes, white space around keys, `=`, values and lines, comment lines and blank lines, parse to the right-biased map of their pairs |
| `EnvParser.ParsedIsRenderable` | packages/plugin-file-watcher/src/parse-env.ts:30-34 | No content yields a forbidden key, or a pair that could not be written back |
| `EnvParser.LastLineWins` | packages/plugin-file-watcher/src/parse-env.ts:27-35 | A key has a value exactly when the last line mentioning it sets it so |
| `EnvParser.PartsMerge` | packages/plugin-file-watcher/src/parse-env.ts:27-36 | A file in two parts means the first overridden by the second |
| `EnvParser.LinesInvertJoin` | packages/plugin-file-watcher/src/parse-env.ts:27 | The lines joined by newlines are the content, and none holds a newline |
| `EnvParser.BareValueIff` | packages/plugin-file-watcher/src/parse-env.ts:15-23 | Unquoted, a trimmed value survives exactly when it is not quoted and holds no ` #` |
| `EnvParser.CommentIsStripped` | packages/plugin-file-watcher/src/parse-env.ts:19-22 | A trailing comment is dropped, with the white space before it and the quotes of what it followed |
| `Config.AcceptedIffValid` | packages/worker-manager/src/validation.ts:337-403 | Options are accepted exactly when what they resolve to satisfies every range and cross-field constraint, and then resolve to that |
| `Config.ValidIffFixpoint` | packages/worker-manager/src/validation.ts:211-248 | A fully written configuration is valid exactly when validation returns it unchanged |
| `Config.RangesComplete` | packages/worker-manager/src/validation.ts:113-248 | Each rejection names a constraint that the resolved configuration breaks |
| `Config.RangesSound` | packages/worker-manager/src/validation.ts:113-248 | What no check rejects satisfies the constraints of its section |
| `Config.DefaultsAreValid` | packages/worker-manager/src/validation.ts:254-288 | The defaults pass their own validation |
| `Config.DefaultsAre` | packages/worker-manager/src/validation.ts:254-288 | The defaults, each by its value |
| `Config.ResolvesFieldByField` | packages/worker-manager/src/validation.ts:364-398 | Each option given is taken, and each left out is its default, independently of the others |
| `Config.BlameIsTrue` | packages/worker-manager/src/validation.ts:113-248 | The option a rejection is blamed on breaks its own constraint |

## Left out

- Real effects: cluster, IPC, signals, sockets, process exit codes, the empty-fleet hold, readiness, logging, process
  warnings and event dispatch; exits and forks are events, signals and announcements are history.
- The exit code and signal kept in a queue entry, and the recycle reasons: they only reach log lines and events.
- The gap between a process dying and its exit event: a worker counts as dead from its exit event on.
- The length of the backoff wait in the fleet model: the environment may end it at any time, which only adds runs; the
  wait itself is in `BackoffClosedForm`.
- The 30 s steps between staggered recycles and the 60 s sweep interval: the environment chooses when they fire.
- The atomicity of several roll turns in a row (skipped workers, failed forks): each is a step of its own, which only
  adds interleavings; the runs of `FleetWitnesses.dfy` keep to interleavings the program has and let time pass over
  their waits.
- Exceptions thrown by kill, send or disconnect, except a failing shutdown message: a failed kill would not be counted
  in `forcedKills`.
- Config.AcceptedIffValid: the options that play no part in the bounds (env, execArgv patterns, messagePrefix, logger,
  cluster module, unknown keys), NaN, infinities and fractional milliseconds are not modelled.
- Supervisor.Orchestrator.constructor: a start whose initial forks throw never gets a running fleet; `ForkWorkers`
  covers the throw.
- Shutdown callbacks, plugin uninstall and the forced-exit timer after the worker sequence.
- Worker-side reporting and the `pid` and heap fields of a report.
- The watcher's start delay, chokidar events and environment polling: a change is an event; whether `restartWorkers`
  then ignores the call because a roll is running is the callee's affair.
- Which watchers are attached: a change may arrive at any time, also during and after a teardown, which only adds runs.
- Sizing.CalculateSizing: arithmetic is over the reals, so rounding of doubles is not modelled; `mergeNodeOptions`,
  the cgroup readers and platform probing are left out.
- EnvParser.ParseEnvFile: characters are Unicode scalar values where the program has UTF-16 units, and a file is its
  decoded text.
- FleetHealth.AnnouncementsAlternate: the active count a degraded event carries is not modelled; it is read when the
  timer fires and may have risen with a fork since the last recompute.
- The metrics plugins, `worker-context.ts`, signal-triggered restarts, examples and tooling: wiring without state of
  their own that the properties need.
