# A verified model of the durable workflow engine

The engine (`packages/adonis/src`) runs workflow bodies that survive crashes by replaying them from
recorded history. This project models the parts on which that rests and proves what they are for. The
main results are about every body, every schedule of steps and every reachable state; where the code does
not keep a promise on all of them, the exact condition under which it does is part of the result.

| file | what it models |
|---|---|
| `Common.dfy`, `Admissions.dfy` | values, text helpers; what a caller asks an admission gate |
| `WorkflowTurn.dfy` | one turn of a remotely driven workflow: the imperative `TurnContext` against its specification |
| `RemoteRun.dfy` | the engine side: history from checkpoints, commands to checkpoints, and the runs of the whole system, in which anything may arrive between two commands of a turn |
| `ReplayTheorem.dfy` | chopping a run into turns does not change its meaning; nothing is dispatched twice; what a cut dispatch costs |
| `ReplayWorld.dfy` | what a run asks of the world and what the world tells it, read off the steps of the run |
| `ReplayProgress.dfy` | the run every fair schedule dictates settles, and which runs can still settle |
| `ReplaySignals.dfy` | how many signals one name may receive before replay loses its meaning |
| `ReplayLimits.dfy` | the shape of reachable states, and the exact conditions under which the replay promises fail |
| `SignalRendezvous.dfy` | signals and waits racing over one token, one store call at a time |
| `EventRendezvous.dfy` | publishers and filtered waiters of one event name |
| `EventDelivery.dfy` | what becomes of every event: who receives it, what is recorded for it, which wait is left |
| `QueueGate.dfy`, `QueueProperties.dfy` | the in-process admission controller and its run properties |
| `RedisGate.dfy`, `RedisProperties.dfy` | the Redis admission script under crashes, lapsing keys and callers' clocks |
| `GateRefinement.dfy` | the two gates answer alike |
| `WorkflowCtx.dfy`, `CtxReplay.dfy` | the in-process context and its replay |
| `CtxWorld.dfy` | what an in-process run gives its body, and how it ends, read off its events and logs |
| `PatchedUpgrade.dfy` | changing code under a running history with `patched` |
| `Saga.dfy` | the unwind of a failed run |
| `RemoteRetry.dfy` | the durable remote step: retries, backoff, re-dispatch |
| `Entities.dfy` | durable keyed entities |
| `SingletonGate.dfy` | per-key serialization of singleton workflows |
| `Schedules.dfy` | fixed-interval schedules |
| `EventTokens.dfy` | the tokens of event waiters |

Objects whose methods update fields in the source are classes here; each method is proved equal to a
specification function of the old state, and the theorems are about those functions. Protocols are state
machines in which one step is one atomic store call. The values that travel through a run are pinned by
accounts kept beside it, of what was sent, claimed, reported or given, which are written without the model's own
history, checkpoint and step functions. A workflow body is a well-founded tree: after an
operation, its future is a function of the outcome it saw. What the world returns (results of steps,
clocks, message order, which process moves next) is a parameter or a step of the environment.

## Where the code and its own description differ

Each of these is proved, with the exact condition under which the promise does hold.

- A `failFast` fan-out of two or more members reports whichever failure was on record when the turn ran, so a
  later replay can report another (`ReplayLimits.FanOutFixedIffOrderFree`), and a run can settle with a decision
  that is not that of an uninterrupted pass over its record (`ReplayLimits.FailFastRunDrifts`). A body that
  catches the error and branches on it can then trip the nondeterminism guard
  (`ReplayLimits.CaughtDriftFailsTheRun`).
- A turn that began before its signal landed registers the wait again, and nothing looks whether its position is on
  record. A second signal of that name then overwrites the first, and the run can trip the guard
  (`ReplaySignals.SecondSignalFailsTheRun`). With at most one signal a name that cannot happen
  (`ReplaySignals.MeaningHoldsIffOneSignal`), nor in any run in which no signal takes such a row
  (`ReplayTheorem.ReplayPreservesMeaning`).
- A call's checkpoint is saved before its job is dispatched, and a call on record is never dispatched again. A
  process that dies between the two therefore stalls its run for good; nothing else does
  (`ReplayProgress.CanSettleIffNothingLost`, `ReplayProgress.CutCallIsLost`).
- A signal whose name starts with `child:` is read back as a child's completion and trips the nondeterminism
  guard (`ReplayLimits.SignalTripsIffChildNamed`); a failed result without an error replays as a success
  (`ReplayLimits.FailedStepFailsRunIffErrorGiven`).
- Delivering at most once holds for one signal per wait. Two signals racing one wait, one taken directly and
  one from the buffer, both write its checkpoint (`SignalRendezvous.WritesOnceIffOneSignal`).
- `webhook().wait()` registers without looking at the buffer, so a callback whose call has returned before the
  first registration is stranded, and no later drive of the wait finds it
  (`SignalRendezvous.HookDeliveredIffRegisteredInTime`, `SignalRendezvous.CallbackBeforeWait`).
- An event that hits a listed waiter live is counted as received even if that waiter has gone by the time it is
  signalled: it is then left under the waiter's token (`EventRendezvous.StrandedIffRowGone`,
  `EventRendezvous.StrandedByDeadline`). A scan stops at 50 buffered events, so a waiter can park beside one it
  accepts (`EventRendezvous.MatchHoldsIffWithinScan`).
- The rate limit is per fixed window: a sliding window of the same length can hold twice as much, and does
  (`QueueProperties.RateBound`, `QueueProperties.RateBoundIsReached`).
- The in-process controller never expires a waiter, so an abandoned one of high priority blocks lower ones for
  ever, an idle gate included (`QueueProperties.AbandonedStarvesIdleGate`); the Redis gate prunes it.
- The counter of a Redis rate window expires by the server's clock while the window is named by the caller's. Two
  callers whose clocks differ by 2 ms can reopen a window that is spent
  (`RedisProperties.WindowCapIffClocksAgree`).
- The Redis gate reads a concurrency or a rate limit of zero as no limit, the in-process one as closed
  (`RedisProperties.SettingsAgreeIff`); calls without an id in one millisecond share a Redis slot
  (`RedisProperties.SlotAddedIffNameFree`).
- A waiter of the Redis gate that keeps retrying can still lose its place: a call denied for rate does not refresh
  its expiry (`RedisProperties.PlaceAfterDenial`).
- `patched` deployed at the position where an old run is parked answers true and, once the run's own waiter has
  been delivered to, false (`PatchedUpgrade.AnswerFlipsIffParkedAtGuard`, `PatchedUpgrade.DeployedRunFlips`).
- The retry deadline of a failed remote step is not always its backoff: with re-dispatch on, a deadline stamped
  while the step was pending survives the failure and replaces it (`RemoteRetry.BackoffHonouredIff`).
- Singleton admission is first in, first out only for runs that enter flight in creation order
  (`SingletonGate.OverflowIffOutOfOrder`, `SingletonGate.LateEntryOverflows`).

## Model

| member | source | states |
|---|---|---|
| `WorkflowTurn.TurnContext.Next` | packages/adonis/src/workflow-turn.ts:224-229 | hands out the next position and moves past it |
| `WorkflowTurn.TurnContext.AwaitOne` | packages/adonis/src/workflow-turn.ts:232-269 | a single-position operation returns what is on record there, or emits exactly its own command and stops, or trips the guard |
| `WorkflowTurn.TurnContext.SleepOp` | packages/adonis/src/workflow-turn.ts:271-277 | a timer on record returns nothing to the body; otherwise the timer command is emitted |
| `WorkflowTurn.TurnContext.LocalStep` | packages/adonis/src/workflow-turn.ts:398-446 | a capture is run and recorded only where none is on record, and replays to the recorded outcome |
| `WorkflowTurn.TurnContext.GatherOp` | packages/adonis/src/workflow-turn.ts:319-396 | a fan-out reserves its block first, re-emits only unresolved members, and settles to its meaning or, failing fast, to a recorded failure; `FanOutAsksForTheMissing` says what it emits |
| `WorkflowTurn.TurnContext.Aggregate` | packages/adonis/src/workflow-turn.ts:301-317 | a resolved block settles to what its recorded events mean: every output, or one error naming the failures |
| `WorkflowTurn.TurnContext.Perform` | packages/adonis/src/workflow-turn.ts:262-446 | every operation takes its width in positions and has the result and commands of its specification |
| `WorkflowTurn.FailFastFindsFailure` | packages/adonis/src/workflow-turn.ts:330-338 | whenever some member already failed, the fail-fast scan reports a failure |
| `WorkflowTurn.FanOutAsksForTheMissing` | packages/adonis/src/workflow-turn.ts:345-392 | a fan-out that waits asks, in list order, for exactly the members not on record, each with its own name and input at its own position, as one group |
| `WorkflowTurn.NamesJoinInOrder` | packages/adonis/src/workflow-turn.ts:55-62 | the aggregate error names the failed members in order, separated by commas |
| `WorkflowTurn.RunWorkflowTurn` | packages/adonis/src/workflow-turn.ts:463-494 | the turn loop computes the decision and commands of the recursive turn, and a missing workflow fails |
| `RemoteRun.RunStore.ApplyCommands` | packages/adonis/src/engine.ts:2482-2656 | applying a turn in place equals applying its commands one by one, and the wake time is that of its timers |
| `RemoteRun.WakeAtIsEarliest` | packages/adonis/src/engine.ts:2575-2591 | the wake time is the deadline of some timer of the turn and none is due before it |
| `ReplayTheorem.ResolvedReplays` | packages/adonis/src/workflow-turn.ts:232-251 | over the run's own history a resolved operation replays to its reference meaning and emits nothing |
| `ReplayTheorem.CommandApplies` | packages/adonis/src/engine.ts:2482-2656 | applying the next command of an open turn keeps the invariant, whatever arrived since the turn read its history or applied the command before |
| `ReplayTheorem.TurnApplies` | packages/adonis/src/engine.ts:2346-2435 | applying all commands of a turn keeps it too, and settles the captures the turn made |
| `ReplayTheorem.CrashKeepsInv` | packages/adonis/src/engine.ts:2535-2567 | so does dying after any command of a turn, or between the writes of the next one |
| `ReplayTheorem.TurnBegins` | packages/adonis/src/workflow-turn.ts:463-494 | over the run's own history a turn never trips the guard: its captures and commands are those the body comes to |
| `ReplayTheorem.FinishDecides` | packages/adonis/src/workflow-turn.ts:463-494 | a turn with nothing left to apply parks, or has the decision its history leads to |
| `ReplayTheorem.StepKeepsInv` | packages/adonis/src/engine.ts:2346-2435 | every step of the driver, dying part way through a turn included, and of the environment keeps "resolved prefix plus part of one block", but for a signal that takes a row whose position is on record |
| `ReplayTheorem.ReplayPreservesMeaning` | packages/adonis/src/workflow-turn.ts:198-494 | for every replayable body, every chopping into turns and every order of results in which no signal takes a row whose position is on record, a settled run has the decision of one uninterrupted pass over its record, and no run fails by the guard; `ReplayWorld.SettledAsTold` says what the record holds |
| `ReplayTheorem.DispatchedOnceUnlessLost` | packages/adonis/src/engine.ts:2521-2574 | over all turns of such a run, no call is dispatched twice and no capture recorded twice, and each call on record is dispatched unless a process died between its save and its dispatch |
| `ReplayWorld.CommandsAreWhatTheBodyAsks` | packages/adonis/src/engine.ts:2482-2656 | over every run, each command about to be applied is the call, child, delay, signal or capture, with name and input, that the body has at that position |
| `ReplayWorld.JobsAreWhatTheBodyAsks` | packages/adonis/src/engine.ts:2548-2651 | over every run, every job dispatched and every child started has the name and input the body has at its position |
| `ReplayWorld.HistoryIsWhatWasHeard` | packages/adonis/src/engine.ts:2438-2478 | over every run, what the next turn reads is exactly what the world reported, value and error, and the timers set at least their delay ago |
| `ReplayWorld.SettledAsTold` | packages/adonis/src/engine.ts:2346-2478 | over every run, a settled run has the decision of one pass in which each call, child, signal and capture is answered at once with what the world said of it: the result that landed, the payload sent or the oldest one queued, the child's value or its error, the captured value |
| `ReplayWorld.EveryScheduleSettlesAsTold` | packages/adonis/src/engine.ts:2346-2435 | the run a fair schedule dictates settles with the decision the world's reports call for |
| `ReplayTheorem.NothingLostIffNoCallCut` | packages/adonis/src/engine.ts:2535-2567 | over any run at all, a call is lost exactly when some process dies between saving it and dispatching it |
| `ReplayTheorem.LostCallStalls` | packages/adonis/src/engine.ts:2521-2530 | once a call is lost the run never settles, unless a signal takes a row whose position is on record |
| `ReplayProgress.FrontierAdvances` | packages/adonis/src/workflow-turn.ts:463-494 | more history leaves the first unresolved operation where it is or moves it into a proper part of the body |
| `ReplayProgress.OneTurn` | packages/adonis/src/engine.ts:2346-2435 | after an undisturbed turn that parks, every open position is resolved or one the environment can still resolve, its call dispatched, its timer set, or its row registered and its child started |
| `ReplayProgress.EveryScheduleSettles` | packages/adonis/src/engine.ts:2346-2435 | the run a fair schedule dictates reaches a decision after finitely many rounds, and it is that of one uninterrupted pass; its noise may be anything that cuts no call and takes no row whose position is on record |
| `ReplayProgress.CanSettleIffNothingLost` | packages/adonis/src/engine.ts:2535-2567 | a run at rest can still settle exactly when no call of it is lost, that is, when no process died between saving a call and dispatching it |
| `ReplayProgress.CutCallIsLost` | packages/adonis/src/engine.ts:2535-2567 | dying after the first write of a body's first call loses that call |
| `ReplayLimits.ReachableShape` | packages/adonis/src/engine.ts:2438-2478 | in every state reached without a signal taking a row whose position is on record, the history is a full prefix and a part of one block |
| `ReplayLimits.FailuresInOrder` | packages/adonis/src/workflow-turn.ts:301-317 | the failures reported are exactly the failed members, once each, in list order |
| `ReplayLimits.GatherInInputOrder` | packages/adonis/src/workflow-turn.ts:359-362 | a resolved wait-all fan-out returns each member's output at the member's index, or one error with all failures |
| `ReplayLimits.FanOutFixedIffOrderFree` | packages/adonis/src/workflow-turn.ts:330-338 | the outcome is independent of the order of arrival exactly for wait-all fan-outs and those of at most one member |
| `ReplayLimits.FailFastDrifts` | packages/adonis/src/workflow-turn.ts:330-338 | every fail-fast fan-out of two or more members has two histories, one extending the other, with different errors |
| `ReplayLimits.FailFastRunDrifts` | packages/adonis/src/workflow-turn.ts:330-338 | a whole run whose decision is not that of an uninterrupted pass over its record: the second failure lands while the turn that read the first is open |
| `ReplayLimits.CaughtDriftFailsTheRun` | packages/adonis/src/workflow-turn.ts:330-338 | a whole run of a body that catches the error and branches on it, which ends by the guard |
| `ReplayLimits.SignalTripsIffChildNamed` | packages/adonis/src/engine.ts:2449-2462 | a delivered signal trips the guard of its own wait exactly when its name starts with `child:` |
| `ReplayLimits.ChildNamedSignalFailsTheRun` | packages/adonis/src/engine.ts:2592-2626 | a whole run from its start on which that happens |
| `ReplaySignals.RowGoesStale` | packages/adonis/src/engine.ts:2592-2626 | a whole run after which the row of a wait points at its recorded position |
| `ReplaySignals.SecondSignalFailsTheRun` | packages/adonis/src/engine.ts:1713-1745 | a whole run of two signals of one name that ends by the guard |
| `ReplaySignals.OneSignalIsNeverStale` | packages/adonis/src/engine.ts:1743-1762 | while no name is signalled a second time, no signal takes a row whose position is on record |
| `ReplaySignals.MeaningHoldsIffOneSignal` | packages/adonis/src/engine.ts:1713-1745 | that every run which signals no name more than n times keeps the meaning and never trips the guard holds exactly for n at most 1 |
| `ReplayLimits.FailedStepFailsRunIffErrorGiven` | packages/adonis/src/engine.ts:2463-2471 | a whole run of one step reported as failed fails exactly when the report carries an error, and otherwise completes |
| `SignalRendezvous.NeverBothAtRest` | packages/adonis/src/engine.ts:1743-1762 | with any number of runs, waits, re-drives and signals, a registered waiter and a buffered payload never rest together |
| `SignalRendezvous.ExactlyOnePlace` | packages/adonis/src/engine.ts:1713-1762 | every payload sent is at all times in exactly one place: in hand, buffered, or written once |
| `SignalRendezvous.RowGoesToSignalOrOwner` | packages/adonis/src/workflow-ctx.ts:433-461 | a registered row goes only to a signal, to its own wait or deadline, or to a wait that registers after it |
| `SignalRendezvous.AnsweredWaitReturns` | packages/adonis/src/workflow-ctx.ts:433-440 | a wait that has its checkpoint returns when driven again and neither takes nor registers anything |
| `SignalRendezvous.NoLostWake` | packages/adonis/src/workflow-ctx.ts:433-461 | with one wait and any number of signals, a wait parked without a result is still registered and nothing is buffered |
| `SignalRendezvous.SingleSignalDelivered` | packages/adonis/src/workflow-ctx.ts:433-461 | a single signal is recorded once at the wait and leaves neither a row nor a copy |
| `SignalRendezvous.TwoSignalsOverwrite` | packages/adonis/src/workflow-ctx.ts:452-459 | a schedule of two signals in which one wait's checkpoint is written twice |
| `SignalRendezvous.WritesOnceIffOneSignal` | packages/adonis/src/engine.ts:1731-1762 | a wait is written at most once in every schedule exactly when at most one signal is sent |
| `SignalRendezvous.HookDeliveredIffRegisteredInTime` | packages/adonis/src/workflow-ctx.ts:821-847 | over every run of one callback and any number of drives of one webhook wait, the callback is recorded exactly when some drive registered before its call returned; otherwise row and payload rest beside each other |
| `SignalRendezvous.CallbackBeforeWait` | packages/adonis/src/workflow-ctx.ts:824-837 | a whole run on which that happens |
| `EventRendezvous.NoMissedMatch` | packages/adonis/src/engine.ts:1648-1706 | with a backlog within one scan, once every call has returned no registered waiter accepts a buffered event |
| `EventRendezvous.ClaimedAtMostOnce` | packages/adonis/src/workflow-ctx.ts:379-404 | no buffered copy is ever claimed twice, by waiters or publishers; `EventDelivery.CopyRecordedOnce` says what becomes of it |
| `EventRendezvous.MatchHoldsIffWithinScan` | packages/adonis/src/events.ts:10-17 | that no run leaves a registered waiter beside a buffered event it accepts holds for backlogs of at most n exactly when n is at most 50 |
| `EventRendezvous.HiddenBehindBacklog` | packages/adonis/src/workflow-ctx.ts:385-404 | a whole run of 51 publishers and one waiter that parks beside the event it accepts |
| `EventRendezvous.HitRecordedOrStranded` | packages/adonis/src/engine.ts:1653-1660 | over every run, an event counted as received is recorded or left under the waiter's token, and left there only if the waiter's row had gone between the listing and the take |
| `EventRendezvous.StrandedIffRowGone` | packages/adonis/src/engine.ts:1653-1660 | if no wait is driven twice, it is left there exactly when the row had gone |
| `EventRendezvous.StrandedByDeadline` | packages/adonis/src/engine.ts:1653-1660 | a whole run on which a deadline strands an event |
| `EventDelivery.ReceivedByAllWhoAccept` | packages/adonis/src/engine.ts:1653-1660 | once every call has returned, an event was received by exactly the listed waiters that accept it |
| `EventDelivery.KeptIffNobodyReceived` | packages/adonis/src/engine.ts:1682-1687 | an event is in the end buffered or claimed, and not both, exactly when it was published to be kept and no waiter received it |
| `EventDelivery.EveryCopyInOnePlace` | packages/adonis/src/workflow-ctx.ts:379-404 | over every run each event received live, and each buffered copy claimed, is in exactly one place: in hand, under the waiter's token, written once, or dropped |
| `EventDelivery.CopyRecordedOnce` | packages/adonis/src/engine.ts:1688-1706 | once every call has returned, a claimed event is written once or was dropped once, and one received live is written once or lies once under the token |
| `EventDelivery.OnlyAcceptedRecorded` | packages/adonis/src/workflow-ctx.ts:385-404 | over every run a wait is only ever given an event its criteria accept |
| `EventDelivery.CheckpointIsLastWrite` | packages/adonis/src/engine.ts:1708-1745 | over every run a wait has a checkpoint exactly when an event was written for it, and it holds the last one |
| `EventDelivery.WaiterKeptOrAnswered` | packages/adonis/src/engine.ts:1743-1762 | unless its deadline passes, a wait that was begun is in the end registered or answered, and answered if a claimed event was dropped for it |
| `EventDelivery.AnsweredRowGone` | packages/adonis/src/workflow-ctx.ts:388-401 | if no wait is driven twice, no wait is ever registered and answered at once |
| `EventDelivery.AnsweredWaitReturns` | packages/adonis/src/workflow-ctx.ts:433-440 | a wait that has its checkpoint returns when driven again and registers nothing |
| `EventDelivery.LateWaiterIsFirst` | packages/adonis/src/engine.ts:1691-1693 | the publisher's second look pairs its event with the first listed waiter that accepts it |
| `EventDelivery.OldestStrayTaken` | packages/adonis/src/engine.ts:1753-1761 | what is taken from under a token is the oldest payload there, and nothing else |
| `QueueGate.BetterIsStrictTotal` | packages/adonis/src/queue.ts:185-199 | on the waiters of any reachable controller the order is total, asymmetric and transitive |
| `QueueGate.QueueController.Register` | packages/adonis/src/queue.ts:152-164 | a known waiter keeps its arrival and takes the new hints; a new one is stamped last |
| `QueueGate.QueueController.IsNext` | packages/adonis/src/queue.ts:173-182 | the scan for the best, in any iteration order, keeps the caller exactly when nobody registered is better |
| `QueueGate.QueueController.TryAdmit` | packages/adonis/src/queue.ts:104-144 | the whole new state and answer of an attempt, with the choice stated as "nobody registered is better" |
| `QueueGate.RunKeepsValid` | packages/adonis/src/queue.ts:74-164 | over every run arrival stamps stay distinct and no key is ahead of the served counter |
| `QueueProperties.CapHolds` | packages/adonis/src/queue.ts:119-140 | over every run the work in flight never exceeds the concurrency |
| `QueueProperties.InFlightConserved` | packages/adonis/src/queue.ts:138-149 | over a run that releases only what it took, work in flight is what was admitted and not yet released |
| `QueueProperties.RateBound` | packages/adonis/src/queue.ts:108-116 | over every run of a forward clock any half-open interval of one period holds at most twice the limit |
| `QueueProperties.RateBoundIsReached` | packages/adonis/src/queue.ts:108-116 | for every limit, every period of at least 2 ms and every time of the first call some run reaches twice the limit |
| `QueueProperties.RetryAtFutureIffPositive` | packages/adonis/src/queue.ts:104-136 | every denial of every run names a strictly later time exactly for a checkable class of configurations |
| `QueueProperties.DenialNamesItsTime` | packages/adonis/src/queue.ts:104-136 | a denial for the rate names the end of the window, before which every call is so denied and from which none is if the limit is positive; any other names the retry interval from now |
| `QueueProperties.AdmittedIffBest` | packages/adonis/src/queue.ts:128-144 | with a slot and budget free, an identified call is admitted exactly when no other waiter is better than it |
| `QueueProperties.ExactlyOneNext` | packages/adonis/src/queue.ts:128-144 | with a slot and budget free, exactly one registered waiter would be admitted on its retry |
| `QueueProperties.NotOvertaken` | packages/adonis/src/queue.ts:152-193 | without fairness or LIFO, over any run a later caller of no higher priority is not admitted before an earlier waiter |
| `QueueProperties.AbandonedBlocksForever` | packages/adonis/src/queue.ts:128-136 | a waiter that never calls again shuts out every ordered call of lower priority, over any run |
| `QueueProperties.AbandonedStarvesIdleGate` | packages/adonis/src/queue.ts:128-149 | a run from the start reaches such a state with no work in flight, and stays shut |
| `QueueProperties.KeyNotServedTwice` | packages/adonis/src/queue.ts:185-199 | with fairness, a served key is not served again while a waiter of another, since unserved key of at least its priority is registered |
| `RedisGate.RedisAdmissionBackend.ReclaimSlots` | packages/adonis/src/admission-redis/redis-admission-backend.ts:64-70 | exactly the slots of dead owners go, and the count is of those left |
| `RedisGate.RedisAdmissionBackend.PruneWaiters` | packages/adonis/src/admission-redis/redis-admission-backend.ts:72-76 | exactly the waiters whose place has expired leave all three tables |
| `RedisGate.RedisAdmissionBackend.Register` | packages/adonis/src/admission-redis/redis-admission-backend.ts:83-90 | a listed waiter keeps its stamp and key and gets a fresh expiry; a new one is stamped last |
| `RedisGate.RedisAdmissionBackend.Best` | packages/adonis/src/admission-redis/redis-admission-backend.ts:99-119 | the scan of the top tier finds the waiter that precedes every other waiter |
| `RedisGate.RedisAdmissionBackend.TryAdmit` | packages/adonis/src/admission-redis/redis-admission-backend.ts:53-131 | the whole new store and answer of the script, expiry of the rate counter included, with the choice stated as "no other waiter precedes it" |
| `RedisGate.AcquireKeepsValid` | packages/adonis/src/admission-redis/redis-admission-backend.ts:53-131 | the three waiter tables always list the same waiters, with distinct stamps |
| `RedisProperties.SlotsWithinCap` | packages/adonis/src/admission-redis/redis-admission-backend.ts:61-95 | over any acquires, releases, heartbeats and lapses the slots never exceed the concurrency |
| `RedisProperties.DeadSlotsDropped` | packages/adonis/src/admission-redis/redis-admission-backend.ts:64-70 | after any acquire every slot left belongs to a live instance |
| `RedisProperties.SlotAddedIffNameFree` | packages/adonis/src/admission-redis/redis-admission-backend.ts:124 | an admitted acquire takes one more slot exactly when its name holds none |
| `RedisProperties.AdmittedPerRestart` | packages/adonis/src/admission-redis/redis-admission-backend.ts:78-81 | over every run a window admits at most the limit once, and once more for each time its lapsed counter starts over |
| `RedisProperties.WindowCap` | packages/adonis/src/admission-redis/redis-admission-backend.ts:78-81 | no rate window admits more than the limit unless a caller asks for one whose counter has lapsed |
| `RedisProperties.WindowCapIffClocksAgree` | packages/adonis/src/admission-redis/redis-admission-backend.ts:129 | for callers ahead of the server by `lo` to `hi` ms, every run of a server started however late keeps every window within the limit exactly when `hi - lo` is at most 1 |
| `RedisProperties.LateCallOverAdmits` | packages/adonis/src/admission-redis/redis-admission-backend.ts:129 | the failing run: a window filled to its limit, and one more caller 2 ms slower a period later |
| `RedisProperties.AdmittedIffNoFreshBefore` | packages/adonis/src/admission-redis/redis-admission-backend.ts:97-121 | with a slot and budget free an ordered call is admitted exactly when no unexpired waiter comes before it |
| `RedisProperties.PlaceAfterDenial` | packages/adonis/src/admission-redis/redis-admission-backend.ts:72-95 | a denied call is listed for a full TTL, except that one denied for rate keeps at most the place it had |
| `RedisProperties.DenialTakesNothing` | packages/adonis/src/admission-redis/redis-admission-backend.ts:53-131 | a denied call is told to come back after the retry interval and takes nothing: live slots, counters and served keys stay, and of the other waiters exactly the expired go |
| `RedisProperties.BestRemainingAdmitted` | packages/adonis/src/admission-redis/redis-admission-backend.ts:72-121 | however a run went on without it, once an abandoned waiter's TTL is over the best of the others is admitted |
| `RedisProperties.SettingsAgreeIff` | packages/adonis/src/admission-redis/redis-admission-backend.ts:78-95 | the two gates answer every first call alike exactly when concurrency and rate limit are absent or at least 1; otherwise the in-process one admits nobody, ever |
| `GateRefinement.OrdersAgree` | packages/adonis/src/admission-redis/redis-admission-backend.ts:97-121 | on related waiters the script's order is the controller's order |
| `GateRefinement.AskSimulates` | packages/adonis/src/admission-redis/redis-admission-backend.ts:53-131 | one acquire gets the same answer from both gates and keeps them related |
| `GateRefinement.GatesAgree` | packages/adonis/src/queue.ts:104-149 | on every run in scope the two gates give the same answers, from empty |
| `GateRefinement.FirstCallInScope` | packages/adonis/src/queue.ts:104-149 | the scope of the comparison contains every first call and its release |
| `WorkflowCtx.Context.ReadCheckpoint` | packages/adonis/src/workflow-ctx.ts:191-195 | a read through the per-pass snapshot is a read of the store |
| `WorkflowCtx.Context.WriteCheckpoint` | packages/adonis/src/workflow-ctx.ts:199-202 | store and snapshot stay in step |
| `WorkflowCtx.Context.CallRemote` | packages/adonis/src/engine.ts:3091-3250 | a step returns its recorded outcome, or is recorded as dispatched and suspends; a completed one registers its undo |
| `WorkflowCtx.Context.RunLocalStep` | packages/adonis/src/workflow-ctx.ts:208-290 | a completed step returns its record and registers its undo on every replay; otherwise it runs and is recorded; `CtxWorld.OutcomeIsWhatWasGiven` ties the outcome to what was produced |
| `WorkflowCtx.Context.SuspendUntil` | packages/adonis/src/workflow-ctx.ts:320-334 | a timer is recorded once and returns when due |
| `WorkflowCtx.Context.WaitForSignal` | packages/adonis/src/workflow-ctx.ts:433-461 | a recorded payload is returned, a buffered one recorded, otherwise a waiter is registered at this position |
| `WorkflowCtx.Context.MintWebhook` | packages/adonis/src/workflow-ctx.ts:821-823 | minting takes a position and writes nothing |
| `WorkflowCtx.Context.WaitForWebhook` | packages/adonis/src/workflow-ctx.ts:824-837 | the wait reads and registers at the minted position and takes none of its own |
| `WorkflowCtx.Context.IsPatched` | packages/adonis/src/workflow-ctx.ts:776-792 | a marker answers true, another recorded operation answers false and gives the position back, nothing is answered true and marked |
| `WorkflowCtx.Context.PublishEvent` | packages/adonis/src/workflow-ctx.ts:801-812 | an event is published once at its position |
| `WorkflowCtx.Context.DoOp` | packages/adonis/src/workflow-ctx.ts:208-847 | every primitive leaves the journal, waiters, compensations and position its specification says |
| `CtxReplay.RecordedIsPerformed` | packages/adonis/src/workflow-ctx.ts:191-195 | what the journal settles is returned with no write and no waiter |
| `CtxReplay.WalkGrows` | packages/adonis/src/workflow-ctx.ts:154-163 | the settled prefix of a body over a later journal extends the earlier one, positions and outcomes alike |
| `CtxReplay.PassIsGood` | packages/adonis/src/engine.ts:2693-2713 | a pass over its body's own journal only adds to it, sees exactly its settled prefix, and never trips the guard |
| `CtxReplay.ReplayStable` | packages/adonis/src/workflow-ctx.ts:154-163 | over any run of passes, completions and deliveries, a later pass repeats every earlier one, position by position, and goes on |
| `CtxReplay.OwnHistoryReplays` | packages/adonis/src/workflow-ctx.ts:208-847 | a run of one body never trips the guard, and all its last pass was given stands in the journal at its position under its own name; `patched` always answers true |
| `CtxReplay.FinishedRunSawAll` | packages/adonis/src/workflow-ctx.ts:154-163 | when a run of one body is over, its last pass has read every settled entry of the journal |
| `CtxWorld.OutcomeIsWhatWasGiven` | packages/adonis/src/workflow-ctx.ts:208-330 | over every run, what the body gets from a step, a local step or a wait is what that position was given first: the completion, the value produced in the pass that ran it, the payload found buffered, or the one delivered |
| `CtxWorld.LogIsPathOfBody` | packages/adonis/src/workflow-ctx.ts:154-195 | over every run, the last pass performed the body's own operations in order, each on the outcome before it and at its own position, counted without the model's positions |
| `CtxWorld.PassEndsAsBody` | packages/adonis/src/engine.ts:2693-2785 | a pass ends with the body's output or error, with the local step that threw in it, or waiting at the body's next operation, dispatched or registered for it and not given yet |
| `PatchedUpgrade.BackedDoesOldWork` | packages/adonis/src/workflow-ctx.ts:772-792 | where recorded operations back every guard, new code leaves the old code's journal, result, compensations and log |
| `PatchedUpgrade.TransparentIffBacked` | packages/adonis/src/workflow-ctx.ts:772-792 | over any history without markers new code does the old work at the old positions if and only if every guard on the old code's way sits on a recorded position |
| `PatchedUpgrade.AnswerFollowsDelivery` | packages/adonis/src/workflow-ctx.ts:776-792 | new code deployed on a parked run of the old code: over every later run a pass repeats the work up to the first guard that answered true and its answer, unless a delivery hit the guard's position, which turns it false |
| `PatchedUpgrade.AnswerFlipsIffParkedAtGuard` | packages/adonis/src/workflow-ctx.ts:776-792 | some later pass changes that answer exactly when the old code's waiter sits at the guard's position |
| `PatchedUpgrade.DeployedRunFlips` | packages/adonis/src/workflow-ctx.ts:776-792 | a whole run on which it does |
| `Saga.Unwinder.RunCompensation` | packages/adonis/src/engine.ts:2794-2827 | a compensation is attempted up to the bound and no further than its first success |
| `Saga.Unwinder.Unwind` | packages/adonis/src/engine.ts:2770-2778 | the unwind loop does all compensations, last registered first |
| `Saga.AttemptsStopAtSuccess` | packages/adonis/src/engine.ts:2796-2826 | attempts are numbered from one, all but the last fail, and the last succeeds or is the bound |
| `Saga.UnwindReversesCompletion` | packages/adonis/src/engine.ts:2774-2778 | every compensation is attempted, in exactly the reverse of the order of completion |
| `Saga.EachAttemptedWithinRetries` | packages/adonis/src/engine.ts:2796-2826 | each compensation is attempted at least once and at most max(1, `compensationRetries`) times |
| `Saga.FailedRunUndoesItsSteps` | packages/adonis/src/engine.ts:2691-2785 | however a failed run was split, its unwind attempts every completed compensable step recorded in the journal, and nothing else, in the reverse of the order of their positions |
| `RemoteRetry.RemoteStep.CallRemote` | packages/adonis/src/engine.ts:3102-3250 | the whole new checkpoint, dispatch and answer of one replay reaching the step; `RepliesMatchAccount` says over a run what they are |
| `RemoteRetry.RemoteStep.CompleteRemoteResult` | packages/adonis/src/engine.ts:3289-3361 | a result settles only a pending step of a live run, or salvages a late success of a failed one |
| `RemoteRetry.DispatchesAreAttempts` | packages/adonis/src/engine.ts:3116-3250 | in every run dispatches equal recorded attempts, are numbered in order, and stay within the larger budget |
| `RemoteRetry.OutputIsFinal` | packages/adonis/src/engine.ts:3108 | once an output is recorded nothing changes it and nothing more is sent |
| `RemoteRetry.RepliesMatchAccount` | packages/adonis/src/engine.ts:3108-3182 | over every run a replay answers the output of the success that landed and nothing else, fails exactly when the last attempt failed for good or max(1, `retries`) were sent, is lost exactly when the last attempt is past its deadline and max(1, `redispatchMax`, or 10) were sent, and sends another attempt exactly when there is cause |
| `RemoteRetry.CompletedForGood` | packages/adonis/src/engine.ts:3108 | once a success has landed every later replay answers its output, whatever else happens |
| `RemoteRetry.DelayShape` | packages/adonis/src/backoff.ts:5-11 | the delay is the base, doubled per attempt when exponential, or the cap, if it is not zero and less |
| `RemoteRetry.LostAfterDeadline` | packages/adonis/src/engine.ts:3124-3164 | in every run a job is re-dispatched no sooner than `remoteRedispatchMs` after the dispatch it replaces |
| `RemoteRetry.StaleDeadlineSkipsBackoff` | packages/adonis/src/engine.ts:3171-3182 | with re-dispatch on, every retried step with a backoff has a run that retries it with no delay at all |
| `RemoteRetry.BackoffHonouredIff` | packages/adonis/src/engine.ts:3171-3182 | all runs honour the backoff of every retry exactly when re-dispatch is off, or there is no retry, or no delay |
| `RemoteRetry.ExponentialSpacing` | packages/adonis/src/backoff.ts:5-11 | with re-dispatch off and uncapped exponential backoff, dispatch n comes at least backoffMs * (2^(n-1) - 1) after dispatch 1 |
| `Entities.CoveredStateIsFold` | packages/adonis/src/entities.ts:77-101 | wherever passes stopped, the published state is the fold of the handlers over the first n recorded messages, n being those published |
| `Entities.RecordsExplained` | packages/adonis/src/entities.ts:87-99 | every record holds what its handler did: the result and state of that message from the state before it, and a reply goes where that message asked with that result |
| `Entities.RepliedOnceWithOwnResult` | packages/adonis/src/entities.ts:84-99 | wherever passes stopped, the messages received are those taken, in order, and each before the last was replied to exactly once if it asked for it |
| `Entities.EntityRun.Checkpoint` | packages/adonis/src/entities.ts:84-99 | a position is read if recorded, else written within the budget, and it is the record the message list prescribes |
| `Entities.EntityRun.AwaitMessage` | packages/adonis/src/entities.ts:84 | a recorded message is read back; only at the end of the journal is a new one taken |
| `Entities.EntityRun.RunOp` | packages/adonis/src/entities.ts:87-99 | one operation reads or writes its step, event and reply and leads to the handler's state |
| `Entities.EntityRun.Drive` | packages/adonis/src/entities.ts:77-101 | a pass ended anywhere only extends the journal, records a prefix of its inbox in order, and leaves the published state equal to the fold |
| `SingletonGate.RankIsIndex` | packages/adonis/src/singleton-gate.ts:78 | in sorted order a run's index is the number of runs older than it |
| `SingletonGate.SortKeepsRanks` | packages/adonis/src/singleton-gate.ts:71-77 | sorting keeps the runs and everyone's rank, so the store's row order does not matter |
| `SingletonGate.RankCounts` | packages/adonis/src/singleton-gate.ts:71-77 | a run's rank is the number of listed runs with an earlier `createdAt`, or the same one and a smaller id |
| `SingletonGate.Admit` | packages/adonis/src/singleton-gate.ts:68-80 | a run is let on exactly when it is in flight with fewer than `limit` runs created before it, by the smaller id within a millisecond |
| `SingletonGate.WakeNext` | packages/adonis/src/singleton-gate.ts:88-109 | exactly the suspended runs with fewer than `limit` suspended ones created before them are woken, oldest first |
| `SingletonGate.AdmittedAreOldest` | packages/adonis/src/singleton-gate.ts:68-80 | if runs enter flight in order, at most `limit` unfinished runs are ever admitted, always among the oldest, and none is gated again |
| `SingletonGate.WakeReachesAdmissible` | packages/adonis/src/singleton-gate.ts:88-109 | in any state every suspended run the gate would now let on is among those woken, suspended admitted runs notwithstanding |
| `SingletonGate.OverflowIffOutOfOrder` | packages/adonis/src/singleton-gate.ts:68-80 | with every slot taken, an entering run is let on exactly when some admitted run is younger |
| `SingletonGate.LateEntryOverflows` | packages/adonis/src/singleton-gate.ts:68-80 | for every limit a run from the start on which one more is let on |
| `Schedules.RunIdsDistinct` | packages/adonis/src/scheduler.ts:75-77 | distinct pairs of key and bucket have distinct run ids, colons in keys included |
| `Schedules.Scheduler.RunIdsAt` | packages/adonis/src/scheduler.ts:119-142 | the ids are those of the consecutive buckets from the oldest caught up to the current one |
| `Schedules.Scheduler.StartIfNew` | packages/adonis/src/scheduler.ts:182-185 | a bucket with a run is not started again, any other is |
| `Schedules.Scheduler.FireSchedule` | packages/adonis/src/scheduler.ts:161-186 | a tick starts exactly the schedule's missing buckets in order, or nothing if paused or skipping |
| `Schedules.Scheduler.RunSchedules` | packages/adonis/src/scheduler.ts:151-189 | a tick fires the schedules one after another |
| `Schedules.TickStartsExactly` | packages/adonis/src/scheduler.ts:151-189 | a tick in window w starts exactly the windows from w - `maxCatchup` to w that have no run, and none if the schedule is paused or skips while the run of window w - 1 is in flight |
| `Schedules.TickOfMine` | packages/adonis/src/scheduler.ts:151-189 | among any schedules of distinct keys, a tick adds to a key the range of buckets above the last one fired, and nothing else |
| `Schedules.BucketsOnceInOrder` | packages/adonis/src/scheduler.ts:151-189 | over nondecreasing ticks every bucket is started at most once, in ascending order, and without gaps exactly when each firing tick reaches back to the last |
| `Schedules.CloseTicksReachBack` | packages/adonis/src/scheduler.ts:119-142 | ticks at most (maxCatchup + 1) * everyMs apart reach back, with neither pause nor skip |
| `EventTokens.RoundTrip` | packages/adonis/src/events.ts:7-8 | base64 decoding recovers every byte sequence |
| `EventTokens.NoColon` | packages/adonis/src/events.ts:1-8 | an encoded segment never contains the delimiter |
| `EventTokens.TokenRecovers` | packages/adonis/src/events.ts:34-60 | a token gives back its name and criteria whatever the run id contains |
| `EventTokens.TokensDistinct` | packages/adonis/src/events.ts:44-51 | no two calls share a token: it tells apart event, criteria, run and position |
| `EventTokens.PrefixIffName` | packages/adonis/src/events.ts:24-51 | a token starts with the prefix of a name exactly when it was made for that name |

## Left out

- Bodies that catch the engine's internal suspension, and cancellation: a body sees outcomes only.
- WorkflowTurn.TurnContext.Next: does not throw for a cancelled run, because cancellation is not modelled.
- WorkflowTurn.RunWorkflowTurn: has no cancelled decision, for the same reason.
- `pendingSignals` of a turn: the engine never passes any.
- Fail-fast fan-outs of two or more members and signals named `child:` in `ReplayPreservesMeaning`: excluded by `Replayable`, because the property is false of them, as proved in `ReplayLimits`.
- RemoteRun.RunStore.ApplyCommands: its second look at the signal buffer, after a wait is registered, is one step with the first; `SignalRendezvous` models the two.
- What lands on a cancelled or dead run: a result is refused by a completed run and salvaged, if a success, by a failed one.
- A call cut between its save and its dispatch can be sent again by an operator's explicit re-dispatch, which is not part of this model.
- The moment a timer of a remote run fires: a re-emitted sleep recomputes its deadline, so no fixed deadline is claimed.
- Starting a child twice: starts are idempotent by run id, so the model keeps the set of children started.
- Bounded waits, their timeouts and the races of `ctx.child` and `ctx.all`: outcomes are used before they are recorded.
- What makes an event satisfy a wait's criteria, a comparison of JSON texts: the relation is a parameter.
- Signals of other tokens: each rendezvous is modelled on one token, and another run's registration replacing a row appears as the loss of that row.
- A message taken from the buffer by a process that dies before recording it is lost to an entity; `Entities` counts recorded messages only.
- A local step that throws ends the pass in `WorkflowCtx`; bodies that catch it are not modelled, because a failed local step runs again on replay.
- WorkflowCtx.Context.CallRemote: the retries, re-dispatches and queue of a dispatched step are part of its waiting; `RemoteRetry` and the gates model them.
- WorkflowCtx.Context.RunLocalStep: has no local retries and no backoff between them.
- WorkflowCtx.Context.SuspendUntil: the due time is an event of the environment, because the model has no clock there.
- WorkflowCtx.Context.WaitForSignal: its two looks at the buffer are one, because `SignalRendezvous` models the interleaving; bounded waits are left out.
- WorkflowCtx.Context.WaitForWebhook: bounded waits are left out.
- RemoteRetry.RemoteStep.CallRemote: steps with a liveness timeout take another path, and the retry time a queue names is left out.
- Compensations by name only: an undo is identified by its step, and whether an attempt succeeds is a parameter.
- Mutation of a state object shared between a handler and an earlier checkpoint: states are values.
- Concurrent writes during one in-process pass: a pass sees the store as of its start together with what it writes.
- CtxReplay.ReplayStable: a pass is assumed to find nothing buffered for a wait whose row is still registered, which is what `NeverBothAtRest` gives between calls, and each registered row is delivered to once.
- The in-memory path of steps with a liveness timeout.
- Run leases, `drain`, `requeue`, blocked parking and recovery sweeps: several of their writes are unconditional.
- The clock of the Redis server only goes forward, and non-positive rate periods share one window: their counters are deleted as they are written.
- Expiry of an instance's heartbeat key: it is a step of the environment.
- The encoding of waiter metadata as one string with a separator: the two parts are a pair.
- Numbers are integers: priorities, clocks and delays of the source are JavaScript numbers.
- Dispatch and retry jitter, cron schedules, and schedule keys shared between schedules.
- JSON and UTF-8: names, criteria and values are taken as bytes or opaque values.
- Pending backlog limits of singletons (`assertCapacity`), handshake, capability planning and transports: nothing proved here depends on them.
- GateRefinement.GatesAgree: the scope excludes rate limits, lapsed owners, expired waiters and empty fairness keys, because the two gates differ on each.
