# Haliphron run protocol: a verified model

Haliphron runs agents in Kubernetes clusters. A backend holds every run as a row
and leases it to one cluster at a time; a controller in that cluster turns the
lease into an AgentRun object, starts a Job per attempt, and reports what it
sees. This project models that protocol, the scheduler and chat protocols that
feed it, and the algorithmic cores beneath them, and proves what they keep.

## How it is laid out

| file | what it models |
|---|---|
| `Numbers.dfy`, `Wrappers.dfy` | powers, cardinalities and the option type |
| `Phases.dfy`, `Report.dfy` | the shared vocabulary, and the decision on one observation |
| `DeliveryOrder.dfy` | folding that decision over deliveries in any order |
| `Ledger.dfy`, `RunSteps.dfy` | the attempt ledger, and each store operation as a function of one run |
| `Effects.dfy` | what the table holds after each operation, column by column |
| `Store.dfy`, `Service.dfy` | the same operations as they run: a class over the runs table, the heartbeat and the sweep |
| `Protocol.dfy`, `Traces.dfy`, `Deadlines.dfy`, `Promotion.dfy` | the invariant every operation keeps, what follows over whole runs, what the deadlines measure, and the two channels a result arrives on |
| `Controller.dfy`, `Attempts.dfy`, `Passes.dfy`, `AgentRuns.dfy` | the reconciler as functions, its invariants over a whole life, what one pass decides, and the reconciler as it runs |
| `System.dfy` | backend, controllers and a network that loses, repeats and reorders |
| `Schedules.dfy`, `Scheduler.dfy` | replicas racing for a schedule's fence, and one replica's pass |
| `Chat.dfy`, `ChatStore.dfy` | the chat trigger protocol, and its statements as they run |
| `ArrayLiteral.dfy`, `Checkpoint.dfy`, `Quoting.dfy`, `Notifier.dfy`, `ChildTree.dfy` | array literals, the checkpoint list, budgeted quoting, the long-poll notifier, the child budget |

Functions give the effect of an operation; classes follow the source step by
step and are proved to have that effect; lemmas are about the functions, for
every input, every reachable state or every interleaving. What an operation
promises its callers is stated apart from the function that computes it, in the
words of the columns, the snapshot or the bytes.

## What the environment is taken to promise

- A cluster sends only epochs it was leased (`Protocol.SendsOwnEpoch`). Nothing
  else is asked of a message: a refusal may come after a report, or after an
  acknowledgement, because `RejectLease` checks epoch and holder and nothing else.
  What a late refusal costs is counted (`Traces.AcknowledgementsBounded`,
  `Traces.SecondAcknowledgementIffLateRefusal`), and so is what a refusal of a
  reported run leaves behind (`Traces.StatusFollowsPhase`, `Traces.RowStepsBackIff`,
  `System.NewestReportSettles`).
- In `System`, one lease loop runs in a cluster at a time: it answers a lease it
  materialised once, with an acknowledgement or with a refusal, tries to delete
  the AgentRun before it refuses, and after a restart acknowledges again only
  what is neither deleted nor ended. A deletion may fail, and then the refusal
  is sent all the same; `System.RefusalsAreNotLate` says what that can do, and
  `System.SingleExecution` what it costs.
- A cron expression's next slot is after now; run identifiers are new; money is
  counted in micro-dollars; a thread has no more posts than a slice can hold.

Where code and documentation disagree the model follows the code. The epoch
rises when ownership is revoked, not on every issuance. The checkpoint handed
out with a lease is always empty (`Traces.LeaseCarriesNoCheckpoint`), though
`backend/store/lease.go` speaks of an earlier owner's. A cancellation asked for
during an unacknowledged lease survives its expiry and parks the run in the
queue (`Traces.CancelledLeaseParks`). A report is promoted whichever attempt it
belongs to (`Promotion.LastDeliveredExitCodeShows`). `quoteThread` says at most
one omission note is written; `Quoting.SecondNoteIff` says when there are two,
and `Quoting.QuotesWithinBudgetIff` when they do not fit. A pass that learns it
lost its run while refreshing the bundle still creates the Job, which the next
pass removes (`Attempts.JobOfALostRunIff`). A refusal leaves the phase its run
was reported in where it was, and the next ownership starts from it. A report
accepted before the acknowledgement takes the run out of the acknowledgement
scanner's reach (`Traces.ExpiryRequeuesIffUnheard`, `Traces.HeardKeepsTheRun`).

## Model

| member | source | states |
|---|---|---|
| `Report.DecidedByPosition` | backend/run/report.go:98-156 | a report is new exactly when it stands further on, a repeat exactly when it says what the row says, and audited exactly when it contradicts an ending |
| `Report.RefusalsSayWhatToDo` | backend/run/report.go:98-156 | each refusal has its code and its action exactly under its condition: let go when the run has moved past the message, fix it when no state could take it, repeat it when only the phase fell behind |
| `Report.NewsFollows` | api/run/v1/phase.go:30-64 | within an attempt a report is new exactly when its phase comes after the row's: pending, starting, running, then one of four endings |
| `DeliveryOrder.FoldReachesFurthest` | backend/run/report.go:98-156 | folding any deliveries of one ownership ends at the lexicographic maximum of (attempt, rank), and the first phase delivered at that position stands |
| `DeliveryOrder.FurthestUnique` | backend/run/report.go:98-156 | that maximum is the one position that bounds the row and every report and is attained |
| `DeliveryOrder.SameReportsSameRun` | backend/run/report.go:98-156 | two deliveries of the same reports, in any order and multiplicity, leave the same row when the furthest position has one outcome |
| `DeliveryOrder.OrderIndependentIffOneOutcome` | backend/run/report.go:98-156 | order and repetition cannot matter exactly when the furthest position was reported with a single phase |
| `DeliveryOrder.ContradictingEndings` | backend/run/report.go:138-156 | two endings of the furthest attempt make the outcome a matter of order |
| `DeliveryOrder.FirstDeliveredStands` | backend/run/report.go:138-156 | the first terminal phase of the furthest attempt is the one that stands |
| `Ledger.TotalWithout` | backend/store/report.go:514-561 | the bill is a sum in any order: any attempt's charge may be split off it |
| `Ledger.TotalAddsUp` | backend/store/report.go:514-561 | money and each count of tokens are summed apart, field by field |
| `RunSteps.PickCluster` | backend/store/runs.go:697-716 | an eligible cluster that never refused the run, or none exactly when all have |
| `RunSteps.PickIsFirst` | backend/store/runs.go:697-716 | every cluster preferred to the one picked has refused the run |
| `Store.Select` | db/queries/lease.sql:1-49 | a poll takes the first matching rows of the queue, at most its limit, and all of them when there are fewer |
| `Store.SelectIsFirst` | db/queries/lease.sql:1-49 | what is picked is everything that matches in a front part of the queue, which is the whole queue unless the limit was reached |
| `Store.RunStore.AckLease` | backend/store/lease.go:245-288 | accepts the holder's acknowledgement of the current epoch, once with effect and then as a repeat; refuses every other |
| `Store.RunStore.RejectLease` | backend/store/lease.go:313-396 | excludes the cluster, revokes the ownership, and requeues the run elsewhere or fails it when nobody is left |
| `Store.RunStore.LeaseHeadroom` | backend/store/lease.go:204-229 | the declared capacity, or the contract's ceiling for one that is absent or oversized, less what the cluster holds |
| `Store.RunStore.Lease` | backend/store/lease.go:100-178 | leases distinct waiting rows in the order of the queue, passing over none, within request and capacity and up to both, touches no other run, and leases none when one cannot open its attempt |
| `Store.LeasedCount` | backend/store/lease.go:185-229 | leasing counts against capacity exactly what it hands out |
| `Store.RunStore.ExpireAcks` | backend/store/lease.go:414-442 | exactly the overdue leases lose their ownership and open attempt and are queued for the same cluster, or failed at the ceiling; no other row changes and none is overdue after |
| `Store.RunStore.ExpireLeases` | backend/store/lease.go:453-482 | a row is lost exactly when it is dispatched, starting or running and past its lease deadline; it changes status and reason only, no other row changes, and afterwards none is past its deadline |
| `Store.RunStore.MarkUnknown` | backend/store/runs.go:503-533 | exactly the named live runs become Unknown |
| `Store.RunStore.PlaceQueued` | backend/store/runs.go:638-694 | the oldest unplaced queued runs get a cluster that never refused them, and the count is positive exactly when one did |
| `Store.RunStore.RequestCancel` | backend/store/runs.go:381-433 | a queued run is cancelled on the spot, one a cluster has is marked for cancellation and otherwise unchanged, an ended one is refused and unchanged |
| `Store.RunStore.Retry` | backend/store/runs.go:447-501 | revokes the ownership, clears the outcome and requeues under a new epoch |
| `Store.RunStore.ApplyObservation` | backend/store/report.go:105-183 | an accepted report moves the row to its phase under the status that says the same, its attempt takes the report, an ending brings the stored pod report with it, and the caller is told the status or that the result is missing; a refused one changes nothing |
| `Store.RunStore.UpsertAttempt` | backend/store/report.go:227-335 | closes superseded attempts, merges the observation into its row or opens one, unless another is open |
| `Store.RunStore.ApplyCompletion` | backend/store/report.go:387-481 | records, charges and promotes the first report of an attempt under the current epoch, field by field, and only the first; moves the run nowhere |
| `Store.RunStore.PromoteCompletion` | backend/store/report.go:485-511 | a report that came before the terminal status is promoted when the status arrives |
| `Store.RunStore.PromoteAttempt` | backend/store/report.go:514-561 | the run shows the report's outcome and is billed the sum of its ledger |
| `Store.RunStore.Totals` | backend/store/report.go:514-561 | the loop's sum is the sum over all attempts, whatever order they are read in |
| `Effects.UpsertOfOne` | backend/store/report.go:227-335 | the attempt's row takes the report, lower attempts are cut short, every other row is kept; refused exactly when another attempt would stay open beside a new one |
| `Effects.ReportOfOne` | backend/store/report.go:105-225 | every column after an accepted report, and nothing changed after any other |
| `Service.Backend.Heartbeat` | backend/app/report.go:29-131 | after applying what is reported, a run is lost exactly when it is dispatched, starting or running on the caller and left out of a complete report, and the caller is asked to stop exactly the unended runs it has that are to be cancelled |
| `Service.Backend.Sweep` | backend/app/sweeper.go:36-151 | run by run a sweep is expire, lose, place, collect, in that order and each once at most, and it wakes the polls exactly when a run became leasable |
| `Service.Backend.Expire` | backend/app/sweeper.go:36-107 | an unconfirmed lease past its deadline is given up, a confirmed run past its lease is out of sight, no other run changes, and whether any run went back to the queue |
| `Service.Backend.Collect` | backend/store/runs.go:599-629 | of the first 50 ended runs without a report, those storage holds one for get one completion of their own epoch; no run's status or cluster moves |
| `Service.SweepKeepsTable` | backend/app/sweeper.go:36-151 | on every row a sweep is a legal run of the protocol and keeps its invariant |
| `Service.HeartbeatKeepsTable` | backend/app/report.go:29-131 | on every row a heartbeat of a cluster that reports its own leases is a legal run of the protocol and keeps its invariant |
| `Service.CancelIsPassedOn` | backend/app/report.go:29-131 | once a run a cluster has is cancelled, every later heartbeat that finds it on the caller and unended asks the caller to stop it, until a retry |
| `Service.RecoveryIsOwnIffHeld` | backend/app/report.go:324-355 | a stored report is of an epoch the run was leased under exactly while the run is held |
| `Service.Backend.RecoverResult` | backend/app/report.go:324-355 | a stored report is applied as a completion of the run's epoch, by the attempt it names or the run's own |
| `Service.RequeuedByExpiry` | backend/app/sweeper.go:144-150 | comparing the two expiry counts says exactly whether a lease was requeued |
| `Protocol.StepKeepsInv` | backend/store/lease.go:100-511 | every operation keeps ownership, lifecycle, ledger and billing invariants, and none meets the one-live-attempt refusal |
| `Protocol.UpsertKeeps` | backend/store/report.go:227-335 | an accepted observation leaves one open ledger row at most, the current attempt's, and the bill unchanged |
| `Protocol.RecordingKeeps` | backend/store/report.go:387-481 | recording a first report charges its attempt once and leaves the rest of the ledger in order |
| `Protocol.RevokingKeeps` | db/migrations/0003_runs.sql:466-500 | raising the epoch closes every open attempt and changes no charge |
| `Traces.InvAlways` | backend/store/lease.go:100-511 | the invariant holds after any legal sequence of operations |
| `Traces.StepMovesForward` | db/migrations/0003_runs.sql:383-433 | no operation moves an ownership back in (epoch, attempt, rank), a return to the queue raises the epoch, and the database's guard never fires |
| `Traces.RowStepsBackIff` | backend/store/runs.go:381-433 | the row's own (epoch, attempt, rank) drops exactly when a queued run that kept an unended phase from a refused ownership is cancelled |
| `Traces.RunMovesForward` | db/migrations/0003_runs.sql:383-433 | where the ownership of a run stands never decreases over any run of the system |
| `Traces.EachEpochIssuedOnce` | backend/store/lease.go:100-178 | over a whole run each epoch is handed out at most once |
| `Traces.StaleForever` | backend/run/report.go:98-115 | a message that has gone stale can never again change the run |
| `Traces.OneOpenAttempt` | backend/store/lease.go:153-164 | in every reachable state at most the current attempt is open, and the live-attempt error is unreachable |
| `Traces.StatusFollowsPhase` | backend/store/lease.go:346-396 | throughout a run of the system the status is its phase's, or Unknown before an end, exactly when no refusal took effect on a reported run, but to fail one reported Failed |
| `Traces.StatusTellsPhase` | api/cluster/v1/ingest.go:193-212 | after any such run each status but Unknown stands for exactly one phase, spelled out pair by pair |
| `Traces.RefusedForGood` | backend/store/lease.go:346-396 | a cluster that refused a run never again has it queued or leased to it |
| `Traces.AcknowledgementsBounded` | backend/store/lease.go:245-288 | at most one ownership is ever acknowledged, plus one for each operator retry and each refusal of a lease acknowledged before |
| `Traces.SecondAcknowledgementIffLateRefusal` | backend/store/lease.go:313-396 | of an acknowledged run no second ownership is acknowledged without a retry or a late refusal, and with a late refusal one can be |
| `Traces.ExpiryRequeuesIffUnheard` | db/queries/expire_ack.sql:30-53 | an overdue ownership nobody acknowledged is requeued exactly when no report of it was accepted as news |
| `Traces.HeardKeepsTheRun` | backend/store/report.go:137-183 | an ownership once heard keeps the run until its holder refuses it or an operator retries it |
| `Traces.RequeueingTerminates` | backend/store/lease.go:313-442 | without a retry a run is leased fewer than clusters plus ceiling times |
| `Traces.StepSpendsLeases` | backend/store/lease.go:313-442 | every step spends the measure of clusters yet to refuse and expiries left |
| `Traces.BilledOnce` | backend/store/report.go:514-561 | in every reachable state the bill is the ledger's sum and the sum of the first accepted report of each attempt |
| `Traces.ChargeIsFinal` | backend/store/report.go:387-481 | no replay from either path changes an attempt's charge |
| `Traces.UnknownRecovers` | backend/store/report.go:137-156 | a run marked Unknown takes exactly the reports further on or saying the same, and taking one restores the status its phase stands for without lowering the rank |
| `Traces.LeaseCarriesNoCheckpoint` | backend/store/lease.go:168-175 | the checkpoint read back at issuance is empty |
| `Traces.CancelledLeaseParks` | db/queries/lease.sql:20-36 | a queued run with a cancellation pending stays there until it is retried, or cancelled again, which is refused if it kept an ending |
| `Traces.CancelReachesTheHolder` | backend/store/runs.go:381-433 | cancelling a run a cluster has is accepted and changes only that it is asked for, which stays until a retry, and the run is handed out to nobody else |
| `Deadlines.AlwaysDated` | backend/store/lease.go:100-482 | throughout every run the two deadline columns are the time of issue and of the last contact, plus the timings |
| `Deadlines.DeadlinesMeasureSilence` | backend/store/lease.go:414-482 | the scanners take a run away exactly when it was handed out longer than the acknowledgement timeout ago, unconfirmed and unheard, and lose sight of it exactly when its holder was last heard longer than a lease ago |
| `Promotion.StatusAndReportCommute` | backend/store/report.go:387-561 | a terminal status and the report of the same attempt leave the same row in either order |
| `Promotion.LastDeliveredExitCodeShows` | backend/store/report.go:514-561 | reports of two attempts agree on the bill in either order, and on the exit code exactly when the codes are equal |
| `Attempts.PhaseTable` | controller/agentrun/observe.go:70-210 | what each phase takes, both ways, and that an ending the container did not report is the platform's |
| `Attempts.FailedIff` | controller/agentrun/observe.go:70-230 | everything the table calls a failure, and nothing else: a Job gone or failed, a pod lost, a hopeless wait past ten minutes, an exit code |
| `Attempts.StartingIff` | controller/agentrun/observe.go:70-230 | starting is what is left: a Job in time, without a pod yet or with one that has not run |
| `Attempts.ReasonIsGiven` | controller/agentrun/observe.go:70-230 | every answer carries what Kubernetes said of it, or the controller's own word when it said nothing |
| `Attempts.LookAdvances` | controller/agentrun/observe.go:234-256 | within an attempt a phase never moves back and the first ending stands |
| `Attempts.ActAdvances` | controller/agentrun/reconciler.go:192-213 | whatever a pass does moves on, is reported, and creates a Job only under an acknowledged lease without one |
| `Attempts.StepKeepsSound` | controller/agentrun/reconciler.go:161-213 | passes, commands, confirmations and heartbeats keep the retry budget, report order and Job bookkeeping |
| `Attempts.WholeLife` | controller/agentrun/attempt.go:183-274 | reports are ordered, an attempt ends one way, there are at most 1 + maxInfraRetries attempts with one Job each, none before a confirmation, and the newest report says everything the status says |
| `Attempts.NoRetryAfterCancel` | controller/agentrun/attempt.go:200-214 | once a cancel is recorded no further retry is booked |
| `Attempts.OutcomeIsFinal` | controller/agentrun/observe.go:234-256 | an attempt's outcome stays until another attempt starts |
| `Attempts.DeliberateExitStands` | controller/agentrun/lifecycle.go:68-115 | an exit the container reached on its own is the attempt's outcome, cancelled or not, for good |
| `Attempts.CancelledRunEndsCancelledIff` | controller/agentrun/lifecycle.go:68-115 | a pass makes a cancelled run Cancelled exactly when the snapshot shows no deliberate outcome and its pod is gone or past its grace and thirty seconds, with what it then records, and end otherwise exactly when it shows a deliberate outcome, or any ending under a pod that may still exit |
| `Attempts.VanishedJobUnderCancel` | controller/agentrun/observe.go:87-99 | with its Job gone a cancelled run ends in the pass, Cancelled or as a Job that disappeared |
| `Attempts.SilentOnceAbandoned` | controller/agentrun/lifecycle.go:33-60 | once a run was taken away nothing more is reported about it and no Job of it is created |
| `Attempts.OutcomeSurvivesOutage` | controller/agentrun/lifecycle.go:232-264 | an undelivered outcome and its object survive any outage of the backend up to the hard ceiling |
| `Attempts.PausesDouble` | controller/agentrun/attempt.go:282-288 | the pause is thirty seconds, doubled per retry, capped at five minutes, and jitter adds a tenth at most |
| `Attempts.PausesVary` | controller/agentrun/attempt.go:228-290 | every pause up to a tenth longer can come about |
| `Passes.RetryBookedIff` | controller/agentrun/attempt.go:183-250 | over an ended attempt a pass books a retry exactly when nobody cancelled, it failed or timed out, the class is infra or git, and the budget lasts |
| `Passes.RetriedIff` | controller/agentrun/attempt.go:183-250 | from the snapshot: exit codes 20, 21 and above 128, and every attempt broken off, are retried while the budget lasts, and no other exit code ever |
| `Passes.ExitIsClassified` | api/run/v1/phase.go:84-150 | the phase, class and time each exit code of the agent image stands for |
| `Passes.LookTakesWhatIsSeen` | controller/agentrun/observe.go:234-256 | a pass takes what the table says unless that is behind what the status says |
| `Passes.BookedRetryStarts` | controller/agentrun/attempt.go:183-274 | a booked retry waits for its time and then starts the next attempt with nothing left of the last, and says so |
| `Passes.UnconfirmedIsDroppedIff` | controller/agentrun/lifecycle.go:324-338 | an unconfirmed run is dropped with its reports exactly when its wait is over, and never has a Job |
| `Passes.JobIsMadeIff` | controller/agentrun/attempt.go:45-120 | a confirmed run gets its Job exactly when its secret is there and its spec can be built; a spec that cannot fails the run |
| `Passes.JobIsStoppedIff` | controller/agentrun/lifecycle.go:68-115 | a pass deletes the Job exactly when a cancel is recorded, the Job is there and the run did not end by itself |
| `Passes.OverIsDeletedIff` | controller/agentrun/lifecycle.go:232-290 | an ended run is deleted exactly when nothing is left to retry and it was delivered and kept its time, or is past the hard ceiling |
| `Passes.DeletedGoesIff` | controller/agentrun/lifecycle.go:141-183 | a deleted object goes exactly when no pod runs under it or they took too long, and stops its Job until then |
| `Passes.CommandsAreKept` | controller/agentrun/commands.go:88-123 | of any sequence of commands the object keeps whether it was taken away, and the first cancellation before that |
| `AgentRuns.AgentRun.Record` | controller/agentrun/commands.go:88-123 | a command is recorded once; the first cancel wins and an abandon outranks it |
| `AgentRuns.AgentRun.MarkAcknowledged` | controller/agentrun/commands.go:146-159 | the confirmation is recorded and nothing else changes |
| `AgentRuns.Reconciler.Reconcile` | controller/agentrun/reconciler.go:161-213 | one pass leaves the object, the reporter's queue and the cluster as the pure pass says |
| `AgentRuns.Reconciler.CancelIn` | controller/agentrun/lifecycle.go:68-98 | what a cancellation makes of an observation, and whether the Job is deleted |
| `AgentRuns.Reconciler.ApplyObservation` | controller/agentrun/status.go:27-72 | the observation folded into the status, absent fields left alone, and whether it changed |
| `AgentRuns.Reconciler.HandleTerminal` | controller/agentrun/attempt.go:183-274 | another attempt booked or started, or the wait for delivery |
| `AgentRuns.Reconciler.EnsureJob` | controller/agentrun/attempt.go:45-110 | the Job of the current attempt, created, adopted or left for later, or the spec refused |
| `AgentRuns.Reconciler.AwaitAck` | controller/agentrun/lifecycle.go:324-338 | an unconfirmed run is dropped, unreported, once its budget is spent |
| `AgentRuns.Reconciler.Finalize` | controller/agentrun/lifecycle.go:141-183 | the object goes once nothing runs under it, or after a bounded wait |
| `System.RefusalsAreNotLate` | controller/lease/loop.go:211-331 | a refusal, sent before or after the AgentRun was created and reported, never takes effect on an acknowledged lease unless deleting that AgentRun had failed |
| `System.MoveKeeps` | controller/lease/loop.go:211-331 | every move of backend, controllers and network, refusals of a materialised lease among them, keeps the system's invariant |
| `System.Projects` | backend/store/lease.go:100-511 | a run of the system is, to the backend, a legal sequence of its operations, with at most one late refusal for each AgentRun a refusal failed to delete |
| `System.SingleExecution` | controller/agentrun/reconciler.go:206-210 | Jobs belong to confirmed ownerships, one per attempt within the budget, and there is at most one such ownership, plus one per operator retry and one per refusal whose deletion failed |
| `System.OneClusterRuns` | controller/agentrun/lifecycle.go:324-338 | without an operator's retry, and with every refused AgentRun deleted, every Job anywhere belongs to one cluster under one epoch |
| `System.NewestReportSettles` | backend/run/report.go:98-156 | once the holder's newest report got through, the row is at the controller's attempt and phase exactly when the phase inherited from a refused ownership is not ahead; with none, or Pending, always |
| `System.WorkGetsDone` | controller/lease/loop.go:130-331 | alone and with nothing lost, a cluster brings a new run to success, with one execution |
| `System.RefusedGoesElsewhere` | backend/store/lease.go:313-396 | a run one cluster refuses is queued for the next, under a new epoch |
| `Schedules.StepKeepsInv` | backend/app/scheduler.go:112-207 | every interleaved step of replicas, operators and runs keeps the fence's invariant |
| `Schedules.EachFenceWonOnce` | backend/store/schedules.go:236-252 | (revision, next_run_at) strictly increases over the wins, so no fence is won twice |
| `Schedules.FiresAreRuns` | backend/store/runs.go:102-134 | the runs carrying a fire and the submitted wins correspond one for one |
| `Schedules.ForbidExcludesOverlap` | backend/app/scheduler.go:147-170 | a fire admitted under Forbid saw every earlier fire's run, and none of them live |
| `Schedules.ReplaceCancelsOlder` | backend/app/scheduler.go:172-184 | Replace cancels only for a winner, and never its own run or a later one |
| `Schedules.ReplaceCancelsAll` | backend/app/scheduler.go:172-184 | a fire under Replace that got to its end has cancelled every run it saw going on |
| `Schedules.SlotsFireOnceUnlessRewound` | backend/app/schedule.go:268-291 | as long as no edit writes back a slot no later than one won, the slots won strictly increase |
| `Schedules.SlotsAdvanceIffNotRewound` | backend/app/schedule.go:268-291 | an edit keeps the slots advancing exactly when it writes one later than every slot won; otherwise a replica alone with the schedule makes them go back |
| `Schedules.RewoundSlotIsWonAgain` | backend/app/schedule.go:268-291 | from any state, under any policy and at any time from the slot on, a slot written back is won again, with a run unless it is too late or Forbid finds one live |
| `Schedules.FiresAlone` | backend/app/scheduler.go:112-190 | alone with a due schedule, at any time from its slot on, a replica wins it; missed exactly when later than its deadline allows, skipped or submitted otherwise |
| `Schedules.SlotsRepeatOnlyAcrossEdits` | backend/store/schedules.go:105-132 | equal slots are won under different revisions only |
| `Scheduler.Replica.AdvanceSchedule` | backend/store/schedules.go:236-252 | the fenced update moves the schedule on or finds it settled |
| `Scheduler.Replica.InsertRun` | backend/store/runs.go:102-134 | the run and the advance commit together or not at all |
| `Scheduler.Replica.UpdateSchedule` | backend/store/schedules.go:105-132 | every fire computed before the edit has lost, the schedule is due from the new slot on, and what it last did stays on record |
| `Scheduler.Replica.CancelAll` | backend/app/scheduler.go:172-184 | exactly the live runs named are asked to stop |
| `Scheduler.Replica.Fire` | backend/app/scheduler.go:112-190 | a fire counts exactly when the row is as it was read; it is missed, skipped, admitted or refused each under its own condition, moves the schedule to the next slot, and asks the runs it replaces to stop |
| `Scheduler.Replica.FireDueSchedules` | backend/app/scheduler.go:76-107 | a pass fires every due schedule once, each counter is the number of schedules that recorded its outcome, and none is left due |
| `Chat.StepKeepsInv` | backend/store/chat.go:70-293 | every interleaved step of handlers, repliers and deletions keeps the trigger rows consistent |
| `Chat.OneAnswer` | backend/app/chat.go:378-446 | a row never holds two answers, is never both replied and abandoned, and everything posted for a claim says one thing |
| `Chat.AnswersAreFinal` | backend/store/chat.go:86-103 | a claim's answer is never taken back, so at most one run commits for it |
| `Chat.ClosedMeansAnswered` | backend/store/chat.go:249-276 | a row closed by a reply to its own claim has an answer |
| `Chat.AnsweredUntilRemoved` | backend/store/chat.go:249-276 | while no row is removed every closed row has an answer |
| `Chat.AStaleReplyCanCloseAClaim` | backend/store/chat.go:249-293 | a reply under way across a purge can mark a newer claim replied without an answer |
| `Chat.DescendantsOwe` | backend/store/chat.go:105-125 | every run below a chat-started run has exactly one row, naming the root's message and place |
| `Chat.OthersOweNothing` | backend/store/chat.go:105-125 | a run not started from chat, and everything below it, has no row |
| `ChatStore.Triggers.ClaimChatTrigger` | backend/store/chat.go:70-83 | the first claim of a message wins and every other changes nothing |
| `ChatStore.Triggers.LinkChatTrigger` | backend/store/chat.go:86-103 | a run is linked exactly when the row is undecided and open |
| `ChatStore.Triggers.LinkChatFollowUp` | backend/store/chat.go:105-125 | the child inherits its parent's place and root message, or nothing |
| `ChatStore.Triggers.RefuseChatTrigger` | backend/store/chat.go:154-167 | a refusal is recorded exactly when the row is undecided |
| `ChatStore.Triggers.MarkChatReplied` | backend/store/chat.go:249-258 | an open row is marked replied and a closed one is left alone |
| `ChatStore.Triggers.FailChatReply` | backend/store/chat.go:262-276 | an open row counts the failure, and is abandoned when told to |
| `ChatStore.ChatBackoff` | backend/app/chat.go:467-473 | ten seconds doubled per failure, ten minutes at most |
| `ArrayLiteral.TextArray` | backend/store/sql.go:41-50 | prints the list as a quoted, escaped array literal |
| `ArrayLiteral.Scan` | backend/store/sql.go:108-157 | the byte loop computes what the scanner's state machine accepts, with NULL and the error cases |
| `ArrayLiteral.LiteralsRoundTrip` | backend/store/sql.go:108-157 | any list of byte strings scans back from its literal, with each element quoted or, where it may be, plain |
| `ArrayLiteral.TextArrayRoundTrips` | backend/store/sql.go:41-50 | scanning what is printed gives the list back |
| `ArrayLiteral.QuotedBytes` | backend/store/sql.go:41-50 | an element stands between double quotes, and a quote or backslash in it takes a backslash, byte by byte |
| `ArrayLiteral.LiteralBytes` | backend/store/sql.go:41-50 | elements are separated by commas and stand between braces, byte by byte |
| `ArrayLiteral.TrimmedIs` | backend/store/sql.go:108-125 | trimming takes the blanks off both ends and nothing else |
| `Checkpoint.RuntimePhaseArray` | backend/store/sql.go:57-69 | prints the normal form of a checkpoint |
| `Checkpoint.RuntimePhases` | backend/store/sql.go:75-90 | reads the recognised phases in contract order, once each |
| `Checkpoint.NormalFormIsCanonical` | backend/store/sql.go:52-69 | the normal form is duplicate-free, ordered, and equal exactly for equal sets of phases |
| `Checkpoint.UnionIgnoresOrder` | backend/store/sql.go:52-69 | checkpoints add up the same in whatever order and however often they arrive |
| `Checkpoint.CheckpointRoundTrips` | backend/store/sql.go:71-90 | stored names, in any order and among unknown ones, read back as the normal form |
| `Notifier.Notifier.Broadcast` | backend/app/service.go:196-201 | releases whoever holds the old channel and leaves a new open one |
| `Notifier.NoLostWakeupIffChannelFirst` | backend/app/lease.go:134-155 | no poller sleeps through an announced insertion, in any interleaving, exactly because it takes the channel before it queries |
| `Quoting.CutBytes` | backend/app/chatprompt.go:291-302 | the longest prefix within the limit that splits no character |
| `Quoting.QuotedPostFits` | backend/app/chatprompt.go:270-277 | a quoted post keeps to its limit unless its name and the cut mark alone exceed it |
| `Quoting.QuotedPostReads` | backend/app/chatprompt.go:268-289 | a post is quoted as its author, marked when it is the bot, a colon, its text whole or cut with a mark, and an end of line |
| `Quoting.IndentedLines` | backend/app/chatprompt.go:268-277 | every line but the first is indented by two blanks and nothing else changes |
| `Quoting.SelectionFits` | backend/app/chatprompt.go:223-249 | what is kept is the root if it fits and the longest newest suffix that fits beside it |
| `Quoting.Choose` | backend/app/chatprompt.go:232-249 | the loops over the keep flags make that selection |
| `Quoting.QuoteThread` | backend/app/chatprompt.go:205-266 | the loops write the kept posts in order, with a note for each gap |
| `Quoting.CountNotes` | backend/app/chatprompt.go:251-262 | how many notes a selection needs |
| `Quoting.NoteFits` | backend/app/chatprompt.go:206-211 | a note fits the 48 bytes held back for it |
| `Quoting.NoteReads` | backend/app/chatprompt.go:251-262 | a note is the number of messages it stands for, in decimal, and the words after it |
| `Quoting.QuotesWithinBudgetIff` | backend/app/chatprompt.go:203-266 | wherever the root stands the text is within budget unless two notes do not fit, and never over by more than the room of a note |
| `Quoting.QuotesWithinBudget` | backend/app/chatprompt.go:203-266 | a thread whose root comes first is quoted within its budget with one note at most, between the root and the newest posts |
| `Quoting.SecondNoteIff` | backend/app/chatprompt.go:206-211 | two notes are written exactly when a kept root has posts left out on both sides |
| `Quoting.TwoGapsAreWritten` | backend/app/chatprompt.go:251-262 | with two gaps the text is the kept posts and both notes, to the byte |
| `Quoting.RootInTheMiddleOverflows` | backend/app/chatprompt.go:206-211 | a thread that overflows its budget exists |
| `Quoting.SortedKeeps` | backend/app/chatprompt.go:188-201 | the context is the filtered posts, all of them, in order of time |
| `Quoting.SortIsStable` | backend/app/chatprompt.go:188-201 | posts of one moment keep the order they came in |
| `Quoting.OldestRootIsFirst` | backend/app/chatprompt.go:188-201 | a root older than the rest of its thread comes first |
| `Quoting.ContextIs` | backend/app/chatprompt.go:184-201 | a post is context exactly when it is another, not of the system, says something, and did not come later |
| `Quoting.RequestReads` | backend/app/chatprompt.go:157-171 | the request is who asked and what, in its frame, or what the bot is asked when the message says nothing |
| `Quoting.PromptReads` | backend/app/chatprompt.go:157-182 | header, framed thread and request in this order, or header and message when nothing is quoted |
| `Quoting.PromptFits` | backend/app/chatprompt.go:157-182 | whenever anything is quoted the whole prompt keeps to maxBytes, unless two notes overflow, and is never over by more than a note |
| `Quoting.RootFirstPromptFits` | backend/app/chatprompt.go:157-182 | with the root first among the posts quoted the prompt always fits |
| `ChildTree.TreeIsBounded` | backend/store/runs.go:136-158 | in every interleaving a run has at most B children, depth is at most D, and a run has at most B + … + B^D descendants |
| `ChildTree.AdmittedIffThereIsRoom` | backend/store/runs.go:136-158 | under the lock a child is inserted exactly when its parent has fewer children than allowed |
| `ChildTree.AdmissionGoesThrough` | backend/store/runs.go:136-158 | alone, an admission runs to its end, and the child is in exactly when there is room |
| `ChildTree.CountingWithoutTheLockOverruns` | backend/store/runs.go:141-146 | without the parent's lock two admissions can both pass the last place |

## Left out

- Long tails of the HTTP, REST, MCP, JWT and chat-server layers, metrics, the frontend, secrets and encryption, idempotency keys, tool-policy merging, retention and statistics: plumbing, or easy members.
- Deletion of a run: only the chat rows and the child links it touches are modelled, in `Chat`.
- Store.RunStore.Lease: a poll's selection and update are one step. The source lets polls of different clusters overlap inside it, on rows that SKIP LOCKED keeps disjoint, and keeps polls of one cluster apart by a lock.
- Ordering of the queue: the store's queue is given in the order the lease statement sorts it; DueSchedules' and DueChatReplies' sorting and batch limits are not modelled.
- Descriptive columns: job, pod and node names, conditions, events, audit entries, start and update times.
- Texts of status messages are modelled as what they say, not as they are worded; truncation is not modelled.
- Service.Backend.Heartbeat: the lease renewals and the wording of the commands in its response are not modelled; a cancel command may reach a controller at any time in `System`.
- Stale-cluster marking and token revocation in the sweep are not modelled; the order runs ended in is given to it.
- Kubernetes API calls that fail end a pass with nothing changed; creating the Job and recording its name are one step. Deleting an AgentRun before its lease is refused may fail in `System`.
- A confirmation is recorded on the AgentRun of its own epoch; the source patches by name, which comes to the same while one lease loop runs at a time.
- Two observations of equal modelled status may both be sent by the source when only an unmodelled field changed; to the backend that is a repeat, which the network may produce anyway.
- Presigned bundles, secrets, Job building and the relay spool: their outcomes are inputs of a pass.
- Cron parsing, time zones, clocks, schedule templates: their results are inputs of a fire; deleting a schedule does not clear its runs' link in the model, which changes nothing a fire reads.
- Reply leases and waiting times in chat: any number of repliers may hold a row at once, which is more than the source allows. The rendering of answers is not modelled.
- ArrayLiteral.Scan: trims ASCII white space around the literal only; Unicode spaces are not modelled.
- Quoting.PromptFits: takes the header and the fixed texts as given, and the cleaning of header values is not modelled.
- Chat.ClosedMeansAnswered: says nothing of rows closed by a reply to an earlier claim of the same message, because that can happen: see `Chat.AStaleReplyCanCloseAClaim`.
- Quoting.QuotesWithinBudget: requires the root to come first; `Quoting.QuotesWithinBudgetIff` has the bound for every thread.
- A cancelled run always ending Cancelled, and a slot firing once across edits, are false of the source: `Attempts.CancelledRunEndsCancelledIff` and `Schedules.SlotsAdvanceIffNotRewound` say when.
- Chat.AStaleReplyCanCloseAClaim: reply leases and the age at which refusals are purged are not modelled; in the source a reply must outlive its lease for this.
