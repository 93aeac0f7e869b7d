// controller/agentrun: one cluster's AgentRun, as functions.
//
// Reconciliation is a function of the object and of a snapshot of the cluster.
// Snapshots are arbitrary: nothing relates what one pass sees to what an earlier
// one created, so everything proved here survives deletions by hand, stale
// caches and restarts.
module Controller {
  import opened Numbers
  import opened Wrappers
  import opened Phases
  import opened Report

  // ---- what a pass sees --------------------------------------------------------

  datatype JobFailure = OutOfTime | FailedFor(reason: Why)

  datatype JobView = JobView(created: Option<int>, deleting: bool, failed: Option<JobFailure>)

  datatype Container = Terminated(exitCode: int, at: int, reason: Why) | Executing | Waits(wait: WaitReason) | Stateless

  datatype PodPhase = PodPending | PodRunning | PodSucceeded | PodFailed | PodUnknown

  /** unscheduled is the reason of a false PodScheduled condition. */
  datatype PodView = PodView(
    deleting: bool, container: Option<Container>, phase: PodPhase, reason: Why, unscheduled: Option<WaitReason>)

  /** What the API server answers to creating the Job; usable is "owned by this object and not on its way out". */
  datatype Creation = Created | Exists(usable: bool)

  datatype View = View(
    job: Option<JobView>, pod: Option<PodView>, now: int,
    secret: bool, lostOwnership: bool, buildable: bool, creation: Creation, jitter: nat, livePods: bool)

  datatype Config = Config(startupDeadline: int, grace: int, hardTTL: int, ackWait: int)

  // ---- the object ---------------------------------------------------------------

  datatype Delivery = Delivery(attempt: nat, phase: Option<Phase>, completion: bool)

  datatype AgentStatus = AgentStatus(
    attempt: nat, phase: Option<Phase>, why: Why, exitCode: Option<int>, failure: Option<FailureClass>,
    finishedAt: Option<int>, job: bool, infraRetries: nat, nextAttemptAt: Option<int>,
    reported: Delivery, resultReported: bool, relayed: Option<bool>)
  {
    predicate Ended() { Phases.Ended(phase) }
  }

  datatype Cancellation = Cancellation(at: int, grace: int)

  /** The AgentRun: its spec, the commands recorded on it, and its status. */
  datatype Cr = Cr(
    epoch: nat, maxInfraRetries: Option<int>, ttl: Option<int>, created: int, leasedAt: Option<int>,
    cancel: Option<Cancellation>, abandoned: bool, acknowledged: bool, deletedAt: Option<int>, status: AgentStatus)

  const FreshStatus := AgentStatus(0, None, Unexplained, None, None, None, false, 0, None, Delivery(0, None, false), false, None)

  function Materialised(epoch: nat, maxInfraRetries: Option<int>, ttl: Option<int>, now: int): Cr {
    Cr(epoch, maxInfraRetries, ttl, now, Some(now), None, false, false, None, FreshStatus)
  }

  /** What the backend is told of the current status. */
  function ObservationFor(cr: Cr): Observation
    requires cr.status.phase.Some?
  {
    var s := cr.status;
    Observation(cr.epoch, if s.attempt < 1 then 1 else s.attempt, s.phase.value, Some(Seen(s.why)), None,
                s.exitCode, s.failure, s.finishedAt.Some?, {})
  }

  // ---- the phase table ------------------------------------------------------------

  datatype Sighting = Sighting(
    phase: Phase, why: Why, exitCode: Option<int>, failure: Option<FailureClass>, finishedAt: Option<int>)

  function Progress(phase: Phase, why: Why): Sighting { Sighting(phase, why, None, None, None) }

  function InfraFailure(phase: Phase, why: Why, now: int): Sighting { Sighting(phase, why, None, Some(Infra), Some(now)) }

  function OrWhy(why: Why, default: Why): Why { if why == Unexplained then default else why }

  function Overdue(since: Option<int>, budget: int, now: int): bool { since.Some? && now - since.value > budget }

  predicate NeverResolves(reason: WaitReason) {
    reason in {ImagePullBackOff, ErrImagePull, InvalidImageName, CreateContainerConfigError,
               CreateContainerError, CrashLoopBackOff}
  }

  function PendingReason(pod: PodView): WaitReason {
    if pod.container.Some? && pod.container.value.Waits? then pod.container.value.wait
    else if pod.unscheduled.Some? then
      if pod.unscheduled.value == NoWaitReason then Unschedulable else pod.unscheduled.value
    else NoWaitReason
  }

  const DefaultStartupDeadline := 600

  function StartupBudget(declared: int): int { if declared <= 0 then DefaultStartupDeadline else declared }

  /** A Job on its way out is a Job that is gone. */
  function LiveJob(job: Option<JobView>): Option<JobView> {
    if job.Some? && job.value.deleting then None else job
  }

  function Derive(status: AgentStatus, view: View, startupDeadline: int): Sighting {
    var budget := StartupBudget(startupDeadline);
    var job := LiveJob(view.job);
    if job.None? then
      if status.job && !status.Ended() then InfraFailure(Failed, JobDisappeared, view.now)
      else Progress(Pending, AwaitingJob)
    else if job.value.failed == Some(OutOfTime) then InfraFailure(TimedOut, DeadlineExceeded, view.now)
    else if view.pod.None? then
      if job.value.failed.Some? then InfraFailure(Failed, OrWhy(job.value.failed.value.reason, PodNotCreated), view.now)
      else if Overdue(job.value.created, budget, view.now) then InfraFailure(Failed, StartupDeadlineExceeded, view.now)
      else Progress(Starting, PodNotCreated)
    else FromPod(view.pod.value, Overdue(job.value.created, budget, view.now), view.now)
  }

  function FromPod(pod: PodView, overdue: bool, now: int): Sighting {
    if pod.container.Some? && pod.container.value.Terminated? then
      var t := pod.container.value;
      var phase := PhaseForExitCode(t.exitCode);
      Sighting(phase, if phase == Succeeded then Completed else OrWhy(t.reason, Named(phase)), Some(t.exitCode),
               Some(FailureClassForExitCode(t.exitCode)), Some(t.at))
    else match pod.phase
      case PodRunning => Progress(Running, Named(Running))
      case PodSucceeded => Sighting(Succeeded, Completed, Some(0), Some(NoFailure), Some(now))
      case PodFailed => InfraFailure(Failed, OrWhy(pod.reason, PodLost), now)
      case _ =>
        var reason := PendingReason(pod);
        if (NeverResolves(reason) || reason == Unschedulable) && overdue then InfraFailure(Failed, Waiting(reason), now)
        else Progress(Starting, if reason == NoWaitReason then Named(Starting) else Waiting(reason))
  }

  // ---- cancellation ------------------------------------------------------------------

  /** Only a deliberate exit outranks the cancellation that raced it. */
  predicate OutranksCancellation(seen: Sighting) {
    seen.phase.IsTerminal() && seen.exitCode.Some? && seen.exitCode.value <= 128
  }

  function CancelGrace(cancel: Cancellation, default: int): int {
    if cancel.grace > 0 then cancel.grace else default
  }

  predicate CancelDeadlinePassed(cancel: Cancellation, default: int, now: int) {
    now > cancel.at + CancelGrace(cancel, default) + 30
  }

  /** The pod may still exit on its own. */
  predicate StillWaiting(cancel: Cancellation, pod: Option<PodView>, grace: int, now: int) {
    pod.Some? && (!pod.value.deleting || !CancelDeadlinePassed(cancel, grace, now))
  }

  function ApplyCancel(cancel: Cancellation, view: View, seen: Sighting, grace: int): Sighting {
    if OutranksCancellation(seen) || StillWaiting(cancel, view.pod, grace, view.now) then seen
    else Sighting(Cancelled, CancelledOnRequest, seen.exitCode, Some(NoFailure), seen.finishedAt.Or(Some(view.now)))
  }

  predicate StopsJob(view: View, seen: Sighting) {
    !OutranksCancellation(seen) && LiveJob(view.job).Some?
  }

  // ---- folding it into the status ---------------------------------------------------

  function CurrentAttempt(status: AgentStatus): nat { if status.attempt >= 1 then status.attempt else 1 }

  /** Within one attempt a phase never moves back, and the first terminal one wins. */
  function Monotonic(status: AgentStatus, attempt: nat, seen: Sighting): Sighting {
    if status.attempt != attempt || status.phase.None? then seen
    else if status.Ended() || seen.phase.Rank() < RankOf(status.phase) then
      Sighting(status.phase.value, status.why, status.exitCode, status.failure, status.finishedAt)
    else seen
  }

  function Folded(status: AgentStatus, attempt: nat, seen: Sighting): AgentStatus {
    status.(attempt := attempt, phase := Some(seen.phase), why := seen.why, exitCode := seen.exitCode.Or(status.exitCode),
            failure := seen.failure.Or(status.failure), finishedAt := seen.finishedAt.Or(status.finishedAt))
  }

  function Seeing(cr: Cr, view: View, config: Config): Sighting {
    var seen := Derive(cr.status, view, config.startupDeadline);
    if cr.cancel.Some? then ApplyCancel(cr.cancel.value, view, seen, config.grace) else seen
  }

  /** The first half of a pass: what was seen, in the status before anything acts on it. */
  function Looked(cr: Cr, view: View, config: Config): Cr {
    var attempt := CurrentAttempt(cr.status);
    cr.(status := Folded(cr.status, attempt, Monotonic(cr.status, attempt, Seeing(cr, view, config))))
  }

  // ---- acting on it -------------------------------------------------------------------

  /** What a pass leaves behind: the object, what it told the backend, and what it did to the cluster. */
  datatype Pass = Pass(cr: Cr, sent: seq<Observation>, made: bool, stopped: bool, forgot: bool, gone: bool)

  function Quiet(cr: Cr): Pass { Pass(cr, [], false, false, false, false) }

  function Telling(cr: Cr): Pass
    requires cr.status.phase.Some?
  {
    Quiet(cr).(sent := if cr.abandoned then [] else [ObservationFor(cr)])
  }

  function MaxInfraRetries(cr: Cr): int { cr.maxInfraRetries.GetOr(3) }

  predicate ShouldRetry(cr: Cr) {
    var s := cr.status;
    && s.nextAttemptAt.None? && s.Ended() && s.phase.value != Succeeded && s.phase.value != Cancelled
    && cr.cancel.None? && s.failure.Some? && s.failure.value.Retriable()
    && s.infraRetries < MaxInfraRetries(cr)
  }

  const RetryBase := 30
  const RetryCeiling := 300

  function RetryFloor(retry: nat): nat
    requires retry >= 1
  {
    var d := RetryBase * Pow(2, if retry - 1 < 5 then retry - 1 else 5);
    if d > RetryCeiling then RetryCeiling else d
  }

  /** Exponential, capped, with up to a tenth on top and never below. */
  function RetryDelay(retry: nat, jitter: nat): nat
    requires retry >= 1
  {
    RetryFloor(retry) + jitter % (RetryFloor(retry) / 10 + 1)
  }

  function ScheduleRetry(cr: Cr, view: View): Cr {
    var retries := cr.status.infraRetries + 1;
    cr.(status := cr.status.(infraRetries := retries, nextAttemptAt := Some(view.now + RetryDelay(retries, view.jitter))))
  }

  function StartNextAttempt(cr: Cr): Cr {
    cr.(status := cr.status.(attempt := cr.status.attempt + 1, phase := Some(Pending), why := AwaitingJob,
                                   exitCode := None, failure := None, finishedAt := None, job := false,
                                   nextAttemptAt := None))
  }

  function DeleteRun(cr: Cr, now: int): Cr {
    if cr.deletedAt.Some? then cr else cr.(deletedAt := Some(now))
  }

  /** The backend has heard everything this run owes it. */
  predicate ReportSettled(status: AgentStatus) {
    && status.Ended()
    && status.reported.attempt == status.attempt && status.reported.phase == status.phase
    && status.relayed != Some(false)
    && (status.resultReported ==> status.reported.completion)
  }

  function Ttl(cr: Cr): int { cr.ttl.GetOr(86400) }

  function HardTtl(config: Config): int { if config.hardTTL > 0 then config.hardTTL else 604800 }

  function Reap(cr: Cr, view: View, config: Config): Pass {
    var finished := cr.status.finishedAt.GetOr(view.now);
    if view.now > finished + HardTtl(config) then Quiet(DeleteRun(cr, view.now))
    else if !ReportSettled(cr.status) || finished + Ttl(cr) > view.now then Quiet(cr)
    else Quiet(DeleteRun(cr, view.now))
  }

  function HandleTerminal(cr: Cr, view: View, config: Config): Pass {
    if ShouldRetry(cr) then Quiet(ScheduleRetry(cr, view))
    else if cr.status.nextAttemptAt.Some? then
      if cr.status.nextAttemptAt.value > view.now then Quiet(cr) else Telling(StartNextAttempt(cr))
    else Reap(cr, view, config)
  }

  function AwaitAck(cr: Cr, view: View, config: Config): Pass {
    var since := cr.leasedAt.GetOr(cr.created);
    if view.now > since + config.ackWait then Quiet(DeleteRun(cr, view.now)).(forgot := true) else Quiet(cr)
  }

  function FailValidation(cr: Cr, view: View): Cr {
    cr.(status := cr.status.(phase := Some(Failed), why := InvalidSpec, failure := Some(Phases.Config),
                                   finishedAt := Some(view.now)))
  }

  function EnsureJob(cr: Cr, view: View): Pass {
    if cr.status.nextAttemptAt.Some? && cr.status.nextAttemptAt.value > view.now then Quiet(cr)
    else if !view.secret then Quiet(cr)
    else
      var told := if view.lostOwnership then cr.(abandoned := true) else cr;
      if !view.buildable then Telling(FailValidation(told, view))
      else if view.creation == Exists(false) then Quiet(told)
      else Quiet(told.(status := told.status.(job := true, nextAttemptAt := None))).(made := view.creation == Created)
  }

  function Acted(cr: Cr, view: View, config: Config): Pass
    requires cr.status.phase.Some?
  {
    if cr.status.Ended() then HandleTerminal(cr, view, config)
    else if view.job.Some? then Quiet(cr)
    else if !cr.acknowledged then AwaitAck(cr, view, config)
    else EnsureJob(cr, view)
  }

  function FinalizerBudget(cr: Cr, config: Config): int {
    var grace := if cr.cancel.Some? then CancelGrace(cr.cancel.value, config.grace) else config.grace;
    (if grace <= 0 then 60 else grace) + 60
  }

  /** Gone once nothing runs under it, or after a bounded wait. */
  function Finalize(cr: Cr, view: View, config: Config): Pass
    requires cr.deletedAt.Some?
  {
    var expired := view.now > cr.deletedAt.value + FinalizerBudget(cr, config);
    Quiet(cr).(stopped := !expired, gone := expired || !view.livePods)
  }

  function Reconcile(cr: Cr, view: View, config: Config): Pass {
    if cr.abandoned then
      Finalize(DeleteRun(cr, view.now), view, config).(stopped := true, forgot := true)
    else if cr.deletedAt.Some? then Finalize(cr, view, config)
    else
      var looked := Looked(cr, view, config);
      var acted := Acted(looked, view, config);
      acted.(sent := (if looked.status != cr.status then [ObservationFor(looked)] else []) + acted.sent,
             stopped := cr.cancel.Some? && StopsJob(view, Derive(cr.status, view, config.startupDeadline)))
  }

  // ---- commands ---------------------------------------------------------------------

  datatype Command = CancelCommand(grace: int) | AbandonCommand | UnknownCommand

  /** Recording a command twice is recording it once. */
  function Record(cr: Cr, command: Command, now: int): Cr {
    match command
    case CancelCommand(grace) =>
      if cr.cancel.Some? || cr.abandoned then cr else cr.(cancel := Some(Cancellation(now, grace)))
    case AbandonCommand => cr.(abandoned := true)
    case UnknownCommand => cr
  }

  function MarkAcknowledged(cr: Cr): Cr { cr.(acknowledged := true) }
}
