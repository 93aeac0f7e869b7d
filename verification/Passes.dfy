// What one pass of the reconciler decides, read off the object and the snapshot.
module Passes {
  import opened Wrappers
  import opened Phases
  import opened Report
  import opened Controller
  import opened Attempts

  /** The object is there, nobody took the run away, and its attempt is over. */
  predicate Over(cr: Cr) {
    && !cr.abandoned && cr.deletedAt.None? && cr.status.attempt >= 1
    && cr.status.phase in {Some(Phase.Succeeded), Some(Phase.Failed), Some(TimedOut), Some(Cancelled)}
  }

  /** The object is there, nobody took the run away, and its attempt goes on. */
  predicate GoesOn(cr: Cr) {
    && !cr.abandoned && cr.deletedAt.None? && Budgeted(cr)
    && cr.status.phase in {None, Some(Pending), Some(Starting), Some(Running)}
  }

  lemma OverLooksTheSame(cr: Cr, view: View, config: Config)
    requires Over(cr)
    ensures Looked(cr, view, config) == cr
  {}

  /** A new object: leased now, not confirmed, not taken away, and nothing seen, told or booked yet. */
  lemma MaterialisedIs(epoch: nat, maxInfraRetries: Option<int>, ttl: Option<int>, now: int)
    ensures var cr := Materialised(epoch, maxInfraRetries, ttl, now);
      && cr.epoch == epoch && cr.maxInfraRetries == maxInfraRetries && cr.ttl == ttl
      && cr.created == now && cr.leasedAt == Some(now)
      && cr.cancel.None? && !cr.abandoned && !cr.acknowledged && cr.deletedAt.None?
      && cr.status.attempt == 0 && cr.status.phase.None? && !cr.status.job && cr.status.infraRetries == 0
      && cr.status.exitCode.None? && cr.status.failure.None? && cr.status.finishedAt.None?
      && cr.status.nextAttemptAt.None? && cr.status.reported.attempt == 0 && cr.status.reported.phase.None? && !cr.status.reported.completion
      && !cr.status.resultReported && cr.status.relayed.None?
  {}

  // ---- retries ---------------------------------------------------------------------

  predicate RetriesLeft(cr: Cr) {
    cr.status.infraRetries < if cr.maxInfraRetries.Some? then cr.maxInfraRetries.value else 3
  }

  /** A failure of the platform, or of the git server, that nobody asked for, with retries left. */
  predicate Repairable(cr: Cr) {
    && cr.cancel.None? && cr.status.phase in {Some(Phase.Failed), Some(TimedOut)}
    && cr.status.failure in {Some(Infra), Some(Git)} && RetriesLeft(cr)
  }

  /**
   * Over an attempt that ended, with no retry booked yet, a pass books one
   * exactly when the failure is the platform's or the git server's, nobody asked
   * for the run to stop, and the budget is not used up. A booked retry spends
   * one of the budget and waits its pause; without one nothing is spent.
   */
  lemma RetryBookedIff(cr: Cr, view: View, config: Config)
    requires Over(cr) && cr.status.nextAttemptAt.None?
    ensures var next := Reconcile(cr, view, config).cr.status;
      && (next.nextAttemptAt.Some? <==> Repairable(cr))
      && next.infraRetries == cr.status.infraRetries + (if Repairable(cr) then 1 else 0)
      && (Repairable(cr) ==>
            && next == cr.status.(infraRetries := next.infraRetries, nextAttemptAt := next.nextAttemptAt)
            && 0 <= next.nextAttemptAt.value - view.now - RetryFloor(next.infraRetries) <= RetryFloor(next.infraRetries) / 10)
  {
    OverLooksTheSame(cr, view, config);
  }

  /** How an attempt can be seen to end that its container did not bring to an end itself. */
  predicate BrokenOff(status: AgentStatus, view: View) {
    var job := LiveJob(view.job);
    || (job.None? && status.job)
    || (job.Some? && job.value.failed == Some(OutOfTime))
    || (ContainerGoesOn(view) && view.pod.value.phase == PodFailed)
  }

  /**
   * Which endings are retried, from what the cluster shows: a container that
   * exited with 20 or 21, or was killed by a signal, and every attempt that was
   * broken off, as long as the budget lasts; no other exit code ever.
   */
  lemma RetriedIff(cr: Cr, view: View, config: Config, code: int)
    requires GoesOn(cr) && cr.cancel.None?
    ensures var booked := Reconcile(cr, view, config).cr.status.nextAttemptAt.Some?;
      && (ContainerEnded(view, code) ==> (booked <==> RetriesLeft(cr) && (code == 20 || code == 21 || code > 128)))
      && (BrokenOff(cr.status, view) ==> (booked <==> RetriesLeft(cr)))
      && (booked ==> RetriesLeft(cr) && Derive(cr.status, view, config.startupDeadline).phase in {Phase.Failed, TimedOut})
  {
    if ContainerEnded(view, code) { ExitIsClassified(cr.status, view, config.startupDeadline, code); }
    LookTakesWhatIsSeen(cr, view, config);
    var looked := Looked(cr, view, config);
    EndingIsClassified(cr.status, view, config.startupDeadline);
    if Over(looked) {
      RetryBookedIff(looked, view, config);
      OverLooksTheSame(looked, view, config);
      assert Reconcile(cr, view, config).cr == Acted(looked, view, config).cr == Reconcile(looked, view, config).cr;
    } else {
      EndedOrNot(looked, view, config);
    }
  }

  lemma EndedOrNot(cr: Cr, view: View, config: Config)
    requires Budgeted(cr) && !cr.status.Ended() && cr.status.phase.Some?
    ensures Acted(cr, view, config).cr.status.nextAttemptAt.None?
  {}

  /** What the exit codes of the agent image mean. */
  lemma ExitIsClassified(status: AgentStatus, view: View, startupDeadline: int, code: int)
    requires ContainerEnded(view, code)
    ensures var seen := Derive(status, view, startupDeadline);
      && (seen.phase == Phase.Succeeded <==> code == 0) && (seen.phase == TimedOut <==> code == 11)
      && seen.phase in {Phase.Succeeded, TimedOut, Phase.Failed}
      && seen.exitCode == Some(code) && seen.finishedAt == Some(view.pod.value.container.value.at)
      && (seen.failure == Some(NoFailure) <==> code == 0)
      && (seen.failure == Some(Git) <==> code == 20)
      && (seen.failure == Some(Infra) <==> code == 21 || code > 128)
      && (seen.failure == Some(FailureClass.Config) <==> code == 30)
      && (seen.failure == Some(Agent) <==> code <= 128 && code !in {0, 20, 21, 30})
  {}

  /** A pass takes what the table says, unless that is behind what the status already says. */
  lemma LookTakesWhatIsSeen(cr: Cr, view: View, config: Config)
    requires GoesOn(cr) && cr.cancel.None?
    ensures var seen, looked := Derive(cr.status, view, config.startupDeadline), Looked(cr, view, config);
      && looked == cr.(status := looked.status) && looked.status.attempt == (if cr.status.attempt == 0 then 1 else cr.status.attempt)
      && looked.status.infraRetries == cr.status.infraRetries && looked.status.nextAttemptAt.None?
      && (if (cr.status.phase == Some(Running) && seen.phase in {Pending, Starting})
             || (cr.status.phase == Some(Starting) && seen.phase == Pending)
          then looked.status.phase == cr.status.phase && looked.status.why == cr.status.why
          else && looked.status.phase == Some(seen.phase) && looked.status.why == seen.why
               && (seen.exitCode.Some? ==> looked.status.exitCode == seen.exitCode)
               && (seen.failure.Some? ==> looked.status.failure == seen.failure)
               && (seen.finishedAt.Some? ==> looked.status.finishedAt == seen.finishedAt))
  {
    DeriveIsKnown(cr.status, view, config.startupDeadline);
    LookAdvances(cr, view, config);
  }

  /** A booked retry waits for its time, and then starts the next attempt with nothing left of the last. */
  lemma BookedRetryStarts(cr: Cr, view: View, config: Config)
    requires Over(cr) && cr.status.nextAttemptAt.Some?
    ensures var pass := Reconcile(cr, view, config); var next := pass.cr.status;
      if cr.status.nextAttemptAt.value > view.now then pass.cr == cr && pass.sent == []
      else
        && next.attempt == cr.status.attempt + 1 && next.phase == Some(Pending) && next.why == AwaitingJob
        && next.exitCode.None? && next.failure.None? && next.finishedAt.None? && next.nextAttemptAt.None? && !next.job
        && next.infraRetries == cr.status.infraRetries
        && |pass.sent| == 1 && pass.sent[0].attempt == next.attempt && pass.sent[0].phase == Pending
  {
    OverLooksTheSame(cr, view, config);
  }

  // ---- the Job ----------------------------------------------------------------------

  /** There is no Job, none was ever recorded, and nobody asked for the run to stop. */
  predicate NeedsJob(cr: Cr, view: View) { GoesOn(cr) && cr.cancel.None? && !cr.status.job && view.job.None? }

  /** An unconfirmed lease is dropped, and its reports with it, exactly when its wait is over; it never has a Job. */
  lemma UnconfirmedIsDroppedIff(cr: Cr, view: View, config: Config)
    requires NeedsJob(cr, view) && !cr.acknowledged
    ensures var pass := Reconcile(cr, view, config);
      var since := if cr.leasedAt.Some? then cr.leasedAt.value else cr.created;
      && !pass.made && pass.cr.abandoned == cr.abandoned
      && (pass.forgot <==> view.now > since + config.ackWait)
      && pass.cr.deletedAt == (if view.now > since + config.ackWait then Some(view.now) else None)
  {
    LookTakesWhatIsSeen(cr, view, config);
  }

  function now(view: View): int { view.now }

  /**
   * A confirmed run without a Job gets one as soon as its secret is there and
   * its spec can be built: a new one, or the one that is there already if it is
   * this run's. A spec that cannot be built fails the run for good.
   */
  lemma JobIsMadeIff(cr: Cr, view: View, config: Config)
    requires NeedsJob(cr, view) && cr.acknowledged
    ensures var pass := Reconcile(cr, view, config); var next := pass.cr.status;
      && (pass.made <==> view.secret && view.buildable && view.creation == Created)
      && (next.job <==> view.secret && view.buildable && view.creation in {Created, Exists(true)})
      && (next.phase == Some(Phase.Failed) <==> view.secret && !view.buildable)
      && (next.phase == Some(Phase.Failed) ==>
            next.why == InvalidSpec && next.failure == Some(FailureClass.Config) && next.finishedAt == Some(view.now))
      && (pass.cr.abandoned <==> view.secret && view.lostOwnership)
      && pass.cr.deletedAt.None? && !pass.forgot && next.nextAttemptAt.None?
  {
    LookTakesWhatIsSeen(cr, view, config);
  }

  /** Nothing is gone before it is deleted, and its reports are kept at least as long, but for one never confirmed. */
  lemma KeptUntilDeleted(cr: Cr, view: View, config: Config)
    requires !cr.abandoned && cr.deletedAt.None?
    ensures var pass := Reconcile(cr, view, config);
      !pass.gone && (pass.forgot ==> pass.cr.deletedAt.Some? && !cr.acknowledged && !pass.cr.status.Ended())
  {}

  /** Somebody wants the run stopped: its Job is deleted, unless it is on its way out or the run ended by itself. */
  lemma JobIsStoppedIff(cr: Cr, view: View, config: Config)
    requires !cr.abandoned && cr.deletedAt.None?
    ensures Reconcile(cr, view, config).stopped <==>
      cr.cancel.Some? && view.job.Some? && !view.job.value.deleting && !EndedDeliberately(view)
  {
    DeliberateMeansOutranks(cr.status, view, config.startupDeadline);
  }

  // ---- the end of the object ----------------------------------------------------------

  /** The backend accepted the phase this attempt ended in, and the result if there was one to relay. */
  predicate Delivered(status: AgentStatus) {
    && status.reported.attempt == status.attempt && status.reported.phase == status.phase
    && (status.relayed.Some? ==> status.relayed.value) && (status.reported.completion || !status.resultReported)
  }

  /**
   * A run that is over, with nothing left to retry, is deleted exactly when its
   * outcome was delivered and it was kept for a day, or as long as its spec says;
   * or, delivered or not, a week after it ended, or after the configured ceiling.
   */
  lemma OverIsDeletedIff(cr: Cr, view: View, config: Config)
    requires Over(cr) && cr.status.nextAttemptAt.None?
    ensures var ended := if cr.status.finishedAt.Some? then cr.status.finishedAt.value else view.now;
      var kept := if cr.ttl.Some? then cr.ttl.value else 24 * 60 * 60;
      var ceiling := if config.hardTTL > 0 then config.hardTTL else 7 * 24 * 60 * 60;
      Reconcile(cr, view, config).cr.deletedAt ==
        if !Repairable(cr) && (view.now > ended + ceiling || (Delivered(cr.status) && ended + kept <= view.now))
        then Some(view.now) else None
  {
    OverLooksTheSame(cr, view, config);
  }

  /** How long the object of a deleted run waits for its pods. */
  function PodsMayTake(cr: Cr, config: Config): int {
    60 + if cr.cancel.Some? && cr.cancel.value.grace > 0 then cr.cancel.value.grace
         else if config.grace > 0 then config.grace else 60
  }

  /** A deleted object goes once no pod runs under it, or when they took too long; until then its Job is stopped. */
  lemma DeletedGoesIff(cr: Cr, view: View, config: Config)
    requires cr.deletedAt.Some?
    ensures var pass := Reconcile(cr, view, config);
      && (pass.gone <==> !view.livePods || view.now > cr.deletedAt.value + PodsMayTake(cr, config))
      && (!cr.abandoned ==> (pass.stopped <==> view.now <= cr.deletedAt.value + PodsMayTake(cr, config)))
      && pass.cr == cr && pass.sent == [] && !pass.made && (pass.forgot <==> cr.abandoned)
  {}

  /** A run that was taken away is deleted at once, and nothing more is said of it. */
  lemma AbandonedIsDeleted(cr: Cr, view: View, config: Config)
    requires cr.abandoned && cr.deletedAt.None?
    ensures var pass := Reconcile(cr, view, config);
      && pass.cr == cr.(deletedAt := Some(view.now)) && pass.sent == [] && !pass.made && pass.stopped && pass.forgot
      && (pass.gone <==> !view.livePods)
  {}

  // ---- commands ---------------------------------------------------------------------------

  datatype Order = Order(command: Command, at: int)

  function Ordered(cr: Cr, orders: seq<Order>): Cr
    decreases |orders|
  {
    if orders == [] then cr else Ordered(Record(cr, orders[0].command, orders[0].at), orders[1..])
  }

  /** The first cancellation, unless the run was taken away before it. */
  function FirstCancel(orders: seq<Order>): Option<Cancellation> {
    if orders == [] then None
    else match orders[0].command
      case CancelCommand(grace) => Some(Cancellation(orders[0].at, grace))
      case AbandonCommand => None
      case UnknownCommand => FirstCancel(orders[1..])
  }

  /**
   * Of any number of commands, in any order and however often each is repeated,
   * the object keeps whether it was taken away, and the first cancellation if
   * that came before.
   */
  lemma {:induction false} CommandsAreKept(cr: Cr, orders: seq<Order>)
    ensures var next := Ordered(cr, orders);
      && next == cr.(cancel := next.cancel, abandoned := next.abandoned)
      && (next.abandoned <==> cr.abandoned || exists o | o in orders :: o.command == AbandonCommand)
      && next.cancel == if cr.cancel.Some? || cr.abandoned then cr.cancel else FirstCancel(orders)
    decreases |orders|
  {
    if orders != [] {
      CommandsAreKept(Record(cr, orders[0].command, orders[0].at), orders[1..]);
      assert forall o :: o in orders <==> o == orders[0] || o in orders[1..];
    }
  }
}
