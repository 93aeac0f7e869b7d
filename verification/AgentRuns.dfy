// controller/agentrun as it runs: the object is read, and patched field by field.
//
// Every method is proved to leave the AgentRun and the reporter's queue exactly
// as the functions of Controller say. One queue stands for what the reporter
// holds about this run.
module AgentRuns {
  import opened Wrappers
  import opened Phases
  import opened Report
  import opened Controller

  class AgentRun {
    const epoch: nat
    const maxInfraRetries: Option<int>
    const ttl: Option<int>
    const created: int
    const leasedAt: Option<int>
    var cancel: Option<Cancellation>
    var abandoned: bool
    var acknowledged: bool
    var deletedAt: Option<int>
    var status: AgentStatus

    function Value(): Cr
      reads this
    {
      Cr(epoch, maxInfraRetries, ttl, created, leasedAt, cancel, abandoned, acknowledged, deletedAt, status)
    }

    constructor (epoch: nat, maxInfraRetries: Option<int>, ttl: Option<int>, now: int)
      ensures Value() == Materialised(epoch, maxInfraRetries, ttl, now)
    {
      this.epoch, this.maxInfraRetries, this.ttl := epoch, maxInfraRetries, ttl;
      created, leasedAt := now, Some(now);
      cancel, abandoned, acknowledged, deletedAt := None, false, false, None;
      status := FreshStatus;
    }

    method Record(command: Command, now: int)
      modifies this
      ensures Value() == Controller.Record(old(Value()), command, now)
    {
      match command {
        case CancelCommand(grace) =>
          if cancel.Some? || abandoned { return; }
          cancel := Some(Cancellation(now, grace));
        case AbandonCommand =>
          if abandoned { return; }
          abandoned := true;
        case UnknownCommand =>
      }
    }

    method MarkAcknowledged()
      modifies this
      ensures Value() == Controller.MarkAcknowledged(old(Value()))
    {
      if acknowledged { return; }
      acknowledged := true;
    }
  }

  class Reconciler {
    const config: Config
    var queue: seq<Observation>

    constructor (config: Config)
      ensures this.config == config && queue == []
    {
      this.config, queue := config, [];
    }

    method Notify(cr: AgentRun)
      requires cr.status.phase.Some?
      modifies this
      ensures queue == old(queue) + if cr.abandoned then [] else [ObservationFor(cr.Value())]
    {
      if cr.abandoned { return; }
      queue := queue + [ObservationFor(cr.Value())];
    }

    /** Commands first, then deletion; then the cluster is observed, folded into the status, and acted on. */
    method Reconcile(cr: AgentRun, view: View) returns (made: bool, stopped: bool, gone: bool)
      modifies this, cr
      ensures var pass := Controller.Reconcile(old(cr.Value()), view, config);
        && cr.Value() == pass.cr
        && queue == (if pass.forgot then [] else old(queue) + pass.sent)
        && (made, stopped, gone) == (pass.made, pass.stopped, pass.gone)
    {
      if cr.abandoned {
        gone := Abandon(cr, view);
        return false, true, gone;
      }
      if cr.deletedAt.Some? {
        stopped, gone := Finalize(cr, view);
        return false, stopped, gone;
      }
      stopped := Observe(cr, view);
      made := Act(cr, view);
      gone := false;
    }

    /** What the cluster shows goes into the status, and a change of status to the backend. */
    method Observe(cr: AgentRun, view: View) returns (stopped: bool)
      modifies this, cr
      ensures cr.Value() == Looked(old(cr.Value()), view, config)
      ensures queue == old(queue)
        + if cr.status != old(cr.status) && !cr.abandoned then [ObservationFor(cr.Value())] else []
      ensures stopped == (cr.cancel.Some? && StopsJob(view, Derive(old(cr.status), view, config.startupDeadline)))
    {
      var attempt := CurrentAttempt(cr.status);
      var obs := Derive(cr.status, view, config.startupDeadline);
      stopped := false;
      if cr.cancel.Some? {
        obs, stopped := CancelIn(cr, view, obs);
      }
      obs := Monotonic(cr.status, attempt, obs);
      var changed := ApplyObservation(cr, attempt, obs);
      if changed {
        Notify(cr);
      }
    }

    method Act(cr: AgentRun, view: View) returns (made: bool)
      requires cr.status.phase.Some?
      modifies this, cr
      ensures var pass := Acted(old(cr.Value()), view, config);
        && cr.Value() == pass.cr && made == pass.made && !pass.gone
        && queue == (if pass.forgot then [] else old(queue) + pass.sent)
    {
      if cr.status.Ended() {
        HandleTerminal(cr, view);
        return false;
      }
      if view.job.Some? { return false; }
      if !cr.acknowledged {
        AwaitAck(cr, view);
        return false;
      }
      made := EnsureJob(cr, view);
    }

    method Abandon(cr: AgentRun, view: View) returns (gone: bool)
      requires cr.abandoned
      modifies this, cr
      ensures cr.Value() == DeleteRun(old(cr.Value()), view.now) && queue == []
      ensures gone == Controller.Finalize(DeleteRun(old(cr.Value()), view.now), view, config).gone
    {
      queue := [];
      if cr.deletedAt.None? {
        cr.deletedAt := Some(view.now);
      }
      var stopped;
      stopped, gone := Finalize(cr, view);
    }

    method Finalize(cr: AgentRun, view: View) returns (stopped: bool, gone: bool)
      requires cr.deletedAt.Some?
      ensures var pass := Controller.Finalize(cr.Value(), view, config);
        (stopped, gone) == (pass.stopped, pass.gone)
    {
      var grace := config.grace;
      if cr.cancel.Some? && cr.cancel.value.grace > 0 {
        grace := cr.cancel.value.grace;
      }
      if grace <= 0 {
        grace := 60;
      }
      if view.now > cr.deletedAt.value + grace + 60 {
        return false, true;
      }
      return true, !view.livePods;
    }

    /** Deletes the Job, and calls the run cancelled once its pod can no longer end it otherwise. */
    method CancelIn(cr: AgentRun, view: View, seen: Sighting) returns (obs: Sighting, stopped: bool)
      requires cr.cancel.Some?
      ensures obs == ApplyCancel(cr.cancel.value, view, seen, config.grace) && stopped == StopsJob(view, seen)
    {
      if OutranksCancellation(seen) { return seen, false; }
      stopped := view.job.Some? && !view.job.value.deleting;
      if view.pod.Some? && !view.pod.value.deleting { return seen, stopped; }
      if view.pod.Some? && view.pod.value.deleting && !CancelDeadlinePassed(cr.cancel.value, config.grace, view.now) {
        return seen, stopped;
      }
      obs := seen.(phase := Cancelled, why := CancelledOnRequest, failure := Some(NoFailure));
      if obs.finishedAt.None? {
        obs := obs.(finishedAt := Some(view.now));
      }
    }

    method ApplyObservation(cr: AgentRun, attempt: nat, obs: Sighting) returns (changed: bool)
      modifies cr
      ensures cr.Value() == old(cr.Value()).(status := Folded(old(cr.status), attempt, obs))
      ensures cr.status.attempt == attempt && cr.status.phase == Some(obs.phase) && cr.status.why == obs.why
      ensures cr.status.exitCode == if obs.exitCode.Some? then obs.exitCode else old(cr.status.exitCode)
      ensures cr.status.failure == if obs.failure.Some? then obs.failure else old(cr.status.failure)
      ensures cr.status.finishedAt == if obs.finishedAt.Some? then obs.finishedAt else old(cr.status.finishedAt)
      ensures changed == (cr.status != old(cr.status))
    {
      var before := cr.status;
      cr.status := cr.status.(attempt := attempt, phase := Some(obs.phase), why := obs.why);
      if obs.finishedAt.Some? { cr.status := cr.status.(finishedAt := obs.finishedAt); }
      if obs.exitCode.Some? { cr.status := cr.status.(exitCode := obs.exitCode); }
      if obs.failure.Some? { cr.status := cr.status.(failure := obs.failure); }
      changed := before != cr.status;
    }

    method HandleTerminal(cr: AgentRun, view: View)
      requires cr.status.phase.Some?
      modifies this, cr
      ensures var pass := Controller.HandleTerminal(old(cr.Value()), view, config);
        cr.Value() == pass.cr && queue == old(queue) + pass.sent && !pass.forgot && !pass.made && !pass.gone
    {
      if ShouldRetry(cr.Value()) {
        var retries := cr.status.infraRetries + 1;
        cr.status := cr.status.(infraRetries := retries);
        cr.status := cr.status.(nextAttemptAt := Some(view.now + RetryDelay(retries, view.jitter)));
      } else if cr.status.nextAttemptAt.Some? {
        if cr.status.nextAttemptAt.value <= view.now {
          StartNext(cr);
        }
      } else {
        ReapRun(cr, view);
      }
    }

    /** Raises the attempt and clears the observations of the one that failed. */
    method StartNext(cr: AgentRun)
      modifies this, cr
      ensures cr.Value() == StartNextAttempt(old(cr.Value()))
      ensures queue == old(queue) + Telling(cr.Value()).sent
    {
      var next := cr.status.attempt + 1;
      cr.status := cr.status.(attempt := next, phase := Some(Pending), why := AwaitingJob);
      cr.status := cr.status.(exitCode := None, failure := None, finishedAt := None);
      cr.status := cr.status.(job := false, nextAttemptAt := None);
      Notify(cr);
    }

    method ReapRun(cr: AgentRun, view: View)
      modifies cr
      ensures cr.Value() == Reap(old(cr.Value()), view, config).cr
    {
      var finished := view.now;
      if cr.status.finishedAt.Some? { finished := cr.status.finishedAt.value; }
      if view.now > finished + HardTtl(config) {
        Delete(cr, view.now);
        return;
      }
      if !ReportSettled(cr.status) { return; }
      if finished + Ttl(cr.Value()) - view.now > 0 { return; }
      Delete(cr, view.now);
    }

    method Delete(cr: AgentRun, now: int)
      modifies cr
      ensures cr.Value() == DeleteRun(old(cr.Value()), now)
    {
      if cr.deletedAt.Some? { return; }
      cr.deletedAt := Some(now);
    }

    method AwaitAck(cr: AgentRun, view: View)
      modifies this, cr
      ensures var pass := Controller.AwaitAck(old(cr.Value()), view, config);
        cr.Value() == pass.cr && queue == (if pass.forgot then [] else old(queue)) && pass.sent == []
    {
      var since := cr.created;
      if cr.leasedAt.Some? { since := cr.leasedAt.value; }
      if view.now > since + config.ackWait {
        queue := [];
        Delete(cr, view.now);
      }
    }

    /** Creates the Job of the current attempt if it is not there yet. */
    method EnsureJob(cr: AgentRun, view: View) returns (made: bool)
      requires cr.status.phase.Some?
      modifies this, cr
      ensures var pass := Controller.EnsureJob(old(cr.Value()), view);
        cr.Value() == pass.cr && queue == old(queue) + pass.sent && made == pass.made && !pass.forgot && !pass.gone
    {
      if cr.status.nextAttemptAt.Some? && cr.status.nextAttemptAt.value > view.now { return false; }
      if !view.secret { return false; }
      if view.lostOwnership {
        cr.Record(AbandonCommand, view.now);
      }
      if !view.buildable {
        cr.status := cr.status.(phase := Some(Failed), why := InvalidSpec);
        cr.status := cr.status.(failure := Some(Phases.Config), finishedAt := Some(view.now));
        Notify(cr);
        return false;
      }
      if view.creation.Exists? && !view.creation.usable { return false; }
      made := view.creation.Created?;
      cr.status := cr.status.(job := true, nextAttemptAt := None);
    }
  }
}
