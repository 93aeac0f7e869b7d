// What one AgentRun reports and starts over its whole life.
module Attempts {
  import opened Numbers
  import opened Wrappers
  import opened Phases
  import opened Report
  import opened Controller

  /** The object, everything it ever told the backend, and every attempt whose Job it created. */
  datatype Log = Log(cr: Cr, sent: seq<Observation>, made: set<nat>)

  datatype Step =
    | Reconciling(view: View)
    | Commanding(command: Command, now: int)
    | Confirming
    | Settling(reported: Delivery, resultReported: bool, relayed: Option<bool>)
    | Beating

  predicate Reports(cr: Cr) { !cr.abandoned && cr.status.phase.Some? }

  /** One thing happens to the object; Settling is the reporter's bookkeeping, Beating a heartbeat. */
  function After(log: Log, step: Step, config: Config): Log {
    match step
    case Reconciling(view) =>
      var pass := Reconcile(log.cr, view, config);
      Log(pass.cr, log.sent + pass.sent, if pass.made then log.made + {pass.cr.status.attempt} else log.made)
    case Commanding(command, now) => log.(cr := Record(log.cr, command, now))
    case Confirming => log.(cr := MarkAcknowledged(log.cr))
    case Settling(reported, resultReported, relayed) =>
      log.(cr := log.cr.(status := log.cr.status.(reported := reported, resultReported := resultReported,
                                                  relayed := relayed)))
    case Beating => if Reports(log.cr) then log.(sent := log.sent + [ObservationFor(log.cr)]) else log
  }

  function Life(log: Log, steps: seq<Step>, config: Config): Log
    decreases |steps|
  {
    if steps == [] then log else Life(After(log, steps[0], config), steps[1..], config)
  }

  // ---- the invariant --------------------------------------------------------------

  function Here(status: AgentStatus): Position { Position(status.attempt, RankOf(status.phase)) }

  function AttemptsAllowed(cr: Cr): int { if MaxInfraRetries(cr) < 0 then 1 else 1 + MaxInfraRetries(cr) }

  /** The retry budget: an attempt exists for every retry booked, but the one still waiting. */
  predicate Budgeted(cr: Cr) {
    var s := cr.status;
    && s.infraRetries <= AttemptsAllowed(cr) - 1
    && (s.nextAttemptAt.Some? ==> s.Ended())
    && if s.attempt == 0 then s.phase.None? && !s.job && s.infraRetries == 0
       else RankOf(s.phase) > 0 && s.attempt + (if s.nextAttemptAt.Some? then 1 else 0) == 1 + s.infraRetries
  }

  /** a was sent before b: no further on, and of one position they report one phase. */
  predicate InOrder(a: Observation, b: Observation) {
    At(a).AtMost(At(b)) && (At(a) == At(b) ==> a.phase == b.phase)
  }

  /** What was sent is ordered, and nothing sent is ahead of the status. */
  predicate Ordered(log: Log) {
    && (forall i, j | 0 <= i < j < |log.sent| :: InOrder(log.sent[i], log.sent[j]))
    && (forall o | o in log.sent :: Behind(o, log.cr))
  }

  predicate Behind(o: Observation, cr: Cr) {
    && o.epoch == cr.epoch && o.attempt >= 1 && o.phase.Rank() > 0
    && At(o).AtMost(Here(cr.status))
    && (At(o) == Here(cr.status) ==> Some(o.phase) == cr.status.phase)
  }

  /** This report says everything the status says of its attempt. */
  predicate Tells(o: Observation, status: AgentStatus) {
    && o.attempt == status.attempt && Some(o.phase) == status.phase && o.reason == Some(Seen(status.why))
    && o.exitCode == status.exitCode && o.failureClass == status.failure && (o.finished <==> status.finishedAt.Some?)
  }

  /** The newest report is the status, unless the run was taken away. */
  predicate Told(log: Log) {
    log.cr.status.attempt >= 1 && !log.cr.abandoned ==>
      log.sent != [] && Tells(log.sent[|log.sent| - 1], log.cr.status)
  }

  /** Nothing a report says has changed. */
  predicate SaysNothingNew(a: AgentStatus, b: AgentStatus) {
    && b.attempt == a.attempt && b.phase == a.phase && b.why == a.why && b.exitCode == a.exitCode
    && b.failure == a.failure && b.finishedAt == a.finishedAt
  }

  /** One Job an attempt, and none before the lease was confirmed. */
  predicate Started(log: Log) {
    && (forall a | a in log.made :: 1 <= a <= log.cr.status.attempt)
    && (log.cr.status.attempt in log.made && !log.cr.status.Ended() ==> log.cr.status.job)
    && (log.made != {} ==> log.cr.acknowledged)
  }

  predicate Sound(log: Log) {
    Budgeted(log.cr) && Ordered(log) && Told(log) && Started(log)
  }

  // ---- each half of a pass keeps it --------------------------------------------------

  /** cr became next: the budget holds, the status moved on, and nothing of an attempt was forgotten. */
  predicate Advances(cr: Cr, next: Cr) {
    && Budgeted(next) && next.epoch == cr.epoch && next.acknowledged == cr.acknowledged
    && next.status.attempt >= 1 && (cr.abandoned ==> next.abandoned)
    && Here(cr.status).AtMost(Here(next.status))
    && (Here(cr.status) == Here(next.status) ==> next.status.phase == cr.status.phase)
    && (cr.status.attempt == next.status.attempt && cr.status.job ==> next.status.job)
  }

  /** The table only answers phases a report may carry, and never Cancelled. */
  lemma DeriveIsKnown(status: AgentStatus, view: View, startupDeadline: int)
    ensures Derive(status, view, startupDeadline).phase in {Pending, Starting, Running, Succeeded, Failed, TimedOut}
  {}

  /** Looking keeps the attempt, never takes a phase back, and leaves a final one alone. */
  lemma LookAdvances(cr: Cr, view: View, config: Config)
    requires Budgeted(cr)
    ensures var next := Looked(cr, view, config);
      && next == cr.(status := next.status) && next.status.attempt == CurrentAttempt(cr.status)
      && next.status.job == cr.status.job && Advances(cr, next)
  {
    DeriveIsKnown(cr.status, view, config.startupDeadline);
    var seen := Seeing(cr, view, config);
    assert seen.phase.Rank() > 0;
    if cr.status.attempt >= 1 && seen.phase.Rank() == RankOf(cr.status.phase) < 40 {
      SameRankSamePhase(seen.phase, cr.status.phase.value);
    }
  }

  /** Acting moves on as well, tells every move it makes, and creates a Job once. */
  lemma ActAdvances(cr: Cr, view: View, config: Config)
    requires Budgeted(cr) && cr.status.attempt >= 1
    requires view.job.None? && cr.status.job ==> cr.status.Ended()
    ensures var pass := Acted(cr, view, config); var next := pass.cr;
      && Advances(cr, next)
      && (if pass.sent == [] then SaysNothingNew(cr.status, next.status) || next.abandoned
          else pass.sent == [ObservationFor(next)])
      && (pass.made ==> cr.acknowledged && !cr.status.job && next.status.job && next.status.attempt == cr.status.attempt)
      && (pass.made ==> !cr.status.Ended())
  {
    if cr.status.Ended() {
      TerminalAdvances(cr, view, config);
    } else if view.job.None? && cr.acknowledged {
      EnsureAdvances(cr, view);
    }
  }

  /** Over an ended attempt the next one starts, and is told, or nothing a report says changes. */
  lemma TerminalAdvances(cr: Cr, view: View, config: Config)
    requires Budgeted(cr) && cr.status.attempt >= 1 && cr.status.Ended()
    ensures var pass := HandleTerminal(cr, view, config); var next := pass.cr;
      && Advances(cr, next) && !pass.made
      && (if pass.sent == [] then SaysNothingNew(cr.status, next.status) || next.abandoned
          else pass.sent == [ObservationFor(next)])
  {}

  lemma EnsureAdvances(cr: Cr, view: View)
    requires Budgeted(cr) && cr.status.attempt >= 1 && !cr.status.Ended() && !cr.status.job
    ensures var pass := EnsureJob(cr, view); var next := pass.cr;
      && Advances(cr, next)
      && (if pass.sent == [] then SaysNothingNew(cr.status, next.status) || next.abandoned
          else pass.sent == [ObservationFor(next)])
      && (pass.made ==> next.status.job && next.status.attempt == cr.status.attempt)
  {}

  /** Reporting a position at or past everything sent keeps the order. */
  lemma SendingKeeps(log: Log, cr: Cr)
    requires Ordered(log) && Advances(log.cr, cr)
    ensures Ordered(log.(cr := cr))
    ensures Ordered(log.(cr := cr, sent := log.sent + [ObservationFor(cr)]))
    ensures Told(log.(cr := cr, sent := log.sent + [ObservationFor(cr)]))
  {
    forall o | o in log.sent ensures Behind(o, cr) && InOrder(o, ObservationFor(cr)) {
      assert Behind(o, log.cr);
    }
  }

  /** An advance that is told, or moves nothing that would need telling, keeps the log sound. */
  lemma AdvanceKeeps(log: Log, cr: Cr, sent: seq<Observation>)
    requires Sound(log) && Advances(log.cr, cr)
    requires sent == [] ==> cr.abandoned || (log.cr.status.attempt >= 1 && SaysNothingNew(log.cr.status, cr.status))
    requires sent != [] ==> sent == [ObservationFor(cr)]
    ensures Sound(Log(cr, log.sent + sent, log.made))
  {
    SendingKeeps(log, cr);
    if sent == [] { assert log.sent + sent == log.sent; }
    assert cr.status.attempt in log.made && !cr.status.Ended() ==> log.cr.status.attempt == cr.status.attempt;
  }

  lemma LookKeeps(log: Log, view: View, config: Config)
    requires Sound(log)
    ensures var cr := Looked(log.cr, view, config);
      Sound(Log(cr, log.sent + (if cr.status != log.cr.status then [ObservationFor(cr)] else []), log.made))
  {
    LookAdvances(log.cr, view, config);
    var cr := Looked(log.cr, view, config);
    AdvanceKeeps(log, cr, if cr.status != log.cr.status then [ObservationFor(cr)] else []);
  }

  lemma ActKeeps(log: Log, view: View, config: Config)
    requires Sound(log) && log.cr.status.attempt >= 1
    requires view.job.None? && log.cr.status.job ==> log.cr.status.Ended()
    ensures var pass := Acted(log.cr, view, config);
      && Sound(Log(pass.cr, log.sent + pass.sent, if pass.made then log.made + {pass.cr.status.attempt} else log.made))
      && (pass.made ==> log.cr.acknowledged && pass.cr.status.attempt !in log.made)
  {
    ActAdvances(log.cr, view, config);
    var pass := Acted(log.cr, view, config);
    AdvanceKeeps(log, pass.cr, pass.sent);
  }

  /** A Job that vanished, or was never there, under a status that names one, is an ending. */
  lemma VanishedJobEnds(cr: Cr, view: View, config: Config)
    requires Budgeted(cr) && view.job.None? && cr.status.job
    ensures Looked(cr, view, config).status.Ended()
  {}

  lemma ReconcileKeeps(log: Log, view: View, config: Config)
    requires Sound(log)
    ensures Sound(After(log, Reconciling(view), config))
    ensures Reconcile(log.cr, view, config).made ==>
      log.cr.acknowledged && Reconcile(log.cr, view, config).cr.status.attempt !in log.made
  {
    if log.cr.abandoned || log.cr.deletedAt.Some? {
      assert log.sent + [] == log.sent;
    } else {
      var cr := Looked(log.cr, view, config);
      var told := if cr.status != log.cr.status then [ObservationFor(cr)] else [];
      LookKeeps(log, view, config);
      LookAdvances(log.cr, view, config);
      if view.job.None? && cr.status.job { VanishedJobEnds(log.cr, view, config); }
      var looked := Log(cr, log.sent + told, log.made);
      ActKeeps(looked, view, config);
      PassIsBothHalves(log, view, config);
    }
  }

  lemma PassIsBothHalves(log: Log, view: View, config: Config)
    requires !log.cr.abandoned && log.cr.deletedAt.None?
    ensures var cr := Looked(log.cr, view, config);
      var told := log.sent + (if cr.status != log.cr.status then [ObservationFor(cr)] else []);
      var pass := Acted(cr, view, config);
      && After(log, Reconciling(view), config)
           == Log(pass.cr, told + pass.sent, if pass.made then log.made + {pass.cr.status.attempt} else log.made)
      && Reconcile(log.cr, view, config).made == pass.made && Reconcile(log.cr, view, config).cr == pass.cr
  {
    var cr := Looked(log.cr, view, config);
    var told := if cr.status != log.cr.status then [ObservationFor(cr)] else [];
    assert (log.sent + told) + Acted(cr, view, config).sent == log.sent + (told + Acted(cr, view, config).sent);
  }

  /** Notes on the object that leave its progress alone. */
  lemma NotedKeeps(log: Log, cr: Cr)
    requires Sound(log)
    requires cr == log.cr.(cancel := cr.cancel, abandoned := cr.abandoned, acknowledged := cr.acknowledged, status :=
      log.cr.status.(reported := cr.status.reported, resultReported := cr.status.resultReported, relayed := cr.status.relayed))
    requires (log.cr.abandoned ==> cr.abandoned) && (log.cr.acknowledged ==> cr.acknowledged)
    ensures Sound(log.(cr := cr))
  {
    assert forall o | o in log.sent :: Behind(o, log.cr) ==> Behind(o, cr);
  }

  lemma OthersKeep(log: Log, step: Step, config: Config)
    requires Sound(log) && !step.Reconciling?
    ensures Sound(After(log, step, config))
  {
    if step.Beating? {
      if Reports(log.cr) { SendingKeeps(log, log.cr); }
    } else {
      NotedKeeps(log, After(log, step, config).cr);
    }
  }

  lemma StepKeepsSound(log: Log, step: Step, config: Config)
    requires Sound(log)
    ensures Sound(After(log, step, config))
  {
    if step.Reconciling? { ReconcileKeeps(log, step.view, config); } else { OthersKeep(log, step, config); }
  }

  lemma {:induction false} SoundAlways(log: Log, steps: seq<Step>, config: Config)
    requires Sound(log)
    ensures Sound(Life(log, steps, config))
    decreases |steps|
  {
    if steps != [] {
      StepKeepsSound(log, steps[0], config);
      SoundAlways(After(log, steps[0], config), steps[1..], config);
    }
  }

  // ---- over a whole life ---------------------------------------------------------------

  function Born(epoch: nat, maxInfraRetries: Option<int>, ttl: Option<int>, now: int): Log {
    Log(Materialised(epoch, maxInfraRetries, ttl, now), [], {})
  }

  /** What a step never changes of the object. */
  predicate SameSpec(a: Cr, b: Cr) {
    a.epoch == b.epoch && a.maxInfraRetries == b.maxInfraRetries && (a.acknowledged ==> b.acknowledged)
    && (a.cancel.Some? ==> b.cancel == a.cancel)
  }

  lemma PassKeepsSpec(cr: Cr, view: View, config: Config)
    ensures SameSpec(cr, Reconcile(cr, view, config).cr)
  {}

  lemma {:induction false} LifeKeepsSpec(log: Log, steps: seq<Step>, config: Config)
    ensures SameSpec(log.cr, Life(log, steps, config).cr)
    ensures Life(log, steps, config).cr.acknowledged ==> log.cr.acknowledged || Confirming in steps
    decreases |steps|
  {
    if steps != [] {
      if steps[0].Reconciling? {
        PassKeepsSpec(log.cr, steps[0].view, config);
        PassNeverConfirms(log.cr, steps[0].view, config);
      }
      LifeKeepsSpec(After(log, steps[0], config), steps[1..], config);
    }
  }

  lemma PassNeverConfirms(cr: Cr, view: View, config: Config)
    ensures Reconcile(cr, view, config).cr.acknowledged == cr.acknowledged
  {}

  lemma {:induction false} CountUpTo(made: set<nat>, n: nat)
    requires forall a | a in made :: 1 <= a <= n
    ensures |made| <= n
  {
    if n == 0 {
      assert made == {};
    } else {
      CountUpTo(made - {n}, n - 1);
    }
  }

  /**
   * Whatever the cluster shows and whenever the controller restarts: the reports
   * of one ownership are in order, an attempt ends in one way, there are at most
   * 1 + maxInfraRetries attempts with at most one Job each, no Job exists before
   * the lease was confirmed, and the newest report says what the status says.
   */
  lemma WholeLife(epoch: nat, maxInfraRetries: Option<int>, ttl: Option<int>, now: int, steps: seq<Step>, config: Config)
    ensures var log := Life(Born(epoch, maxInfraRetries, ttl, now), steps, config);
      var allowed := AttemptsAllowed(Materialised(epoch, maxInfraRetries, ttl, now));
      && (forall i, j | 0 <= i < j < |log.sent| :: At(log.sent[i]).AtMost(At(log.sent[j])))
      && (forall i, j | 0 <= i < |log.sent| && 0 <= j < |log.sent| && log.sent[i].attempt == log.sent[j].attempt
            && log.sent[i].phase.IsTerminal() && log.sent[j].phase.IsTerminal() :: log.sent[i].phase == log.sent[j].phase)
      && (forall o | o in log.sent :: 1 <= o.attempt <= allowed && o.epoch == epoch)
      && |log.made| <= allowed
      && (log.made != {} ==> Confirming in steps)
      && (log.cr.status.attempt >= 1 && !log.cr.abandoned ==>
            log.sent != [] && Tells(log.sent[|log.sent| - 1], log.cr.status))
  {
    var born := Born(epoch, maxInfraRetries, ttl, now);
    var log := Life(born, steps, config);
    SoundAlways(born, steps, config);
    LifeKeepsSpec(born, steps, config);
    CountUpTo(log.made, log.cr.status.attempt);
    forall o | o in log.sent ensures 1 <= o.attempt <= AttemptsAllowed(log.cr) && o.epoch == epoch {
      assert Behind(o, log.cr);
    }
    if log.sent != [] { assert Behind(log.sent[|log.sent| - 1], log.cr); }
  }

  // ---- cancellation -----------------------------------------------------------------------

  /** Once a cancel is recorded no retry is booked. */
  lemma PassBooksNothing(cr: Cr, view: View, config: Config)
    requires cr.cancel.Some?
    ensures var next := Reconcile(cr, view, config).cr.status;
      && next.infraRetries == cr.status.infraRetries
      && (next.nextAttemptAt.Some? ==> cr.status.nextAttemptAt.Some?)
  {}

  /** A cancelled run books no retry, so at most the one already waiting still starts. */
  lemma {:induction false} NoRetryAfterCancel(log: Log, steps: seq<Step>, config: Config)
    requires Sound(log) && log.cr.cancel.Some?
    ensures var status := Life(log, steps, config).cr.status;
      && status.infraRetries == log.cr.status.infraRetries
      && status.attempt <= 1 + log.cr.status.infraRetries
    decreases |steps|
  {
    if steps != [] {
      StepKeepsSound(log, steps[0], config);
      if steps[0].Reconciling? {
        PassBooksNothing(log.cr, steps[0].view, config);
        PassKeepsSpec(log.cr, steps[0].view, config);
      }
      NoRetryAfterCancel(After(log, steps[0], config), steps[1..], config);
    }
  }

  /** The outcome of an attempt that ended: phase, exit code, class and reason. */
  predicate SameOutcome(a: AgentStatus, b: AgentStatus) {
    a.phase == b.phase && a.exitCode == b.exitCode && a.failure == b.failure && a.why == b.why
  }

  lemma PassKeepsOutcome(cr: Cr, view: View, config: Config)
    requires Budgeted(cr) && cr.status.Ended()
    ensures var next := Reconcile(cr, view, config).cr.status;
      && ((SameOutcome(cr.status, next) && next.attempt == cr.status.attempt) || next.attempt == cr.status.attempt + 1)
      && (cr.status.nextAttemptAt.None? ==> next.attempt == cr.status.attempt)
  {}

  /** An attempt's outcome is final: later passes, commands and cancellations leave it or start another attempt. */
  lemma {:induction false} OutcomeIsFinal(log: Log, steps: seq<Step>, config: Config)
    requires Sound(log) && log.cr.status.Ended()
    ensures var status := Life(log, steps, config).cr.status;
      status.attempt > log.cr.status.attempt || (status.attempt == log.cr.status.attempt && SameOutcome(log.cr.status, status))
    decreases |steps|
  {
    if steps != [] {
      var next := After(log, steps[0], config);
      StepKeepsSound(log, steps[0], config);
      if steps[0].Reconciling? { PassKeepsOutcome(log.cr, steps[0].view, config); }
      if next.cr.status.attempt == log.cr.status.attempt {
        OutcomeIsFinal(next, steps[1..], config);
      } else {
        AttemptsOnlyRise(next, steps[1..], config);
      }
    }
  }

  lemma {:induction false} AttemptsOnlyRise(log: Log, steps: seq<Step>, config: Config)
    requires Sound(log)
    ensures Here(log.cr.status).AtMost(Here(Life(log, steps, config).cr.status))
    decreases |steps|
  {
    if steps != [] {
      StepKeepsSound(log, steps[0], config);
      if steps[0].Reconciling? { PassMovesOn(log.cr, steps[0].view, config); }
      AttemptsOnlyRise(After(log, steps[0], config), steps[1..], config);
    }
  }

  lemma PassMovesOn(cr: Cr, view: View, config: Config)
    requires Budgeted(cr)
    ensures Here(cr.status).AtMost(Here(Reconcile(cr, view, config).cr.status))
  {
    if !cr.abandoned && cr.deletedAt.None? {
      LookAdvances(cr, view, config);
      var looked := Looked(cr, view, config);
      if view.job.None? && looked.status.job { VanishedJobEnds(cr, view, config); }
      ActAdvances(looked, view, config);
    }
  }

  /** An exit the container reached on its own, in the snapshot of one pass. */
  predicate ExitedDeliberately(view: View, code: int) {
    && LiveJob(view.job).Some? && LiveJob(view.job).value.failed != Some(OutOfTime)
    && view.pod.Some? && view.pod.value.container.Some?
    && view.pod.value.container.value.Terminated? && view.pod.value.container.value.exitCode == code <= 128
  }

  /**
   * A deliberate exit seen before any ending is the attempt's outcome, cancelled
   * or not, and nothing that happens afterwards overwrites it.
   */
  lemma DeliberateExitStands(log: Log, view: View, code: int, steps: seq<Step>, config: Config)
    requires Sound(log) && !log.cr.abandoned && log.cr.deletedAt.None? && !log.cr.status.Ended()
    requires ExitedDeliberately(view, code)
    ensures var status := Life(log, [Reconciling(view)] + steps, config).cr.status;
      status.attempt > CurrentAttempt(log.cr.status)
      || (status.phase == Some(PhaseForExitCode(code)) && status.exitCode == Some(code)
          && status.failure == Some(FailureClassForExitCode(code)))
  {
    var all := [Reconciling(view)] + steps;
    assert all[1..] == steps;
    var next := After(log, all[0], config);
    StepKeepsSound(log, all[0], config);
    ExitIsSeen(log.cr, view, code, config);
    OutcomeIsFinal(next, steps, config);
  }

  lemma ExitIsSeen(cr: Cr, view: View, code: int, config: Config)
    requires Budgeted(cr) && !cr.abandoned && cr.deletedAt.None? && !cr.status.Ended() && ExitedDeliberately(view, code)
    ensures var status := Reconcile(cr, view, config).cr.status;
      && status.Ended() && status.attempt == CurrentAttempt(cr.status)
      && status.phase == Some(PhaseForExitCode(code)) && status.exitCode == Some(code)
      && status.failure == Some(FailureClassForExitCode(code))
  {
    var looked := Looked(cr, view, config);
    assert looked.status.phase == Some(PhaseForExitCode(code)) && looked.status.nextAttemptAt.None?;
  }

  /** The snapshot shows an outcome the run reached on its own: a container that exited, not one that was killed. */
  predicate EndedDeliberately(view: View) {
    && LiveJob(view.job).Some? && LiveJob(view.job).value.failed != Some(OutOfTime) && view.pod.Some?
    && (if view.pod.value.container.Some? && view.pod.value.container.value.Terminated?
        then view.pod.value.container.value.exitCode <= 128
        else view.pod.value.phase == PodSucceeded)
  }

  lemma DeliberateMeansOutranks(status: AgentStatus, view: View, startupDeadline: int)
    ensures OutranksCancellation(Derive(status, view, startupDeadline)) <==> EndedDeliberately(view)
  {}

  /** The pod of a cancelled run may still exit on its own: it is there, and not on its way out beyond its grace. */
  predicate MayStillExit(cancel: Cancellation, view: View, config: Config) {
    && view.pod.Some?
    && !(view.pod.value.deleting
         && view.now > cancel.at + (if cancel.grace > 0 then cancel.grace else config.grace) + 30)
  }

  lemma WaitsWhileItMayExit(cancel: Cancellation, view: View, config: Config)
    ensures StillWaiting(cancel, view.pod, config.grace, view.now) <==> MayStillExit(cancel, view, config)
  {}

  /**
   * A cancelled run does not always end Cancelled. Of a run that has not ended,
   * a pass makes it Cancelled exactly when the snapshot shows no deliberate
   * outcome and its pod is gone, or on its way out past its grace period. It
   * makes it end in another way exactly when the snapshot shows a deliberate
   * outcome, or some other ending under a pod that may still exit: a container
   * killed, a pod lost, a Job out of time or gone.
   */
  lemma CancelledRunEndsCancelledIff(cr: Cr, view: View, config: Config)
    requires Budgeted(cr) && cr.cancel.Some? && !cr.status.Ended()
    ensures var status := Looked(cr, view, config).status;
      var waiting := MayStillExit(cr.cancel.value, view, config);
      var seen := Derive(cr.status, view, config.startupDeadline);
      && (status.phase == Some(Cancelled) <==> !EndedDeliberately(view) && !waiting)
      && (status.Ended() && status.phase != Some(Cancelled) <==>
            EndedDeliberately(view) || (waiting && seen.phase.IsTerminal()))
      && (status.Ended() && status.phase != Some(Cancelled) ==> status.phase == Some(seen.phase) && status.why == seen.why)
      && (status.phase == Some(Cancelled) ==>
            && status.why == CancelledOnRequest && status.failure == Some(NoFailure)
            && status.finishedAt == Some(seen.finishedAt.GetOr(view.now))
            && (seen.exitCode.Some? ==> status.exitCode == seen.exitCode))
  {
    WaitsWhileItMayExit(cr.cancel.value, view, config);
    DeliberateMeansOutranks(cr.status, view, config.startupDeadline);
    EndingIsClassified(cr.status, view, config.startupDeadline);
    DeriveIsKnown(cr.status, view, config.startupDeadline);
  }

  /** Its Job gone, a cancelled run ends in this pass: as Cancelled, or as a Job that disappeared under its pod. */
  lemma VanishedJobUnderCancel(cr: Cr, view: View, config: Config)
    requires Budgeted(cr) && cr.cancel.Some? && cr.status.job && !cr.status.Ended() && LiveJob(view.job).None?
    ensures var status := Looked(cr, view, config).status;
      && status.phase == Some(if MayStillExit(cr.cancel.value, view, config) then Failed else Cancelled)
      && (status.phase == Some(Failed) ==> status.why == JobDisappeared)
  {
    CancelledRunEndsCancelledIff(cr, view, config);
  }

  lemma AbandonedPassIsSilent(cr: Cr, view: View, config: Config)
    requires cr.abandoned
    ensures var pass := Reconcile(cr, view, config);
      pass.cr.abandoned && pass.sent == [] && !pass.made && pass.stopped && pass.forgot
  {}

  /** Once a run was taken away nothing more is ever said of it, and no Job of it is ever created. */
  lemma {:induction false} SilentOnceAbandoned(log: Log, steps: seq<Step>, config: Config)
    requires log.cr.abandoned
    ensures Life(log, steps, config).sent == log.sent && Life(log, steps, config).made == log.made
    decreases |steps|
  {
    if steps != [] {
      if steps[0].Reconciling? {
        AbandonedPassIsSilent(log.cr, steps[0].view, config);
        assert log.sent + [] == log.sent;
      }
      SilentOnceAbandoned(After(log, steps[0], config), steps[1..], config);
    }
  }

  /**
   * The pass that learns it lost the run, from the bundle it asks for, records
   * the loss and still creates the Job; a Job created under a recorded loss is
   * always of such a pass.
   */
  lemma JobOfALostRunIff(cr: Cr, view: View, config: Config)
    requires Budgeted(cr) && Reconcile(cr, view, config).made
    ensures Reconcile(cr, view, config).cr.abandoned <==> view.lostOwnership
  {}

  /** A retry booked before the cancel still starts: exactly when it is booked and due. */
  lemma BookedRetryStartsIff(cr: Cr, view: View, config: Config)
    requires Budgeted(cr) && cr.status.Ended() && !cr.abandoned && cr.deletedAt.None?
    ensures Reconcile(cr, view, config).cr.status.attempt == cr.status.attempt + 1 <==>
      cr.status.nextAttemptAt.Some? && cr.status.nextAttemptAt.value <= view.now
  {
    LookAdvances(cr, view, config);
    var looked := Looked(cr, view, config);
    assert looked.status.nextAttemptAt == cr.status.nextAttemptAt;
  }

  // ---- the end of the object ------------------------------------------------------------

  /**
   * A run that was confirmed and ended is deleted only once the backend accepted
   * its outcome and its TTL ran out, or past the hard ceiling.
   */
  lemma DeletedOnceHeard(cr: Cr, view: View, config: Config)
    requires Budgeted(cr) && !cr.abandoned && cr.deletedAt.None? && cr.acknowledged
    ensures Reconcile(cr, view, config).cr.deletedAt.Some? <==>
      var looked := Looked(cr, view, config); var finished := looked.status.finishedAt.GetOr(view.now);
      && looked.status.Ended() && !ShouldRetry(looked) && looked.status.nextAttemptAt.None?
      && (view.now > finished + HardTtl(config)
          || (ReportSettled(looked.status) && finished + Ttl(looked) <= view.now))
  {}

  /** Nothing the backend has to say, and no time past the hard ceiling. */
  predicate Outage(step: Step, limit: int) {
    match step
    case Reconciling(view) => view.now <= limit
    case Commanding(command, _) => !command.AbandonCommand?
    case Settling(_, _, _) => false
    case _ => true
  }

  predicate AwaitsDelivery(cr: Cr) {
    && !cr.abandoned && cr.deletedAt.None? && cr.status.Ended() && cr.status.finishedAt.Some?
    && cr.status.nextAttemptAt.None? && !ShouldRetry(cr) && !ReportSettled(cr.status)
  }

  lemma PassAwaitsDelivery(cr: Cr, view: View, config: Config)
    requires Budgeted(cr) && AwaitsDelivery(cr) && view.now <= cr.status.finishedAt.value + HardTtl(config)
    ensures var next := Reconcile(cr, view, config).cr;
      AwaitsDelivery(next) && next.status == cr.status && next.cancel == cr.cancel
  {}

  /**
   * The outcome of a run that is over survives any outage of the backend, up to
   * the hard ceiling, with its reports undelivered and its object in place.
   */
  lemma {:induction false} OutcomeSurvivesOutage(log: Log, steps: seq<Step>, config: Config)
    requires Sound(log) && AwaitsDelivery(log.cr)
    requires forall step | step in steps :: Outage(step, log.cr.status.finishedAt.value + HardTtl(config))
    ensures var later := Life(log, steps, config).cr; AwaitsDelivery(later) && later.status == log.cr.status
    decreases |steps|
  {
    if steps != [] {
      assert steps[0] in steps;
      StepKeepsSound(log, steps[0], config);
      if steps[0].Reconciling? { PassAwaitsDelivery(log.cr, steps[0].view, config); }
      assert After(log, steps[0], config).cr.status == log.cr.status;
      forall step | step in steps[1..] ensures step in steps {}
      OutcomeSurvivesOutage(After(log, steps[0], config), steps[1..], config);
    }
  }

  lemma WithinModulus(n: nat, m: nat)
    requires n < m
    ensures n % m == n
  {}

  /** Every pause up to a tenth longer can come about. */
  lemma PausesVary(retry: nat, extra: nat)
    requires retry >= 1 && extra <= RetryFloor(retry) / 10
    ensures exists jitter :: RetryDelay(retry, jitter) == RetryFloor(retry) + extra
  {
    WithinModulus(extra, RetryFloor(retry) / 10 + 1);
    assert RetryDelay(retry, extra) == RetryFloor(retry) + extra;
  }

  /** Thirty seconds, doubled for each retry, never more than five minutes. */
  lemma PausesDouble(retry: nat)
    requires retry >= 1
    ensures RetryFloor(1) == 30
    ensures forall jitter :: 0 <= RetryDelay(retry, jitter) - RetryFloor(retry) <= RetryFloor(retry) / 10
    ensures RetryFloor(retry + 1) == if 2 * RetryFloor(retry) < 300 then 2 * RetryFloor(retry) else 300
  {
    if retry <= 4 {
      assert Pow(2, retry) == 2 * Pow(2, retry - 1);
    } else {
      assert Pow(2, 4) == 16 && Pow(2, 5) == 32;
    }
  }

  // ---- the phase table ---------------------------------------------------------------------

  /** The container, as far as it has ended, in a snapshot whose Job is there and did not run out of time. */
  predicate Watched(view: View) {
    LiveJob(view.job).Some? && LiveJob(view.job).value.failed != Some(OutOfTime) && view.pod.Some?
  }

  predicate ContainerEnded(view: View, code: int) {
    && Watched(view) && view.pod.value.container.Some? && view.pod.value.container.value.Terminated?
    && view.pod.value.container.value.exitCode == code
  }

  predicate ContainerGoesOn(view: View) {
    Watched(view) && (view.pod.value.container.Some? ==> !view.pod.value.container.value.Terminated?)
  }

  /** A Job whose pod did not come up in its time, ten minutes if nothing else was declared. */
  predicate Stuck(job: JobView, startupDeadline: int, now: int) {
    job.created.Some? && now - job.created.value > if startupDeadline <= 0 then 10 * 60 else startupDeadline
  }

  /** What the pod is waiting for: its container says, or else the scheduler. */
  predicate WaitsFor(pod: PodView, wait: WaitReason) {
    if pod.container.Some? && pod.container.value.Waits? then wait == pod.container.value.wait
    else pod.unscheduled.Some? && wait == if pod.unscheduled.value == NoWaitReason then Unschedulable else pod.unscheduled.value
  }

  /** The waits that do not resolve by themselves. */
  predicate Hopeless(wait: WaitReason) {
    wait in {ImagePullBackOff, ErrImagePull, InvalidImageName, CreateContainerConfigError, CreateContainerError,
             CrashLoopBackOff, Unschedulable}
  }

  ghost predicate WaitsInVain(pod: PodView) {
    pod.phase in {PodPending, PodUnknown} && exists wait :: WaitsFor(pod, wait) && Hopeless(wait)
  }

  /** Everything the table calls a failure. */
  ghost predicate Fails(status: AgentStatus, view: View, startupDeadline: int) {
    var job := LiveJob(view.job);
    || (job.None? && status.job && !status.Ended())
    || (job.Some? && job.value.failed != Some(OutOfTime) && view.pod.None?
        && (job.value.failed.Some? || Stuck(job.value, startupDeadline, view.now)))
    || (ContainerGoesOn(view) && view.pod.value.phase == PodFailed)
    || (ContainerGoesOn(view) && WaitsInVain(view.pod.value) && Stuck(job.value, startupDeadline, view.now))
    || (exists code :: ContainerEnded(view, code) && code !in {0, 11})
  }

  lemma FailedIff(status: AgentStatus, view: View, startupDeadline: int)
    ensures Derive(status, view, startupDeadline).phase == Failed <==> Fails(status, view, startupDeadline)
  {
    if Watched(view) {
      var pod := view.pod.value;
      if pod.container.Some? && pod.container.value.Terminated? {
        assert ContainerEnded(view, pod.container.value.exitCode);
      } else {
        WaitIsPending(pod);
      }
    }
  }

  lemma WaitIsPending(pod: PodView)
    ensures (exists wait :: WaitsFor(pod, wait) && Hopeless(wait)) <==>
      NeverResolves(PendingReason(pod)) || PendingReason(pod) == Unschedulable
  {
    assert forall wait :: WaitsFor(pod, wait) ==> wait == PendingReason(pod);
    if Hopeless(PendingReason(pod)) { assert WaitsFor(pod, PendingReason(pod)); }
  }

  /** A Job with a pod, or the time for one to come, is starting until its container runs or ends. */
  lemma StartingIff(status: AgentStatus, view: View, startupDeadline: int)
    ensures Derive(status, view, startupDeadline).phase == Starting <==>
      var job := LiveJob(view.job);
      && job.Some? && job.value.failed != Some(OutOfTime) && !Fails(status, view, startupDeadline)
      && (view.pod.None? || (ContainerGoesOn(view) && view.pod.value.phase in {PodPending, PodUnknown}))
  {
    FailedIff(status, view, startupDeadline);
    PhaseTable(status, view, startupDeadline);
    DeriveIsKnown(status, view, startupDeadline);
  }

  /** What was said of it, or this if nothing was. */
  predicate Explains(why: Why, given: Why, otherwise: Why) {
    (given != Unexplained && why == given) || (given == Unexplained && why == otherwise)
  }

  /** Every answer comes with its reason: what Kubernetes said, as far as it said anything. */
  lemma ReasonIsGiven(status: AgentStatus, view: View, startupDeadline: int)
    ensures var seen := Derive(status, view, startupDeadline); var job := LiveJob(view.job);
      && (job.None? ==> seen.why == if status.job && !status.Ended() then JobDisappeared else AwaitingJob)
      && (job.Some? && job.value.failed == Some(OutOfTime) ==> seen.why == DeadlineExceeded)
      && (job.Some? && job.value.failed != Some(OutOfTime) && view.pod.None? ==>
            if job.value.failed.Some? then Explains(seen.why, job.value.failed.value.reason, PodNotCreated)
            else seen.why == if Stuck(job.value, startupDeadline, view.now) then StartupDeadlineExceeded else PodNotCreated)
      && (Watched(view) ==> ReasonOfPod(seen, view.pod.value))
  {
    if Watched(view) { WaitIsPending(view.pod.value); }
  }

  ghost predicate ReasonOfPod(seen: Sighting, pod: PodView) {
    if pod.container.Some? && pod.container.value.Terminated? then
      if pod.container.value.exitCode == 0 then seen.why == Completed
      else Explains(seen.why, pod.container.value.reason, Named(seen.phase))
    else match pod.phase
      case PodRunning => seen.why == Named(Running)
      case PodSucceeded => seen.why == Completed
      case PodFailed => Explains(seen.why, pod.reason, PodLost)
      case _ => if seen.why.Waiting? then WaitsFor(pod, seen.why.wait) && seen.why.wait != NoWaitReason
                else seen.why == Named(Starting) && (forall wait | WaitsFor(pod, wait) :: wait == NoWaitReason)
  }

  /** The phase table read from the other side: what each answer takes, and nothing else. */
  lemma PhaseTable(status: AgentStatus, view: View, startupDeadline: int)
    ensures var seen := Derive(status, view, startupDeadline); var job := LiveJob(view.job);
      && (seen.phase == Pending <==> job.None? && !(status.job && !status.Ended()))
      && (seen.phase == Running <==> ContainerGoesOn(view) && view.pod.value.phase == PodRunning)
      && (seen.phase == Succeeded <==>
            ContainerEnded(view, 0) || (ContainerGoesOn(view) && view.pod.value.phase == PodSucceeded))
      && (seen.phase == TimedOut <==>
            (job.Some? && job.value.failed == Some(OutOfTime)) || ContainerEnded(view, 11))
      && (seen.phase.IsTerminal() && seen.exitCode.None? ==> seen.failure == Some(Infra) && seen.finishedAt == Some(view.now))
      && (seen.exitCode.Some? <==>
            (exists code :: ContainerEnded(view, code))
            || (ContainerGoesOn(view) && view.pod.value.phase == PodSucceeded))
      && (forall code :: ContainerEnded(view, code) ==> seen.exitCode == Some(code))
      && (ContainerGoesOn(view) && view.pod.value.phase == PodSucceeded ==>
            seen.exitCode == Some(0) && seen.failure == Some(NoFailure) && seen.finishedAt == Some(view.now))
  {
    if Watched(view) && view.pod.value.container.Some? && view.pod.value.container.value.Terminated? {
      assert ContainerEnded(view, view.pod.value.container.value.exitCode);
    }
  }

  /** Every ending the table reports is dated and classified, and only success has no failure. */
  lemma EndingIsClassified(status: AgentStatus, view: View, startupDeadline: int)
    ensures var seen := Derive(status, view, startupDeadline);
      && (seen.phase.IsTerminal() <==> seen.failure.Some?) && (seen.phase.IsTerminal() <==> seen.finishedAt.Some?)
      && (seen.phase == Succeeded <==> seen.failure == Some(NoFailure))
      && (seen.exitCode.Some? ==> seen.phase == PhaseForExitCode(seen.exitCode.value)
                                  && seen.failure == Some(FailureClassForExitCode(seen.exitCode.value)))
  {}

  /** Past the startup deadline only a wait that may still resolve passes for starting. */
  lemma StartupIsBounded(status: AgentStatus, view: View, startupDeadline: int)
    requires LiveJob(view.job).Some?
    requires Overdue(LiveJob(view.job).value.created, StartupBudget(startupDeadline), view.now)
    ensures var seen := Derive(status, view, startupDeadline);
      && seen.phase != Pending
      && (seen.phase == Starting ==>
            view.pod.Some? && !NeverResolves(PendingReason(view.pod.value)) && PendingReason(view.pod.value) != Unschedulable)
  {}
}
