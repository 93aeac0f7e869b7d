// What the table holds after each operation, column by column.
//
// These are the store's promises to its callers, in the words of the columns
// and without the functions that compute them. Each predicate compares a run
// before and after one operation, and its lemma says RunSteps keeps the promise.
module Effects {
  import opened Wrappers
  import opened Phases
  import opened Report
  import opened Ledger
  import opened RunSteps

  /** The four phases a run can end in. */
  predicate IsEnding(phase: Phase) { phase in {Phase.Succeeded, Phase.Failed, TimedOut, Cancelled} }

  predicate HasEnded(row: Row) {
    (row.phase.Some? && IsEnding(row.phase.value))
    || row.status in {StatusSucceeded, StatusFailed, StatusTimedOut, StatusCancelled}
  }

  /** What a column shows: what it was told last, if it was told anything. */
  predicate Shows<T(==)>(shown: Option<T>, told: Option<T>, before: Option<T>) {
    shown == if told.Some? then told else before
  }

  predicate ShowsClass(shown: FailureClass, told: Option<FailureClass>, before: FailureClass) {
    shown == if told.Some? then told.value else before
  }

  /** The columns no change of ownership touches: what the run reported, and what was asked of it. */
  predicate SameReports(a: Row, b: Row) {
    && b.phase == a.phase && b.exitCode == a.exitCode && b.result == a.result && b.usage == a.usage
    && b.turns == a.turns && b.completionReceived == a.completionReceived && b.cancelRequested == a.cancelRequested
  }

  /** Every attempt is over; one the platform cut short is a failure of the platform unless it said otherwise. */
  predicate CutShort(before: Entry, after: Entry) {
    after == before.(open := false, failureClass :=
      if before.open && before.failureClass == NoFailure then Infra else before.failureClass)
  }

  predicate AllCutShort(before: Attempts, after: Attempts) {
    after.Keys == before.Keys && forall k | k in before :: CutShort(before[k], after[k])
  }

  /** The ownership is over: the fence is closed, every attempt with it, and the deadlines are off. */
  predicate GivenUp(before: Run, after: Run) {
    && after.row.epoch == before.row.epoch + 1 && after.row.attempt == 1
    && after.row.ackDeadline.None? && after.row.leaseDeadline.None?
    && AllCutShort(before.ledger, after.ledger)
  }

  // ---- admission ---------------------------------------------------------------

  /** A new run waits in the queue under the first epoch; nothing was reported, charged or asked of it. */
  lemma AdmissionOfOne(cluster: Option<ClusterId>)
    ensures var run := Admitted(cluster);
      && run.row.status == Queued && run.row.cluster == cluster && run.row.epoch == 1 && run.row.attempt == 1
      && run.row.ackDeadline.None? && run.row.leaseDeadline.None? && run.row.ackExpiries == 0
      && run.row.phase.None? && run.row.exitCode.None? && run.row.failureClass == NoFailure
      && run.row.reason.None? && run.row.message.None? && run.row.result == Result(None, None, None, None, None, None)
      && run.row.usage == Usage(0, 0, 0, 0, 0) && run.row.turns == 0
      && !run.row.cancelRequested && !run.row.completionReceived && run.ledger == map[] && run.excluded == {}
  {}

  // ---- placement ---------------------------------------------------------------

  /** The first cluster of the preference order that has not refused the run. */
  predicate FirstAllowed(eligible: seq<ClusterId>, excluded: set<ClusterId>, pick: Option<ClusterId>) {
    if pick.None? then forall c | c in eligible :: c in excluded
    else exists i | 0 <= i < |eligible| ::
      eligible[i] == pick.value && pick.value !in excluded && forall j | 0 <= j < i :: eligible[j] in excluded
  }

  predicate AfterPlacing(before: Run, after: Run, eligible: seq<ClusterId>) {
    && after == before.(row := before.row.(cluster := after.row.cluster))
    && (if before.row.status == Queued && before.row.cluster.None?
        then FirstAllowed(eligible, before.excluded, after.row.cluster)
        else after.row.cluster == before.row.cluster)
  }

  lemma PlacingOfOne(run: Run, eligible: seq<ClusterId>)
    ensures AfterPlacing(run, Place(run, eligible).run, eligible)
  {
    PickIsFirst(eligible, run.excluded);
  }

  // ---- ownership -----------------------------------------------------------------

  /** Queued for this cluster, and nobody wants it cancelled. */
  predicate Waits(row: Row, cluster: ClusterId) {
    row.status == Queued && row.cluster == Some(cluster) && !row.cancelRequested
  }

  predicate AfterLeasing(before: Run, after: Run, cluster: ClusterId, now: int, ackTimeout: int, ttl: int) {
    && Waits(before.row, cluster)
    && after.row == before.row.(status := Leased, attempt := 1, ackDeadline := Some(now + ackTimeout),
                                leaseDeadline := Some(now + ttl), reason := None, message := None)
    && after.excluded == before.excluded
    && var key := Key(before.row.epoch, 1);
      after.ledger == if key in before.ledger then before.ledger
        else before.ledger[key := Entry(cluster, None, None, NoFailure, {}, None, Usage(0, 0, 0, 0, 0), true)]
  }

  lemma LeasingOfOne(run: Run, cluster: ClusterId, now: int, ackTimeout: int, ttl: int)
    ensures var effect := Lease(run, cluster, now, ackTimeout, ttl);
      && (effect.outcome == NotDue <==> !Waits(run.row, cluster))
      && (effect.outcome == Done ==> AfterLeasing(run, effect.run, cluster, now, ackTimeout, ttl))
  {}

  /** The fence in front of whatever only a holder may say. */
  predicate FencedOff(row: Row, caller: ClusterId, epoch: nat, out: Outcome) {
    && out in {Done, WrongEpoch, WrongHolder}
    && (out == WrongEpoch <==> epoch != row.epoch)
    && (out == WrongHolder <==> epoch == row.epoch && row.cluster.Some? && row.cluster.value != caller)
  }

  predicate AfterAck(before: Run, after: Run, caller: ClusterId, epoch: nat, now: int, ttl: int, out: Outcome) {
    && FencedOff(before.row, caller, epoch, out)
    && after == if out == Done && before.row.status == Leased
       then before.(row := before.row.(status := Dispatched, ackDeadline := None, leaseDeadline := Some(now + ttl),
                                       reason := None, message := None))
       else before
  }

  lemma AckOfOne(run: Run, caller: ClusterId, epoch: nat, now: int, ttl: int)
    ensures var effect := Ack(run, caller, epoch, now, ttl);
      AfterAck(run, effect.run, caller, epoch, now, ttl, effect.outcome)
  {}

  /** The refusing cluster is out for good, and the run goes to the next that is not, or fails for want of one. */
  predicate AfterRejection(before: Run, after: Run, caller: ClusterId, epoch: nat, code: string, message: Option<string>,
                           eligible: seq<ClusterId>, out: Outcome)
  {
    && FencedOff(before.row, caller, epoch, out)
    && (out != Done ==> after == before)
    && (out == Done ==>
          && GivenUp(before, after) && after.excluded == before.excluded + {caller}
          && SameReports(before.row, after.row) && after.row.ackExpiries == before.row.ackExpiries
          && (if forall c | c in eligible :: c in after.excluded then
                && after.row.status == StatusFailed && after.row.failureClass == Config
                && after.row.cluster == before.row.cluster && after.row.reason == Some(NoEligibleCluster)
                && after.row.message == Some(Rejection(code, message))
              else
                && after.row.status == Queued && after.row.failureClass == before.row.failureClass
                && after.row.cluster.Some? && FirstAllowed(eligible, after.excluded, after.row.cluster)
                && after.row.reason == Some(MaterializationRefused)
                && after.row.message == if message.None? then None else Some(Told(message.value))))
  }

  lemma RejectionOfOne(run: Run, caller: ClusterId, epoch: nat, code: string, message: Option<string>,
                       eligible: seq<ClusterId>)
    ensures var effect := RunSteps.Reject(run, caller, epoch, code, message, eligible);
      AfterRejection(run, effect.run, caller, epoch, code, message, eligible, effect.outcome)
  {
    PickIsFirst(eligible, run.excluded + {caller});
  }

  // ---- the scanners ----------------------------------------------------------------

  predicate Overdue(row: Row, now: int) {
    row.status == Leased && row.ackDeadline.Some? && row.ackDeadline.value < now
  }

  /** An overdue lease is given up and queued for its cluster again, or failed when it expired as often as it may. */
  predicate AfterAckExpiry(before: Run, after: Run, expired: bool, exhausted: bool, ceiling: nat, now: int) {
    && (expired <==> Overdue(before.row, now)) && !Overdue(after.row, now)
    && (exhausted <==> expired && before.row.ackExpiries + 1 >= ceiling)
    && (!expired ==> after == before)
    && (expired ==>
          && GivenUp(before, after) && after.excluded == before.excluded && SameReports(before.row, after.row)
          && after.row.cluster == before.row.cluster && after.row.ackExpiries == before.row.ackExpiries + 1
          && (if exhausted then
                && after.row.status == StatusFailed && after.row.failureClass == Infra
                && after.row.reason == Some(AckTimeoutExhausted)
                && after.row.message == Some(LeasesExpired(before.row.ackExpiries + 1))
              else
                && after.row.status == Queued && after.row.failureClass == before.row.failureClass
                && after.row.reason == Some(AckDeadlineExceeded) && after.row.message == before.row.message))
  }

  lemma AckExpiryOfOne(run: Run, ceiling: nat, now: int)
    ensures var effect := ExpireAck(run, ceiling, now);
      AfterAckExpiry(run, effect.run, effect.outcome == Done,
                     effect.outcome == Done && effect.run.row.status == StatusFailed, ceiling, now)
  {}

  /** Confirmed, not over, and not heard of for longer than its lease. */
  predicate Silent(row: Row, now: int) {
    row.status in {Dispatched, StatusStarting, StatusRunning} && row.leaseDeadline.Some? && row.leaseDeadline.value < now
  }

  /** A run out of sight keeps everything but its status. */
  predicate AfterLosingSight(before: Run, after: Run, lost: bool, reason: Reason) {
    after == if lost then before.(row := before.row.(status := Unknown, reason := Some(reason))) else before
  }

  predicate AfterLeaseExpiry(before: Run, after: Run, lost: bool, now: int) {
    && (lost <==> Silent(before.row, now)) && !Silent(after.row, now)
    && AfterLosingSight(before, after, lost, LeaseDeadlineExceeded)
  }

  lemma LeaseExpiryOfOne(run: Run, now: int)
    ensures var effect := ExpireLease(run, now); AfterLeaseExpiry(run, effect.run, effect.outcome == Done, now)
  {}

  lemma LosingSightOfOne(run: Run, reason: Reason)
    ensures AfterLosingSight(run, RunSteps.MarkUnknown(run, reason).run,
                             run.row.status in {Dispatched, StatusStarting, StatusRunning}, reason)
  {}

  // ---- the operator ------------------------------------------------------------------

  /** A waiting run ends at once; one a cluster has is marked for it to stop; one that ended is left alone. */
  predicate AfterCancelling(before: Run, after: Run, out: Outcome) {
    && out in {Done, AlreadyEnded} && (out == AlreadyEnded <==> HasEnded(before.row))
    && (out == AlreadyEnded ==> after == before)
    && (out == Done ==>
          && after.row.cancelRequested
          && after == if before.row.status == Queued
             then before.(row := before.row.(status := StatusCancelled, phase := None, cancelRequested := true,
                                             reason := Some(CancelledBeforeDispatch)))
             else before.(row := before.row.(cancelRequested := true)))
  }

  lemma CancellingOfOne(run: Run)
    ensures AfterCancelling(run, RunSteps.RequestCancel(run).run, RunSteps.RequestCancel(run).outcome)
  {}

  /** The run waits again under a new epoch, as if nothing had come of it, with its bill and its refusals. */
  predicate AfterRetrying(before: Run, after: Run, eligible: seq<ClusterId>) {
    && GivenUp(before, after) && after.excluded == before.excluded
    && FirstAllowed(eligible, before.excluded, after.row.cluster)
    && after.row == before.row.(
         epoch := before.row.epoch + 1, attempt := 1, ackDeadline := None, leaseDeadline := None, status := Queued,
         cluster := after.row.cluster, ackExpiries := 0, phase := None, reason := Some(OperatorRetry), message := None,
         failureClass := NoFailure, exitCode := None, cancelRequested := false, completionReceived := false)
  }

  lemma RetryingOfOne(run: Run, eligible: seq<ClusterId>)
    ensures AfterRetrying(run, RunSteps.Retry(run, eligible).run, eligible)
  {
    PickIsFirst(eligible, run.excluded);
  }

  // ---- what reports write --------------------------------------------------------------

  /** A report of a higher attempt cuts the lower ones of its epoch short. */
  predicate Superseded(key: Key, newer: Key) { newer.attempt > 1 && key.epoch == newer.epoch && key.attempt < newer.attempt }

  predicate OthersAfterUpsert(before: Attempts, after: Attempts, key: Key) {
    after.Keys == before.Keys + {key}
    && forall k | k in before && k != key ::
         if Superseded(k, key) then CutShort(before[k], after[k]) else after[k] == before[k]
  }

  /** The attempt's row takes the report; a field the report leaves out keeps its value, and the checkpoint grows. */
  predicate AfterUpsert(before: Attempts, after: Attempts, key: Key, obs: Observation, cluster: ClusterId) {
    && OthersAfterUpsert(before, after, key)
    && var e := after[key]; var over := obs.finished || IsEnding(obs.phase);
      && e.phase == Some(obs.phase)
      && (if key in before then
            && e.cluster == before[key].cluster && e.completion == before[key].completion && e.usage == before[key].usage
            && Shows(e.exitCode, obs.exitCode, before[key].exitCode)
            && e.failureClass == (if obs.failureClass in {None, Some(NoFailure)} then before[key].failureClass
                                  else obs.failureClass.value)
            && e.checkpoint == before[key].checkpoint + obs.checkpoint && e.open == (before[key].open && !over)
          else
            && e.cluster == cluster && e.completion.None? && e.usage == Usage(0, 0, 0, 0, 0)
            && e.exitCode == obs.exitCode && ShowsClass(e.failureClass, obs.failureClass, NoFailure)
            && e.checkpoint == obs.checkpoint && e.open == !over)
  }

  lemma UpsertOfOne(ledger: Attempts, key: Key, obs: Observation, cluster: ClusterId)
    ensures var next := UpsertAttempt(ledger, key, obs, cluster);
      && (next.Some? ==> AfterUpsert(ledger, next.value, key, obs, cluster))
      && (next.None? <==>
            key !in ledger && !obs.finished && !IsEnding(obs.phase)
            && exists k | k in ledger :: ledger[k].open && !Superseded(k, key))
  {
    var closed := CloseSuperseded(ledger, key);
    assert forall k | k in ledger :: closed[k].open <==> ledger[k].open && !Superseded(k, key);
  }

  predicate ReportIn(ledger: Attempts, key: Key) { key in ledger && ledger[key].completion.Some? }

  /** The run shows what its attempt's pod reported, and is billed all its attempts. */
  ghost predicate ShowsReport(before: Row, after: Row, ledger: Attempts, report: CompletionReport) {
    && after.completionReceived && after.exitCode == Some(report.exitCode) && after.turns == report.turns
    && ShowsClass(after.failureClass, report.failureClass, before.failureClass)
    && Shows(after.reason, report.reason, before.reason) && Shows(after.message, report.message, before.message)
    && Shows(after.result.summary, report.result.summary, before.result.summary)
    && Shows(after.result.prUrl, report.result.prUrl, before.result.prUrl)
    && Shows(after.result.prNumber, report.result.prNumber, before.result.prNumber)
    && Shows(after.result.prAction, report.result.prAction, before.result.prAction)
    && Shows(after.result.commitSha, report.result.commitSha, before.result.commitSha)
    && Shows(after.result.pushed, report.result.pushed, before.result.pushed)
    && after.usage == Total(map k | k in ledger :: ledger[k].usage)
  }

  /** No report of a pod moves a run: not its place, its status, its deadlines nor what was asked of it. */
  predicate SamePlace(a: Row, b: Row) {
    && b.State() == a.State() && b.status == a.status && b.ackDeadline == a.ackDeadline && b.leaseDeadline == a.leaseDeadline
    && b.cancelRequested == a.cancelRequested && b.ackExpiries == a.ackExpiries
  }

  ghost predicate AfterPromotion(before: Row, after: Row, ledger: Attempts, report: CompletionReport) {
    SamePlace(before, after) && ShowsReport(before, after, ledger, report)
  }

  lemma PromotionOfOne(row: Row, ledger: Attempts, report: CompletionReport)
    ensures AfterPromotion(row, Promote(row, ledger, report), ledger, report)
  {}

  /** The pod's report on its attempt's row, which it finishes and charges; every other row is left alone. */
  predicate AfterRecording(before: Attempts, after: Attempts, key: Key, report: CompletionReport, cluster: ClusterId) {
    && after.Keys == before.Keys + {key} && (forall k | k in before && k != key :: after[k] == before[k])
    && var e := after[key];
      && e.exitCode == Some(report.exitCode) && e.completion == Some(report) && e.usage == report.usage && !e.open
      && (if key in before then
            && e.cluster == before[key].cluster && e.phase == before[key].phase
            && e.failureClass == (if report.failureClass in {None, Some(NoFailure)} then before[key].failureClass
                                  else report.failureClass.value)
            && e.checkpoint == before[key].checkpoint + report.checkpoint
          else
            && e.cluster == cluster && e.phase.None? && ShowsClass(e.failureClass, report.failureClass, NoFailure)
            && e.checkpoint == report.checkpoint)
  }

  ghost predicate AfterCompletion(before: Run, after: Run, sender: Option<ClusterId>, epoch: nat, attempt: nat,
                                  report: CompletionReport, out: Outcome)
  {
    var key, holder := Key(epoch, attempt), if sender.Some? then sender else before.row.cluster;
    && out in {Done, WrongEpoch, Duplicate, WrongHolder}
    && (out == WrongEpoch <==> epoch != before.row.epoch)
    && (out == Duplicate <==> epoch == before.row.epoch && ReportIn(before.ledger, key))
    && (out == WrongHolder <==> epoch == before.row.epoch && !ReportIn(before.ledger, key) && holder.None?)
    && (out != Done ==> after == before)
    && (out == Done ==>
          && AfterRecording(before.ledger, after.ledger, key, report, holder.value)
          && AfterPromotion(before.row, after.row, after.ledger, report) && after.excluded == before.excluded)
  }

  lemma CompletionOfOne(run: Run, sender: Option<ClusterId>, epoch: nat, attempt: nat, report: CompletionReport)
    ensures var effect := Complete(run, sender, epoch, attempt, report);
      AfterCompletion(run, effect.run, sender, epoch, attempt, report, effect.outcome)
  {}

  /** A report of this position is further on than the row. */
  predicate IsFurther(row: Row, obs: Observation) { Stands(row.State()).Below(At(obs)) }

  /** Where an accepted report leaves the run, and in what status. */
  predicate Moved(before: Row, after: Row, caller: ClusterId, obs: Observation, now: int, ttl: int) {
    && after.epoch == before.epoch && after.ackDeadline == before.ackDeadline
    && after.cancelRequested == before.cancelRequested && after.ackExpiries == before.ackExpiries
    && after.leaseDeadline == (if IsEnding(obs.phase) || ttl <= 0 then before.leaseDeadline else Some(now + ttl))
    && after.phase == Some(obs.phase) && after.attempt == obs.attempt
    && (if IsFurther(before, obs)
        then Says(after.status, obs.phase) && after.cluster == Some(if before.cluster.Some? then before.cluster.value else caller)
        else after.cluster == before.cluster
             && if before.status == Unknown then Says(after.status, obs.phase) else after.status == before.status)
  }

  /** What an accepted report says of the run, before its pod's own report is taken into account. */
  predicate Explained(before: Row, after: Row, obs: Observation) {
    && after.result == before.result && after.usage == before.usage && after.turns == before.turns
    && after.completionReceived == before.completionReceived
    && (if IsFurther(before, obs) then
          && Shows(after.reason, obs.reason, before.reason) && Shows(after.message, obs.message, before.message)
          && Shows(after.exitCode, obs.exitCode, before.exitCode)
          && ShowsClass(after.failureClass, obs.failureClass, before.failureClass)
        else
          && after.exitCode == before.exitCode && after.failureClass == before.failureClass
          && after.reason == (if before.status == Unknown then None else before.reason)
          && after.message == (if before.status == Unknown then None else before.message))
  }

  /**
   * An accepted report moves the run to its phase, under the status that says
   * the same; an ending brings the pod's report with it if that is already in.
   */
  ghost predicate AfterReport(before: Run, after: Run, caller: ClusterId, obs: Observation, now: int, ttl: int) {
    var key := Key(before.row.epoch, obs.attempt);
    && AfterUpsert(before.ledger, after.ledger, key, obs, caller) && after.excluded == before.excluded
    && Moved(before.row, after.row, caller, obs, now, ttl)
    && (if IsEnding(obs.phase) && ReportIn(after.ledger, key) then
          exists told: Row :: Explained(before.row, told, obs) && ShowsReport(told, after.row, after.ledger, after.ledger[key].completion.value)
        else Explained(before.row, after.row, obs))
  }

  function Noted(row: Row, obs: Observation, caller: ClusterId): Row
    requires StoredStatus(obs.phase).Some?
  {
    if IsFurther(row, obs) then WriteObservation(row, obs, caller) else ClearUnknown(row, obs)
  }

  lemma ReportTold(run: Run, caller: ClusterId, obs: Observation, now: int, ttl: int)
    requires Apply(run.row.State(), obs, caller).Accepted()
    ensures StoredStatus(obs.phase).Some?
    ensures !IsFurther(run.row, obs) ==> run.row.phase == Some(obs.phase) && run.row.attempt == obs.attempt
    ensures var effect := Observe(run, caller, obs, now, ttl); var told := Noted(run.row, obs, caller);
      var key := Key(run.row.epoch, obs.attempt);
      && UpsertAttempt(run.ledger, key, obs, caller).Some? == (effect.outcome == Done)
      && (effect.outcome == Done ==>
            && effect.run.excluded == run.excluded && Some(effect.run.ledger) == UpsertAttempt(run.ledger, key, obs, caller)
            && effect.run.row == if !obs.phase.IsTerminal() then (if ttl <= 0 then told else told.(leaseDeadline := Some(now + ttl)))
                                 else if Reported(effect.run.ledger, key)
                                 then Promote(told, effect.run.ledger, effect.run.ledger[key].completion.value) else told)
      && (effect.outcome != Done ==> effect.run == run)
  {
    DecidedByPosition(run.row.State(), obs, caller);
  }

  lemma ToldMoves(row: Row, obs: Observation, caller: ClusterId)
    requires StoredStatus(obs.phase).Some?
    requires !IsFurther(row, obs) ==> row.phase == Some(obs.phase) && row.attempt == obs.attempt
    ensures var told := Noted(row, obs, caller);
      Moved(row, told, caller, obs, 0, 0) && told.leaseDeadline == row.leaseDeadline && Explained(row, told, obs)
  {
    StoredSays(obs.phase, StoredStatus(obs.phase).value);
  }

  lemma ReportOfOne(run: Run, caller: ClusterId, obs: Observation, now: int, ttl: int)
    ensures var effect := Observe(run, caller, obs, now, ttl);
      if effect.outcome == Done then AfterReport(run, effect.run, caller, obs, now, ttl) else effect.run == run
  {
    if Apply(run.row.State(), obs, caller).Accepted() {
      ReportTold(run, caller, obs, now, ttl);
      UpsertOfOne(run.ledger, Key(run.row.epoch, obs.attempt), obs, caller);
      ToldMoves(run.row, obs, caller);
      var effect := Observe(run, caller, obs, now, ttl);
      if effect.outcome == Done {
        ReportWritten(run, effect.run, Noted(run.row, obs, caller), caller, obs, now, ttl);
      }
    }
  }

  lemma ReportWritten(before: Run, after: Run, told: Row, caller: ClusterId, obs: Observation, now: int, ttl: int)
    requires var key := Key(before.row.epoch, obs.attempt);
      && AfterUpsert(before.ledger, after.ledger, key, obs, caller) && after.excluded == before.excluded
      && after.row == if !obs.phase.IsTerminal() then (if ttl <= 0 then told else told.(leaseDeadline := Some(now + ttl)))
                      else if Reported(after.ledger, key)
                      then Promote(told, after.ledger, after.ledger[key].completion.value) else told
    requires Moved(before.row, told, caller, obs, 0, 0) && told.leaseDeadline == before.row.leaseDeadline
    requires Explained(before.row, told, obs)
    ensures AfterReport(before, after, caller, obs, now, ttl)
  {
    var key := Key(before.row.epoch, obs.attempt);
    if IsEnding(obs.phase) && ReportIn(after.ledger, key) {
      PromotionOfOne(told, after.ledger, after.ledger[key].completion.value);
    }
  }
}
