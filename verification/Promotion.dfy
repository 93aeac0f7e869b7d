// A run's result arrives on two channels, the terminal status and the pod's
// report, and either may be first.
module Promotion {
  import opened Wrappers
  import opened Phases
  import opened Report
  import opened Ledger
  import opened RunSteps
  import opened Protocol

  lemma ChargesAfterUpsert(ledger: Attempts, key: Key, obs: Observation, caller: ClusterId)
    requires UpsertAttempt(ledger, key, obs, caller).Some?
    ensures Charges(UpsertAttempt(ledger, key, obs, caller).value)
         == Charges(ledger)[key := if key in ledger then ledger[key].usage else NoUsage]
  {
    assert Charges(CloseSuperseded(ledger, key)) == Charges(ledger);
  }

  lemma ChargesAfterReport(ledger: Attempts, key: Key, report: CompletionReport, sender: ClusterId)
    ensures Charges(RecordCompletion(ledger, key, report, sender)) == Charges(ledger)[key := report.usage]
  {}

  /** Recording a report and recording an observation of the same attempt charge the same. */
  lemma SameChargesEitherWay(
    ledger: Attempts, key: Key, obs: Observation, caller: ClusterId, report: CompletionReport, sender: ClusterId)
    requires UpsertAttempt(ledger, key, obs, caller).Some?
    requires UpsertAttempt(RecordCompletion(ledger, key, report, sender), key, obs, caller).Some?
    ensures Charges(RecordCompletion(UpsertAttempt(ledger, key, obs, caller).value, key, report, sender))
         == Charges(UpsertAttempt(RecordCompletion(ledger, key, report, sender), key, obs, caller).value)
  {
    ChargesAfterUpsert(ledger, key, obs, caller);
    ChargesAfterReport(UpsertAttempt(ledger, key, obs, caller).value, key, report, sender);
    ChargesAfterReport(ledger, key, report, sender);
    ChargesAfterUpsert(RecordCompletion(ledger, key, report, sender), key, obs, caller);
  }

  lemma UpsertKeepsReports(ledger: Attempts, key: Key, obs: Observation, caller: ClusterId)
    requires UpsertAttempt(ledger, key, obs, caller).Some?
    ensures var next := UpsertAttempt(ledger, key, obs, caller).value;
      key in next && next[key].completion == if key in ledger then ledger[key].completion else None
  {}

  /** The row an accepted terminal observation leaves, before any promotion. */
  function Written(row: Row, obs: Observation, caller: ClusterId): Row
    requires StoredStatus(obs.phase).Some?
  {
    if Apply(row.State(), obs, caller).verdict == Repeat then ClearUnknown(row, obs)
    else WriteObservation(row, obs, caller)
  }

  /** Promotion replayed on the later of the two gives what one promotion gave. */
  lemma PromotionReplays(row: Row, obs: Observation, caller: ClusterId, report: CompletionReport,
                         once: Attempts, before: Attempts, after: Attempts)
    requires StoredStatus(obs.phase).Some? && Charges(once) == Charges(after)
    ensures Promote(Written(row, obs, caller), once, report)
         == Promote(Written(Promote(row, before, report), obs, caller), after, report)
  {
    var promoted := Promote(row, before, report);
    assert promoted.State() == row.State() && promoted.status == row.status;
    if Apply(row.State(), obs, caller).verdict == Repeat {
      ClearingReplays(row, obs, report, once, before, after);
    } else {
      WritingReplays(row, obs, caller, report, once, before, after);
    }
  }

  lemma ClearingReplays(row: Row, obs: Observation, report: CompletionReport, once: Attempts, before: Attempts, after: Attempts)
    requires StoredStatus(obs.phase).Some? && Charges(once) == Charges(after)
    ensures Promote(ClearUnknown(row, obs), once, report)
         == Promote(ClearUnknown(Promote(row, before, report), obs), after, report)
  {}

  lemma WritingReplays(row: Row, obs: Observation, caller: ClusterId, report: CompletionReport,
                       once: Attempts, before: Attempts, after: Attempts)
    requires StoredStatus(obs.phase).Some? && Charges(once) == Charges(after)
    ensures Promote(WriteObservation(row, obs, caller), once, report)
         == Promote(WriteObservation(Promote(row, before, report), obs, caller), after, report)
  {}

  /**
   * Applying a terminal observation and the report of the same attempt in either
   * order leaves the same row: status, phase, exit code, class, reason, result
   * and charges. Only the ledger's descriptive columns may differ.
   */
  lemma StatusAndReportCommute(h: History, seen: Event, reported: Event, ceiling: nat)
    requires Inv(h, ceiling) && ceiling >= 1
    requires seen.Observing? && seen.obs.phase.IsTerminal() && SendsOwnEpoch(h, seen)
    requires reported.Completing? && SendsOwnEpoch(h, reported)
    requires Key(reported.epoch, reported.attempt) == Key(seen.obs.epoch, seen.obs.attempt)
    ensures EffectOf(EffectOf(h.run, seen, ceiling).run, reported, ceiling).run.row
         == EffectOf(EffectOf(h.run, reported, ceiling).run, seen, ceiling).run.row
  {
    var run, obs, caller, report := h.run, seen.obs, seen.cluster, reported.report;
    var key := Key(obs.epoch, obs.attempt);
    CompletedRow(run, reported.sender, reported.epoch, reported.attempt, report);
    if Apply(run.row.State(), obs, caller).Accepted() {
      AcceptedIsCurrent(h, seen);
      ObservingBooked(h, seen, ceiling);
      ObservingSurvivesReport(h, seen, reported, ceiling);
      UpsertKeepsReports(run.ledger, key, obs, caller);
      if !Reported(run.ledger, key) {
        ReportThenStatus(h, seen, reported, ceiling);
      }
    }
  }

  /** After the report the observation still finds its row. */
  lemma ObservingSurvivesReport(h: History, seen: Event, reported: Event, ceiling: nat)
    requires Inv(h, ceiling) && ceiling >= 1
    requires seen.Observing? && SendsOwnEpoch(h, seen) && Apply(h.run.row.State(), seen.obs, seen.cluster).Accepted()
    requires reported.Completing? && SendsOwnEpoch(h, reported)
    requires Key(reported.epoch, reported.attempt) == Key(seen.obs.epoch, seen.obs.attempt)
    ensures UpsertAttempt(After(h, reported, ceiling).run.ledger, Key(seen.obs.epoch, seen.obs.attempt),
                          seen.obs, seen.cluster).Some?
  {
    var next := After(h, reported, ceiling);
    CompletingKeeps(h, reported, ceiling);
    ReportsKeepOwnership(h, reported, ceiling);
    AcceptedIsCurrent(next, seen);
    ObservingBooked(next, seen, ceiling);
  }

  lemma ReportThenStatus(h: History, seen: Event, reported: Event, ceiling: nat)
    requires Fenced(h) && seen.Observing? && reported.Completing? && SendsOwnEpoch(h, seen)
    requires Apply(h.run.row.State(), seen.obs, seen.cluster).Accepted() && seen.obs.phase.IsTerminal()
    requires Key(reported.epoch, reported.attempt) == Key(seen.obs.epoch, seen.obs.attempt)
    requires !Reported(h.run.ledger, Key(seen.obs.epoch, seen.obs.attempt))
    requires UpsertAttempt(h.run.ledger, Key(seen.obs.epoch, seen.obs.attempt), seen.obs, seen.cluster).Some?
    requires UpsertAttempt(Complete(h.run, reported.sender, reported.epoch, reported.attempt, reported.report).run.ledger,
                           Key(seen.obs.epoch, seen.obs.attempt), seen.obs, seen.cluster).Some?
    ensures EffectOf(EffectOf(h.run, seen, ceiling).run, reported, ceiling).run.row
         == EffectOf(EffectOf(h.run, reported, ceiling).run, seen, ceiling).run.row
  {
    AcceptedIsCurrent(h, seen);
    var run, obs, caller, report := h.run, seen.obs, seen.cluster, reported.report;
    var key, sender := Key(obs.epoch, obs.attempt), reported.sender.Or(run.row.cluster).value;

    var upserted := UpsertAttempt(run.ledger, key, obs, caller).value;
    UpsertKeepsReports(run.ledger, key, obs, caller);
    var a := EffectOf(run, seen, ceiling).run;
    assert a == run.(ledger := upserted, row := Written(run.row, obs, caller));
    var recordedLast := RecordCompletion(upserted, key, report, sender);
    assert EffectOf(a, reported, ceiling).run.row == Promote(a.row, recordedLast, report);

    var recorded := RecordCompletion(run.ledger, key, report, sender);
    var b := EffectOf(run, reported, ceiling).run;
    assert b == run.(ledger := recorded, row := Promote(run.row, recorded, report));
    var upsertedLast := UpsertAttempt(recorded, key, obs, caller).value;
    UpsertKeepsReports(recorded, key, obs, caller);
    assert EffectOf(b, seen, ceiling).run.row == Promote(Written(b.row, obs, caller), upsertedLast, report);

    SameChargesEitherWay(run.ledger, key, obs, caller, report, sender);
    PromotionReplays(run.row, obs, caller, report, recordedLast, recorded, upsertedLast);
  }

  /**
   * Reports of two attempts are another matter: the totals agree in either
   * order, but promotion does not ask which attempt is newer, so the exit code
   * the run shows is the one delivered last and the orders agree on it exactly
   * when the attempts ended alike.
   */
  lemma LastDeliveredExitCodeShows(run: Run, epoch: nat, a: nat, b: nat, ra: CompletionReport, rb: CompletionReport)
    requires epoch == run.row.epoch && a != b && run.row.cluster.Some?
    requires !Reported(run.ledger, Key(epoch, a)) && !Reported(run.ledger, Key(epoch, b))
    ensures var ab := Complete(Complete(run, None, epoch, a, ra).run, None, epoch, b, rb).run.row;
      var ba := Complete(Complete(run, None, epoch, b, rb).run, None, epoch, a, ra).run.row;
      ab.usage == ba.usage && (ab.exitCode == ba.exitCode <==> ra.exitCode == rb.exitCode)
  {
    CompletesBoth(run, epoch, a, ra, b, rb);
    CompletesBoth(run, epoch, b, rb, a, ra);
    ChargedEitherWay(run.ledger, Key(epoch, a), ra, Key(epoch, b), rb, run.row.cluster.value);
  }

  lemma CompletesBoth(run: Run, epoch: nat, a: nat, ra: CompletionReport, b: nat, rb: CompletionReport)
    requires epoch == run.row.epoch && a != b && run.row.cluster.Some?
    requires !Reported(run.ledger, Key(epoch, a)) && !Reported(run.ledger, Key(epoch, b))
    ensures var c := run.row.cluster.value;
      var last := Complete(Complete(run, None, epoch, a, ra).run, None, epoch, b, rb).run;
      && last.row.exitCode == Some(rb.exitCode)
      && last.row.usage == Total(Charges(
           RecordCompletion(RecordCompletion(run.ledger, Key(epoch, a), ra, c), Key(epoch, b), rb, c)))
  {
    CompletesInto(run, epoch, a, ra);
    CompletesInto(Complete(run, None, epoch, a, ra).run, epoch, b, rb);
  }

  lemma ChargedEitherWay(ledger: Attempts, a: Key, ra: CompletionReport, b: Key, rb: CompletionReport, c: ClusterId)
    requires a != b
    ensures Charges(RecordCompletion(RecordCompletion(ledger, a, ra, c), b, rb, c))
         == Charges(RecordCompletion(RecordCompletion(ledger, b, rb, c), a, ra, c))
  {
    ChargesAfterReport(ledger, a, ra, c);
    ChargesAfterReport(ledger, b, rb, c);
    ChargesAfterReport(RecordCompletion(ledger, a, ra, c), b, rb, c);
    ChargesAfterReport(RecordCompletion(ledger, b, rb, c), a, ra, c);
  }

  /** What a first completion of an attempt leaves, as far as the exit code and the bill. */
  lemma CompletesInto(run: Run, epoch: nat, attempt: nat, report: CompletionReport)
    requires epoch == run.row.epoch && run.row.cluster.Some? && !Reported(run.ledger, Key(epoch, attempt))
    ensures var next := Complete(run, None, epoch, attempt, report).run;
      && next.ledger == RecordCompletion(run.ledger, Key(epoch, attempt), report, run.row.cluster.value)
      && next.row.exitCode == Some(report.exitCode) && next.row.usage == Total(Charges(next.ledger))
      && next.row.epoch == run.row.epoch && next.row.cluster == run.row.cluster
  {}
}
