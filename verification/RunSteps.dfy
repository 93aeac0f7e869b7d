// One run, as the store holds it, and what each operation on it does.
//
// A Run is a row of runs with its rows of run_attempts and its exclusions. Each
// function below is the effect of one transaction on it; RunStore's methods are
// proved to have exactly these effects.
module RunSteps {
  import opened Wrappers
  import opened Phases
  import opened Report
  import opened Ledger

  datatype Row = Row(
    cluster: Option<ClusterId>, epoch: nat, attempt: nat,
    ackDeadline: Option<int>, leaseDeadline: Option<int>,
    status: Status, reason: Option<Reason>, message: Option<Message>,
    failureClass: FailureClass, exitCode: Option<int>, phase: Option<Phase>,
    cancelRequested: bool, ackExpiries: nat,
    result: Result, usage: Usage, turns: nat, completionReceived: bool)
  {
    function State(): State { Report.State(cluster, epoch, attempt, phase) }
  }

  datatype Run = Run(row: Row, ledger: Attempts, excluded: set<ClusterId>)

  datatype Outcome =
    | Done             // the step took effect, or repeated one that had
    | NotDue           // the statement's WHERE selected nothing
    | NotFound         // ErrNotFound
    | WrongEpoch       // EpochError
    | WrongHolder      // OwnershipError
    | LiveAttempt      // LiveAttemptError
    | AlreadyEnded     // ErrRunTerminal
    | Duplicate        // a completion already charged
    | Refused(decision: Decision)

  datatype Effect = Effect(run: Run, outcome: Outcome)

  /** A run at admission: placement's answer, the first epoch, nothing observed. */
  function Admitted(cluster: Option<ClusterId>): Run {
    Run(Row(cluster, 1, 1, None, None, Queued, None, None, NoFailure, None, None,
            false, 0, NoResult, NoUsage, 0, false), map[], {})
  }

  function CheckOwnership(row: Row, caller: ClusterId, epoch: nat): Outcome {
    if epoch != row.epoch then WrongEpoch
    else if row.cluster.Some? && row.cluster.value != caller then WrongHolder
    else Done
  }

  // ---- placement -------------------------------------------------------------

  /** The first cluster of the preference order that has not refused this run. */
  function PickCluster(eligible: seq<ClusterId>, excluded: set<ClusterId>): (pick: Option<ClusterId>)
    ensures pick.Some? ==> pick.value in eligible && pick.value !in excluded
    ensures pick.None? <==> forall c :: c in eligible ==> c in excluded
  {
    if eligible == [] then None
    else if eligible[0] !in excluded then Some(eligible[0])
    else PickCluster(eligible[1..], excluded)
  }

  /** Every cluster the order prefers to the one picked has refused the run. */
  lemma {:induction false} PickIsFirst(eligible: seq<ClusterId>, excluded: set<ClusterId>)
    ensures var pick := PickCluster(eligible, excluded);
      pick.Some? ==> exists i | 0 <= i < |eligible| ::
        eligible[i] == pick.value && forall j | 0 <= j < i :: eligible[j] in excluded
  {
    if eligible != [] && eligible[0] in excluded {
      PickIsFirst(eligible[1..], excluded);
      if PickCluster(eligible, excluded).Some? {
        var i :| 0 <= i < |eligible[1..]| && eligible[1..][i] == PickCluster(eligible[1..], excluded).value
          && forall j | 0 <= j < i :: eligible[1..][j] in excluded;
        forall j | 0 <= j < i + 1 ensures eligible[j] in excluded {
          if j > 0 { assert eligible[1..][j - 1] in excluded; }
        }
        assert eligible[i + 1] == PickCluster(eligible, excluded).value;
      }
    } else if eligible != [] {
      assert eligible[0] == PickCluster(eligible, excluded).value;
    }
  }

  function Place(run: Run, eligible: seq<ClusterId>): Effect {
    var pick := PickCluster(eligible, run.excluded);
    if run.row.status != Queued || run.row.cluster.Some? || pick.None? then Effect(run, NotDue)
    else Effect(run.(row := run.row.(cluster := pick)), Done)
  }

  // ---- ownership -------------------------------------------------------------

  predicate Leasable(row: Row, cluster: ClusterId) {
    row.status == Queued && row.cluster == Some(cluster) && !row.cancelRequested
  }

  function Lease(run: Run, cluster: ClusterId, now: int, ackTimeout: int, ttl: int): Effect {
    if !Leasable(run.row, cluster) then Effect(run, NotDue)
    else
      var row := run.row.(status := Leased, attempt := 1, ackDeadline := Some(now + ackTimeout),
                          leaseDeadline := Some(now + ttl), reason := None, message := None);
      match OpenForLease(run.ledger, Key(row.epoch, 1), cluster)
      case None => Effect(run, LiveAttempt)
      case Some(ledger) => Effect(run.(row := row, ledger := ledger), Done)
  }

  function Ack(run: Run, caller: ClusterId, epoch: nat, now: int, ttl: int): Effect {
    var check := CheckOwnership(run.row, caller, epoch);
    if check != Done then Effect(run, check)
    else if run.row.status != Leased then Effect(run, Done)
    else Effect(run.(row := run.row.(status := Dispatched, ackDeadline := None,
                                     leaseDeadline := Some(now + ttl), reason := None, message := None)), Done)
  }

  /** What every loss of ownership shares: the fence closes and the open attempt with it. */
  function Revoked(run: Run): Run {
    Run(run.row.(epoch := run.row.epoch + 1, attempt := 1, ackDeadline := None, leaseDeadline := None),
        CloseAll(run.ledger), run.excluded)
  }

  function Reject(run: Run, caller: ClusterId, epoch: nat, code: string, message: Option<string>,
                  eligible: seq<ClusterId>): Effect
  {
    var check := CheckOwnership(run.row, caller, epoch);
    if check != Done then Effect(run, check)
    else
      var out := Revoked(run.(excluded := run.excluded + {caller}));
      var pick := PickCluster(eligible, out.excluded);
      if pick.None? then
        Effect(out.(row := out.row.(status := StatusFailed, failureClass := Config,
                                    reason := Some(NoEligibleCluster), message := Some(Rejection(code, message)))), Done)
      else
        Effect(out.(row := out.row.(status := Queued, cluster := pick,
                                    reason := Some(MaterializationRefused),
                                    message := if message.Some? then Some(Told(message.value)) else None)), Done)
  }

  function ExpireAck(run: Run, ceiling: nat, now: int): Effect {
    if !(run.row.status == Leased && run.row.ackDeadline.Some? && run.row.ackDeadline.value < now)
    then Effect(run, NotDue)
    else
      var expiries := run.row.ackExpiries + 1;
      var out := Revoked(run);
      if expiries >= ceiling then
        Effect(out.(row := out.row.(status := StatusFailed, ackExpiries := expiries, failureClass := Infra,
                                    reason := Some(AckTimeoutExhausted),
                                    message := Some(LeasesExpired(expiries)))), Done)
      else
        Effect(out.(row := out.row.(status := Queued, ackExpiries := expiries,
                                    reason := Some(AckDeadlineExceeded))), Done)
  }

  function ExpireLease(run: Run, now: int): Effect {
    if run.row.status.IsLive() && run.row.leaseDeadline.Some? && run.row.leaseDeadline.value < now
    then Effect(run.(row := run.row.(status := Unknown, reason := Some(LeaseDeadlineExceeded))), Done)
    else Effect(run, NotDue)
  }

  function MarkUnknown(run: Run, reason: Reason): Effect {
    if run.row.status.IsLive() then Effect(run.(row := run.row.(status := Unknown, reason := Some(reason))), Done)
    else Effect(run, NotDue)
  }

  // ---- the operator ----------------------------------------------------------

  function RequestCancel(run: Run): Effect {
    if Ended(run.row.phase) || run.row.status.IsTerminal() then Effect(run, AlreadyEnded)
    else if run.row.status == Queued then
      Effect(run.(row := run.row.(status := StatusCancelled, phase := None, cancelRequested := true,
                                  reason := Some(CancelledBeforeDispatch))), Done)
    else Effect(run.(row := run.row.(cancelRequested := true)), Done)
  }

  function Retry(run: Run, eligible: seq<ClusterId>): Effect {
    var out := Revoked(run);
    Effect(out.(row := out.row.(status := Queued, ackExpiries := 0,
                                cluster := PickCluster(eligible, run.excluded), phase := None,
                                reason := Some(OperatorRetry), message := None, failureClass := NoFailure,
                                exitCode := None, cancelRequested := false, completionReceived := false)), Done)
  }

  // ---- reports ---------------------------------------------------------------

  /** An advancing observation, written in full. */
  function WriteObservation(row: Row, obs: Observation, caller: ClusterId): Row
    requires StoredStatus(obs.phase).Some?
  {
    row.(attempt := obs.attempt, cluster := row.cluster.Or(Some(caller)), phase := Some(obs.phase),
         status := StoredStatus(obs.phase).value, reason := obs.reason.Or(row.reason),
         message := obs.message.Or(row.message), failureClass := obs.failureClass.GetOr(row.failureClass),
         exitCode := obs.exitCode.Or(row.exitCode))
  }

  /** A repeat writes one thing: the status of a run that had been lost sight of. */
  function ClearUnknown(row: Row, obs: Observation): Row
    requires StoredStatus(obs.phase).Some?
  {
    if row.status == Unknown then row.(status := StoredStatus(obs.phase).value, reason := None, message := None)
    else row
  }

  /** The fields the run list reads, copied off an attempt's report, and the re-summed charges. */
  ghost function Promote(row: Row, ledger: Attempts, report: CompletionReport): Row {
    row.(result := report.result.Or(row.result), exitCode := Some(report.exitCode),
         failureClass := report.failureClass.GetOr(row.failureClass),
         reason := report.reason.Or(row.reason), message := report.message.Or(row.message),
         completionReceived := true, usage := Total(Charges(ledger)), turns := report.turns)
  }

  ghost function Observe(run: Run, caller: ClusterId, obs: Observation, now: int, ttl: int): Effect {
    var decision := Apply(run.row.State(), obs, caller);
    if decision.verdict == Report.Reject then Effect(run, Refused(decision))
    else
      var row := if decision.verdict == Repeat then ClearUnknown(run.row, obs)
                 else WriteObservation(run.row, obs, caller);
      var key := Key(run.row.epoch, obs.attempt);
      match UpsertAttempt(run.ledger, key, obs, caller)
      case None => Effect(run, LiveAttempt)
      case Some(ledger) =>
        if obs.phase.IsTerminal() then
          Effect(run.(ledger := ledger,
                      row := if Reported(ledger, key) then Promote(row, ledger, ledger[key].completion.value) else row),
                 Done)
        else
          Effect(run.(ledger := ledger, row := if ttl <= 0 then row else row.(leaseDeadline := Some(now + ttl))), Done)
  }

  /** caller is None on the path that reads a stored report back. */
  ghost function Complete(run: Run, caller: Option<ClusterId>, epoch: nat, attempt: nat,
                          report: CompletionReport): Effect
  {
    var key := Key(epoch, attempt);
    if epoch != run.row.epoch then Effect(run, WrongEpoch)
    else if Reported(run.ledger, key) then Effect(run, Duplicate)
    else if caller.None? && run.row.cluster.None? then Effect(run, WrongHolder)
    else
      var ledger := RecordCompletion(run.ledger, key, report, caller.Or(run.row.cluster).value);
      Effect(run.(ledger := ledger, row := Promote(run.row, ledger, report)), Done)
  }
}
