// run_attempts: the accounting unit. One row per (epoch, attempt) of a run.
module Ledger {
  import opened Wrappers
  import opened Phases
  import opened Report

  /** Money in micro-dollars, and the token counts billed with it. */
  datatype Usage = Usage(cost: nat, input: nat, output: nat, cacheRead: nat, cacheWrite: nat) {
    function Plus(u: Usage): Usage {
      Usage(cost + u.cost, input + u.input, output + u.output, cacheRead + u.cacheRead, cacheWrite + u.cacheWrite)
    }
  }

  const NoUsage := Usage(0, 0, 0, 0, 0)

  predicate AddsUp(sum: Usage, a: Usage, b: Usage) {
    && sum.cost == a.cost + b.cost && sum.input == a.input + b.input && sum.output == a.output + b.output
    && sum.cacheRead == a.cacheRead + b.cacheRead && sum.cacheWrite == a.cacheWrite + b.cacheWrite
  }

  lemma PlusSwaps(a: Usage, b: Usage, c: Usage)
    ensures a.Plus(b.Plus(c)) == b.Plus(a.Plus(c))
  {}

  /** What a pod's report promotes onto the run; a field it leaves unset is None. */
  datatype Result = Result(
    summary: Option<string>, prUrl: Option<string>, prNumber: Option<int>,
    prAction: Option<string>, commitSha: Option<string>, pushed: Option<bool>)
  {
    function Or(other: Result): Result {
      Result(summary.Or(other.summary), prUrl.Or(other.prUrl), prNumber.Or(other.prNumber),
             prAction.Or(other.prAction), commitSha.Or(other.commitSha), pushed.Or(other.pushed))
    }
  }

  const NoResult := Result(None, None, None, None, None, None)

  datatype CompletionReport = CompletionReport(
    exitCode: int, failureClass: Option<FailureClass>, reason: Option<Reason>, message: Option<Message>,
    result: Result, usage: Usage, turns: nat, checkpoint: set<RuntimePhase>)

  datatype Key = Key(epoch: nat, attempt: nat)

  /** open is "finished_at IS NULL"; completion is the stored report, None before it arrives. */
  datatype Entry = Entry(
    cluster: ClusterId, phase: Option<Phase>, exitCode: Option<int>, failureClass: FailureClass,
    checkpoint: set<RuntimePhase>, completion: Option<CompletionReport>, usage: Usage, open: bool)
  {
    /** Ended by the platform: the claim is released, the record stays. */
    function Released(): Entry {
      if open then this.(open := false, failureClass := if failureClass == NoFailure then Infra else failureClass)
      else this
    }
  }

  type Attempts = map<Key, Entry>

  predicate HasOpen(ledger: Attempts) {
    exists k | k in ledger :: ledger[k].open
  }

  /** The trigger on a raised epoch: whatever was open is finished. */
  function CloseAll(ledger: Attempts): Attempts {
    map k | k in ledger :: ledger[k].Released()
  }

  /** A higher attempt finishes the lower ones of its epoch. */
  function CloseSuperseded(ledger: Attempts, newer: Key): Attempts {
    if newer.attempt <= 1 then ledger else
    map k | k in ledger ::
      if k.epoch == newer.epoch && k.attempt < newer.attempt then ledger[k].Released() else ledger[k]
  }

  /** A new row, refused (None) by the one-live-attempt index when it would be a second open one. */
  function Insert(ledger: Attempts, key: Key, entry: Entry): Option<Attempts>
    requires key !in ledger
  {
    if entry.open && HasOpen(ledger) then None else Some(ledger[key := entry])
  }

  /** Issuance opens the attempt's row; ON CONFLICT DO NOTHING. */
  function OpenForLease(ledger: Attempts, key: Key, cluster: ClusterId): Option<Attempts> {
    if key in ledger then Some(ledger)
    else Insert(ledger, key, Entry(cluster, None, None, NoFailure, {}, None, NoUsage, true))
  }

  function MergeClass(reported: FailureClass, stored: FailureClass): FailureClass {
    if reported == NoFailure then stored else reported
  }

  predicate Finishes(obs: Observation) { obs.finished || obs.phase.IsTerminal() }

  function UpsertAttempt(ledger: Attempts, key: Key, obs: Observation, cluster: ClusterId): Option<Attempts> {
    var closed := CloseSuperseded(ledger, key);
    var reported := obs.failureClass.GetOr(NoFailure);
    if key in closed then
      var e := closed[key];
      Some(closed[key := e.(phase := Some(obs.phase), exitCode := obs.exitCode.Or(e.exitCode),
                            failureClass := MergeClass(reported, e.failureClass),
                            checkpoint := e.checkpoint + obs.checkpoint,
                            open := e.open && !Finishes(obs))])
    else
      Insert(closed, key, Entry(cluster, Some(obs.phase), obs.exitCode, reported, obs.checkpoint,
                                None, NoUsage, !Finishes(obs)))
  }

  /** The pod's report on its attempt's row, which it finishes. */
  function RecordCompletion(ledger: Attempts, key: Key, report: CompletionReport, cluster: ClusterId): Attempts {
    var reported := report.failureClass.GetOr(NoFailure);
    if key in ledger then
      var e := ledger[key];
      ledger[key := e.(exitCode := Some(report.exitCode), failureClass := MergeClass(reported, e.failureClass),
                       checkpoint := e.checkpoint + report.checkpoint, completion := Some(report),
                       usage := report.usage, open := false)]
    else
      ledger[key := Entry(cluster, None, Some(report.exitCode), reported, report.checkpoint,
                          Some(report), report.usage, false)]
  }

  predicate Reported(ledger: Attempts, key: Key) {
    key in ledger && ledger[key].completion.Some?
  }

  /** The checkpoint accumulated under one epoch, over all its attempts. */
  function CompletedPhases(ledger: Attempts, epoch: nat): set<RuntimePhase> {
    set k, p: RuntimePhase | k in ledger && k.epoch == epoch && p in ledger[k].checkpoint :: p
  }

  // ---- sums ------------------------------------------------------------------

  function Charges(ledger: Attempts): map<Key, Usage> {
    map k | k in ledger :: ledger[k].usage
  }

  ghost function Total(charges: map<Key, Usage>): Usage {
    if charges == map[] then NoUsage
    else var k :| k in charges; charges[k].Plus(Total(charges - {k}))
  }

  lemma NothingCostsNothing()
    ensures Total(map[]) == Usage(0, 0, 0, 0, 0)
  {}

  /** A sum may be taken in any order: any key can be the one split off. */
  lemma {:induction false} TotalWithout(charges: map<Key, Usage>, k: Key)
    requires k in charges
    ensures Total(charges) == charges[k].Plus(Total(charges - {k}))
    decreases |charges|
  {
    var j :| j in charges && Total(charges) == charges[j].Plus(Total(charges - {j}));
    if j != k {
      var rest := charges - {j} - {k};
      assert rest == charges - {k} - {j};
      TotalWithout(charges - {j}, k);
      TotalWithout(charges - {k}, j);
      assert Total(charges - {j}) == charges[k].Plus(Total(rest));
      assert Total(charges - {k}) == charges[j].Plus(Total(rest));
      PlusSwaps(charges[j], charges[k], Total(rest));
    }
  }

  /** Field by field: money and each count of tokens apart. */
  lemma TotalAddsUp(charges: map<Key, Usage>, k: Key)
    requires k in charges
    ensures AddsUp(Total(charges), charges[k], Total(charges - {k}))
  {
    TotalWithout(charges, k);
  }

  /** Rows that charge nothing do not change the sum. */
  lemma {:induction false} TotalIgnoresZeros(charges: map<Key, Usage>, part: map<Key, Usage>)
    requires part.Keys <= charges.Keys
    requires forall k :: k in charges ==> charges[k] == if k in part then part[k] else NoUsage
    ensures Total(charges) == Total(part)
    decreases |charges|
  {
    if charges.Keys == part.Keys {
      assert charges == part;
    } else {
      var k :| k in charges && k !in part;
      var rest := charges - {k};
      assert forall j | j in rest :: rest[j] == charges[j];
      TotalIgnoresZeros(rest, part);
      TotalWithout(charges, k);
    }
  }
}
