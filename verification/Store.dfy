// The store's operations as they run: read under a row lock, decide, write.
//
// runs maps each run to its row, ledger and exclusions. Every method is proved
// to have exactly the effect RunSteps gives the operation, on the run it names
// and on no other; a transaction that fails leaves everything as it was.
module Store {
  import opened Wrappers
  import opened Phases
  import opened Report
  import opened Ledger
  import opened RunSteps
  import opened Effects

  type AgentType = nat

  const MaxCapacitySlots: nat := 256

  /** An undeclared or oversized capacity reads as the contract's ceiling. */
  function Ceiling(declared: int): int {
    if 0 < declared <= MaxCapacitySlots then declared else MaxCapacitySlots
  }

  /** What the queue order and placement read of a run, fixed at admission. */
  datatype Admission = Admission(id: RunId, agent: AgentType)

  /** The runs a cluster holds and is counted against its capacity; Unknown ones are not. */
  predicate CountsAgainst(row: Row, cluster: ClusterId) {
    row.cluster == Some(cluster) && (row.status == Leased || row.status.IsLive())
  }

  function Active(runs: map<RunId, Run>, cluster: ClusterId): set<RunId> {
    set id | id in runs && CountsAgainst(runs[id].row, cluster)
  }

  /** The runs of a cluster in one of the four statuses that occupy it. */
  function Busy(runs: map<RunId, Run>, cluster: ClusterId): set<RunId> {
    set id | id in runs && runs[id].row.cluster == Some(cluster)
             && runs[id].row.status in {Leased, Dispatched, StatusStarting, StatusRunning}
  }

  /** What a cluster has declared it can hold, between 1 and 256, less what occupies it; nothing undeclared. */
  function Room(capacity: map<ClusterId, int>, runs: map<RunId, Run>, cluster: ClusterId): int {
    if cluster !in capacity then 0
    else (if 1 <= capacity[cluster] <= 256 then capacity[cluster] else 256) - |Busy(runs, cluster)|
  }

  /** Work this cluster could take. */
  predicate Offered(runs: map<RunId, Run>, a: Admission, cluster: ClusterId, runtimes: set<AgentType>) {
    a.id in runs && Waits(runs[a.id].row, cluster) && a.agent in runtimes
  }

  predicate TakesInTurn(runs: map<RunId, Run>, queue: seq<Admission>, leased: seq<Admission>, cluster: ClusterId,
                        runtimes: set<AgentType>)
  {
    forall i, j | 0 <= i < j < |queue| && Offered(runs, queue[i], cluster, runtimes) && queue[j] in leased ::
      queue[i] in leased
  }

  predicate TakesAll(runs: map<RunId, Run>, queue: seq<Admission>, leased: seq<Admission>, cluster: ClusterId,
                     runtimes: set<AgentType>)
  {
    forall a | a in queue && Offered(runs, a, cluster, runtimes) :: a in leased
  }

  lemma ActiveIsBusy(runs: map<RunId, Run>, cluster: ClusterId)
    ensures Active(runs, cluster) == Busy(runs, cluster)
  {}

  /** The first of a queue that the filter keeps, at most limit of them. */
  function Select(queue: seq<Admission>, limit: nat, keep: Admission -> bool): (picked: seq<Admission>)
    ensures |picked| <= limit
    ensures forall a | a in picked :: a in queue && keep(a)
    ensures |picked| < limit ==> forall a | a in queue && keep(a) :: a in picked
  {
    if queue == [] || limit == 0 then []
    else if keep(queue[0]) then [queue[0]] + Select(queue[1..], limit - 1, keep)
    else Select(queue[1..], limit, keep)
  }

  /** Those of a queue that the filter keeps, in its order. */
  function Kept(queue: seq<Admission>, keep: Admission -> bool): seq<Admission> {
    if queue == [] then [] else (if keep(queue[0]) then [queue[0]] else []) + Kept(queue[1..], keep)
  }

  /** What is picked is all there is in a front part of the queue, and that part is the whole queue unless the limit was reached. */
  lemma {:induction false} SelectIsFirst(queue: seq<Admission>, limit: nat, keep: Admission -> bool) returns (n: nat)
    ensures n <= |queue| && Select(queue, limit, keep) == Kept(queue[..n], keep)
    ensures n == |queue| || |Select(queue, limit, keep)| == limit
    decreases |queue|
  {
    if queue == [] || limit == 0 {
      n := 0;
    } else {
      var rest := SelectIsFirst(queue[1..], if keep(queue[0]) then limit - 1 else limit, keep);
      n := rest + 1;
      assert queue[..n][1..] == queue[1..][..rest];
    }
  }

  lemma {:induction false} KeptKeeps(queue: seq<Admission>, keep: Admission -> bool)
    ensures forall a :: a in Kept(queue, keep) <==> a in queue && keep(a)
  {
    if queue != [] { KeptKeeps(queue[1..], keep); }
  }

  /** Nothing the filter keeps is passed over for something behind it. */
  predicate InTurn(queue: seq<Admission>, picked: seq<Admission>, keep: Admission -> bool) {
    forall i, j | 0 <= i < j < |queue| && keep(queue[i]) && queue[j] in picked :: queue[i] in picked
  }

  lemma SelectInTurn(queue: seq<Admission>, limit: nat, keep: Admission -> bool)
    requires Distinct(queue)
    ensures InTurn(queue, Select(queue, limit, keep), keep)
  {
    var n := SelectIsFirst(queue, limit, keep);
    KeptKeeps(queue[..n], keep);
    forall i, j | 0 <= i < j < |queue| && keep(queue[i]) && queue[j] in Select(queue, limit, keep)
      ensures queue[i] in Select(queue, limit, keep)
    {
      var k :| 0 <= k < n && queue[..n][k] == queue[j];
      assert k == j && queue[..n][i] == queue[i];
    }
  }

  predicate Distinct(queue: seq<Admission>) {
    forall i, j | 0 <= i < j < |queue| :: queue[i].id != queue[j].id
  }

  lemma {:induction false} SelectDistinct(queue: seq<Admission>, limit: nat, keep: Admission -> bool)
    requires Distinct(queue)
    ensures Distinct(Select(queue, limit, keep))
    decreases |queue|
  {
    if queue != [] && limit != 0 {
      if keep(queue[0]) {
        SelectDistinct(queue[1..], limit - 1, keep);
        var rest := Select(queue[1..], limit - 1, keep);
        forall j | 0 <= j < |rest| ensures rest[j].id != queue[0].id {
          assert rest[j] in queue[1..];
        }
      } else {
        SelectDistinct(queue[1..], limit, keep);
      }
    }
  }

  function Ids(queue: seq<Admission>): (ids: set<RunId>) { set a | a in queue :: a.id }

  class RunStore {
    var runs: map<RunId, Run>
    var queue: seq<Admission>  // every run, by priority then age
    var capacity: map<ClusterId, int>

    predicate Valid()
      reads this
    {
      Distinct(queue) && forall a | a in queue :: a.id in runs
    }

    constructor ()
      ensures Valid() && runs == map[]
    {
      runs, queue, capacity := map[], [], map[];
    }

    // ---- the statements the transactions are made of ---------------------------

    method UpdateRow(id: RunId, row: Row)
      requires id in runs
      modifies this`runs
      ensures runs == old(runs)[id := old(runs)[id].(row := row)]
    {
      runs := runs[id := runs[id].(row := row)];
    }

    method UpdateLedger(id: RunId, ledger: Attempts)
      requires id in runs
      modifies this`runs
      ensures runs == old(runs)[id := old(runs)[id].(ledger := ledger)]
    {
      runs := runs[id := runs[id].(ledger := ledger)];
    }

    /** lease_epoch + 1, and the trigger that closes the attempt it revokes. */
    method RaiseEpoch(id: RunId)
      requires id in runs
      modifies this`runs
      ensures runs == old(runs)[id := Revoked(old(runs)[id])]
    {
      var row := runs[id].row;
      UpdateRow(id, row.(epoch := row.epoch + 1, attempt := 1, ackDeadline := None, leaseDeadline := None));
      UpdateLedger(id, CloseAll(runs[id].ledger));
    }

    // ---- ownership ---------------------------------------------------------------

    method AckLease(id: RunId, caller: ClusterId, epoch: nat, now: int, ttl: int) returns (out: Outcome, repeated: bool)
      modifies this`runs
      ensures id !in old(runs) ==> out == NotFound && runs == old(runs)
      ensures id in old(runs) ==>
        var effect := Ack(old(runs)[id], caller, epoch, now, ttl);
        runs == old(runs)[id := effect.run] && out == effect.outcome
      ensures id in old(runs) ==> AfterAck(old(runs)[id], runs[id], caller, epoch, now, ttl, out)
      ensures out == Done ==> repeated == (old(runs)[id].row.status != Leased)
    {
      if id !in runs { return NotFound, false; }
      AckOfOne(runs[id], caller, epoch, now, ttl);
      var locked := runs[id].row;
      out := CheckOwnership(locked, caller, epoch);
      if out != Done { return out, false; }
      if locked.status != Leased { return Done, true; }
      UpdateRow(id, locked.(status := Dispatched, ackDeadline := None, leaseDeadline := Some(now + ttl),
                            reason := None, message := None));
      return Done, false;
    }

    method RejectLease(id: RunId, caller: ClusterId, epoch: nat, code: string, message: Option<string>,
                       eligible: seq<ClusterId>)
      returns (out: Outcome)
      modifies this`runs
      ensures id !in old(runs) ==> out == NotFound && runs == old(runs)
      ensures id in old(runs) ==>
        var effect := RunSteps.Reject(old(runs)[id], caller, epoch, code, message, eligible);
        runs == old(runs)[id := effect.run] && out == effect.outcome
      ensures id in old(runs) ==> AfterRejection(old(runs)[id], runs[id], caller, epoch, code, message, eligible, out)
    {
      if id !in runs { return NotFound; }
      RejectionOfOne(runs[id], caller, epoch, code, message, eligible);
      out := CheckOwnership(runs[id].row, caller, epoch);
      if out != Done { return; }
      runs := runs[id := runs[id].(excluded := runs[id].excluded + {caller})];
      var next := PickCluster(eligible, runs[id].excluded);
      RaiseEpoch(id);
      var row := runs[id].row;
      if next.None? {
        UpdateRow(id, row.(status := StatusFailed, failureClass := Config, reason := Some(NoEligibleCluster),
                           message := Some(Rejection(code, message))));
      } else {
        UpdateRow(id, row.(status := Queued, cluster := next, reason := Some(MaterializationRefused),
                           message := if message.Some? then Some(Told(message.value)) else None));
      }
    }

    /** How many more runs the cluster may hold: its capacity less what it holds. */
    method LeaseHeadroom(cluster: ClusterId) returns (room: int)
      ensures cluster !in capacity ==> room == 0
      ensures cluster in capacity ==> room == Ceiling(capacity[cluster]) - |Active(runs, cluster)|
      ensures room == Room(capacity, runs, cluster)
    {
      ActiveIsBusy(runs, cluster);
      if cluster !in capacity { return 0; }
      var slots := capacity[cluster];
      if slots <= 0 || slots > MaxCapacitySlots {
        slots := MaxCapacitySlots;
      }
      room := slots - |Active(runs, cluster)|;
    }

    /**
     * Hands work to a cluster: the first leasable runs of the queue it can run,
     * no more than asked for and no more than its capacity leaves room for.
     */
    method Lease(cluster: ClusterId, runtimes: set<AgentType>, asked: int, now: int, ackTimeout: int, ttl: int)
      returns (leased: seq<Admission>, out: Outcome)
      requires Valid()
      modifies this`runs
      ensures Valid() && runs.Keys == old(runs).Keys
      ensures |leased| <= (if asked < 0 then 0 else asked) && Distinct(leased)
      ensures forall a | a in leased ::
        a in queue && a.agent in runtimes && Leasable(old(runs)[a.id].row, cluster)
      ensures out in {Done, LiveAttempt} && (out == LiveAttempt ==> leased == [])
      ensures forall a | a in leased ::
        runs[a.id] == RunSteps.Lease(old(runs)[a.id], cluster, now, ackTimeout, ttl).run
      ensures AllLeased(old(runs), runs, leased, cluster, now, ackTimeout, ttl)
      ensures TakesInTurn(old(runs), queue, leased, cluster, runtimes)
      ensures out == Done && |leased| < asked && |leased| < Room(capacity, old(runs), cluster) ==>
        TakesAll(old(runs), queue, leased, cluster, runtimes)
      ensures forall id | id in runs && id !in Ids(leased) :: runs[id] == old(runs)[id]
      ensures |Active(runs, cluster)| == |Active(old(runs), cluster)| + |leased|
      ensures leased != [] ==> cluster in capacity && |Active(runs, cluster)| <= Ceiling(capacity[cluster])
      ensures (forall a | a in queue && Leasable(old(runs)[a.id].row, cluster) :: !HasOpen(old(runs)[a.id].ledger)) ==>
        out == Done
    {
      var before := runs;
      out := Done;
      leased := PickLeasable(cluster, runtimes, asked);
      LeasedCount(before, before, cluster, []);
      ActiveIsBusy(before, cluster);
      if leased == [] { return; }
      var issued := Issue(leased, cluster, now, ackTimeout, ttl);
      if !issued { return [], LiveAttempt; }
      LeasedOneByOne(before, runs, leased, cluster, now, ackTimeout, ttl);
      LeasedCount(before, runs, cluster, leased);
    }

    /** The rows a poll takes: the first that wait for this cluster, as many as asked for and as there is room. */
    method PickLeasable(cluster: ClusterId, runtimes: set<AgentType>, asked: int) returns (picked: seq<Admission>)
      requires Valid()
      ensures |picked| <= (if asked < 0 then 0 else asked) && (picked != [] ==> |picked| <= Room(capacity, runs, cluster))
      ensures Distinct(picked)
      ensures forall a | a in picked :: a in queue && a.agent in runtimes && Leasable(runs[a.id].row, cluster)
      ensures TakesInTurn(runs, queue, picked, cluster, runtimes)
      ensures |picked| < asked && |picked| < Room(capacity, runs, cluster) ==>
        TakesAll(runs, queue, picked, cluster, runtimes)
    {
      if asked <= 0 || runtimes == {} { return []; }
      var limit: int := asked;
      var headroom := LeaseHeadroom(cluster);
      if limit > headroom { limit := headroom; }
      if limit <= 0 { return []; }
      var before := runs;
      var due := (a: Admission) => a.id in before && Leasable(before[a.id].row, cluster) && a.agent in runtimes;
      picked := Select(queue, limit, due);
      SelectDistinct(queue, limit, due);
      PicksInTurn(before, queue, limit, cluster, runtimes, due);
    }

    /** One UPDATE leases every row; then each opens its attempt, or none is leased. */
    method Issue(leased: seq<Admission>, cluster: ClusterId, now: int, ackTimeout: int, ttl: int) returns (issued: bool)
      requires Distinct(leased) && forall a | a in leased :: a.id in runs && Leasable(runs[a.id].row, cluster)
      modifies this`runs
      ensures runs.Keys == old(runs).Keys && (!issued ==> runs == old(runs))
      ensures issued ==> forall a | a in leased :: IsLeased(old(runs)[a.id], runs[a.id], cluster, now, ackTimeout, ttl)
      ensures forall id | id in runs && id !in Ids(leased) :: runs[id] == old(runs)[id]
      ensures (forall a | a in leased :: !HasOpen(old(runs)[a.id].ledger)) ==> issued
    {
      var before := runs;
      runs := map id | id in before ::
        if id in Ids(leased) then before[id].(row := LeasedRow(before[id].row, now, ackTimeout, ttl)) else before[id];
      for i := 0 to |leased|
        invariant runs.Keys == before.Keys
        invariant forall j | 0 <= j < i :: IsLeased(before[leased[j].id], runs[leased[j].id], cluster, now, ackTimeout, ttl)
        invariant forall j | i <= j < |leased| :: RowLeased(before[leased[j].id], runs[leased[j].id], now, ackTimeout, ttl)
        invariant forall id | id in runs && id !in Ids(leased) :: runs[id] == before[id]
      {
        var id := leased[i].id;
        assert leased[i] in leased;
        assert RowLeased(before[id], runs[id], now, ackTimeout, ttl);
        var ledger := OpenForLease(runs[id].ledger, Key(runs[id].row.epoch, 1), cluster);
        if ledger.None? {
          runs := before;
          return false;
        }
        UpdateLedger(id, ledger.value);
        assert IsLeased(before[id], runs[id], cluster, now, ackTimeout, ttl);
      }
      return true;
    }

    // ---- the scanners ------------------------------------------------------------

    /**
     * One statement over every row. Each overdue lease loses its ownership and its
     * open attempt, and is queued for the same cluster, or failed when it has
     * expired as often as it may; no other row changes, and afterwards none is
     * overdue. The rows it touched come back with what became of them.
     */
    method ExpireAcks(ceiling: nat, now: int) returns (expired: set<RunId>, exhausted: set<RunId>)
      modifies this`runs
      ensures runs.Keys == old(runs).Keys
      ensures forall id | id in runs ::
        AfterAckExpiry(old(runs)[id], runs[id], id in expired, id in exhausted, ceiling, now)
      ensures runs == map id | id in old(runs) :: ExpireAck(old(runs)[id], ceiling, now).run
      ensures expired == set id | id in old(runs) && ExpireAck(old(runs)[id], ceiling, now).outcome == Done
      ensures exhausted == set id | id in expired && runs[id].row.status == StatusFailed
    {
      expired := set id | id in runs && ExpireAck(runs[id], ceiling, now).outcome == Done;
      runs := map id | id in runs :: ExpireAck(runs[id], ceiling, now).run;
      exhausted := set id | id in expired && runs[id].row.status == StatusFailed;
      ExpiredOneByOne(old(runs), runs, expired, exhausted, ceiling, now);
    }

    /** Exactly the confirmed runs past their lease are out of sight, and afterwards none is past its lease. */
    method ExpireLeases(now: int) returns (lost: set<RunId>)
      modifies this`runs
      ensures runs.Keys == old(runs).Keys && lost <= runs.Keys
      ensures forall id | id in runs :: AfterLeaseExpiry(old(runs)[id], runs[id], id in lost, now)
      ensures runs == map id | id in old(runs) :: ExpireLease(old(runs)[id], now).run
      ensures lost == set id | id in old(runs) && old(runs)[id].row.status.IsLive() && runs[id].row.status == Unknown
    {
      lost := set id | id in runs && ExpireLease(runs[id], now).outcome == Done;
      runs := map id | id in runs :: ExpireLease(runs[id], now).run;
      forall id | id in runs ensures AfterLeaseExpiry(old(runs)[id], runs[id], id in lost, now) {
        LeaseExpiryOfOne(old(runs)[id], now);
      }
    }

    method MarkUnknown(ids: seq<RunId>, reason: Reason)
      modifies this`runs
      ensures runs == map id | id in old(runs) ::
        if id in ids then RunSteps.MarkUnknown(old(runs)[id], reason).run else old(runs)[id]
      ensures forall id | id in runs :: AfterLosingSight(old(runs)[id], runs[id],
        id in ids && old(runs)[id].row.status in {Dispatched, StatusStarting, StatusRunning}, reason)
    {
      for i := 0 to |ids|
        invariant runs == map id | id in old(runs) ::
          if id in ids[..i] then RunSteps.MarkUnknown(old(runs)[id], reason).run else old(runs)[id]
      {
        var id := ids[i];
        assert ids[..i + 1] == ids[..i] + [id];
        if id in runs && runs[id].row.status.IsLive() {
          UpdateRow(id, runs[id].row.(status := Unknown, reason := Some(reason)));
        }
      }
      assert ids[..|ids|] == ids;
    }

    /** Gives the longest-waiting unplaced runs a cluster that has not refused them. */
    method PlaceQueued(byAge: seq<Admission>, limit: nat, eligible: AgentType -> seq<ClusterId>)
      returns (placed: nat, ghost waiting: seq<Admission>)
      requires Distinct(byAge) && forall a | a in byAge :: a.id in runs
      modifies this`runs
      ensures waiting == Select(byAge, limit, (a: Admission) => a.id in old(runs) && NeedsPlace(old(runs)[a.id].row))
      ensures runs.Keys == old(runs).Keys
      ensures forall a | a in waiting :: runs[a.id] == Place(old(runs)[a.id], eligible(a.agent)).run
      ensures forall a | a in waiting :: AfterPlacing(old(runs)[a.id], runs[a.id], eligible(a.agent))
      ensures |waiting| < limit ==> LeavesNoneWaiting(old(runs), byAge, waiting)
      ensures forall id | id in runs && id !in Ids(waiting) :: runs[id] == old(runs)[id]
      ensures placed > 0 <==> exists a | a in waiting :: runs[a.id].row.cluster.Some?
    {
      var before := runs;
      var due := (a: Admission) => a.id in before && NeedsPlace(before[a.id].row);
      var found := Select(byAge, limit, due);
      waiting := found;
      SelectDistinct(byAge, limit, due);
      PicksTheWaiting(before, byAge, limit, due);
      placed := PlaceEach(found, eligible);
      PlacedOneByOne(before, runs, found, eligible);
    }

    method PlaceEach(found: seq<Admission>, eligible: AgentType -> seq<ClusterId>) returns (placed: nat)
      requires Distinct(found) && forall a | a in found :: a.id in runs && NeedsPlace(runs[a.id].row)
      modifies this`runs
      ensures runs.Keys == old(runs).Keys
      ensures forall a | a in found :: IsPlaced(old(runs), runs, a, eligible)
      ensures forall id | id in runs && id !in Ids(found) :: runs[id] == old(runs)[id]
      ensures placed > 0 <==> exists a | a in found :: runs[a.id].row.cluster.Some?
    {
      var before := runs;
      placed := 0;
      for i := 0 to |found|
        invariant runs.Keys == before.Keys
        invariant forall j | 0 <= j < i :: IsPlaced(before, runs, found[j], eligible)
        invariant forall j | i <= j < |found| :: runs[found[j].id] == before[found[j].id]
        invariant forall id | id in runs && id !in Ids(found) :: runs[id] == before[id]
        invariant placed > 0 <==> exists j | 0 <= j < i :: runs[found[j].id].row.cluster.Some?
      {
        var a := found[i];
        assert a in found && NeedsPlace(before[a.id].row);
        ghost var last := runs;
        var cluster := PickCluster(eligible(a.agent), runs[a.id].excluded);
        if cluster.Some? {
          UpdateRow(a.id, runs[a.id].row.(cluster := cluster));
          placed := placed + 1;
        }
        assert IsPlaced(before, runs, a, eligible);
        assert forall j | 0 <= j < |found| && j != i :: runs[found[j].id] == last[found[j].id];
      }
    }

    // ---- the operator --------------------------------------------------------------

    method RequestCancel(id: RunId) returns (out: Outcome)
      modifies this`runs
      ensures id !in old(runs) ==> out == NotFound && runs == old(runs)
      ensures id in old(runs) ==>
        var effect := RunSteps.RequestCancel(old(runs)[id]);
        runs == old(runs)[id := effect.run] && out == effect.outcome
      ensures id in old(runs) ==> AfterCancelling(old(runs)[id], runs[id], out)
    {
      if id !in runs { return NotFound; }
      CancellingOfOne(runs[id]);
      var locked := runs[id].row;
      if Ended(locked.phase) || locked.status.IsTerminal() { return AlreadyEnded; }
      if locked.status == Queued {
        UpdateRow(id, locked.(status := StatusCancelled, phase := None, cancelRequested := true,
                              reason := Some(CancelledBeforeDispatch)));
      } else {
        UpdateRow(id, locked.(cancelRequested := true));
      }
      return Done;
    }

    method Retry(id: RunId, eligible: seq<ClusterId>) returns (out: Outcome)
      modifies this`runs
      ensures id !in old(runs) ==> out == NotFound && runs == old(runs)
      ensures id in old(runs) ==>
        out == Done && runs == old(runs)[id := RunSteps.Retry(old(runs)[id], eligible).run]
      ensures id in old(runs) ==> AfterRetrying(old(runs)[id], runs[id], eligible)
    {
      if id !in runs { return NotFound; }
      RetryingOfOne(runs[id], eligible);
      var cluster := PickCluster(eligible, runs[id].excluded);
      RaiseEpoch(id);
      UpdateRow(id, runs[id].row.(status := Queued, ackExpiries := 0, cluster := cluster, phase := None,
                                  reason := Some(OperatorRetry), message := None, failureClass := NoFailure,
                                  exitCode := None, cancelRequested := false, completionReceived := false));
      return Done;
    }

    // ---- reports -------------------------------------------------------------------

    method UpsertAttempt(id: RunId, key: Key, obs: Observation, cluster: ClusterId) returns (written: bool)
      requires id in runs
      modifies this`runs
      ensures var next := Ledger.UpsertAttempt(old(runs)[id].ledger, key, obs, cluster);
        written == next.Some? && (written ==> runs == old(runs)[id := old(runs)[id].(ledger := next.value)])
    {
      UpdateLedger(id, CloseSuperseded(runs[id].ledger, key));
      var ledger, reported := runs[id].ledger, obs.failureClass.GetOr(NoFailure);
      if key in ledger {
        var e := ledger[key];
        e := e.(phase := Some(obs.phase), exitCode := obs.exitCode.Or(e.exitCode));
        e := e.(failureClass := MergeClass(reported, e.failureClass), checkpoint := e.checkpoint + obs.checkpoint);
        if Finishes(obs) { e := e.(open := false); }
        UpdateLedger(id, ledger[key := e]);
        return true;
      }
      var entry := Entry(cluster, Some(obs.phase), obs.exitCode, reported, obs.checkpoint, None, NoUsage, !Finishes(obs));
      if entry.open && HasOpen(ledger) { return false; }
      UpdateLedger(id, ledger[key := entry]);
      return true;
    }

    /** The sum the run is billed, over every attempt it ever had. */
    method Totals(ledger: Attempts) returns (sum: Usage)
      ensures sum == Total(Charges(ledger))
    {
      sum := NoUsage;
      var charges := Charges(ledger);
      var rest := charges;
      while rest != map[]
        invariant rest.Keys <= charges.Keys && forall k | k in rest :: rest[k] == charges[k]
        invariant sum.Plus(Total(rest)) == Total(charges)
        decreases |rest|
      {
        var k :| k in rest;
        TotalWithout(rest, k);
        sum := sum.Plus(rest[k]);
        rest := rest - {k};
      }
    }

    method PromoteAttempt(id: RunId, report: CompletionReport)
      requires id in runs
      modifies this`runs
      ensures runs == old(runs)[id := old(runs)[id].(row := Promote(old(runs)[id].row, old(runs)[id].ledger, report))]
    {
      var row := runs[id].row;
      var totals := Totals(runs[id].ledger);
      row := row.(result := report.result.Or(row.result), exitCode := Some(report.exitCode),
                  failureClass := report.failureClass.GetOr(row.failureClass));
      row := row.(reason := report.reason.Or(row.reason), message := report.message.Or(row.message),
                  completionReceived := true);
      UpdateRow(id, row.(usage := totals, turns := report.turns));
    }

    /** Lifts a report that was there before the terminal status onto the run. */
    method PromoteCompletion(id: RunId, key: Key) returns (recovered: bool)
      requires id in runs
      modifies this`runs
      ensures recovered == Reported(old(runs)[id].ledger, key)
      ensures runs == if !recovered then old(runs) else old(runs)[id := old(runs)[id].(row :=
        Promote(old(runs)[id].row, old(runs)[id].ledger, old(runs)[id].ledger[key].completion.value))]
    {
      recovered := Reported(runs[id].ledger, key);
      if recovered {
        PromoteAttempt(id, runs[id].ledger[key].completion.value);
      }
    }

    method ObserveInTx(id: RunId, caller: ClusterId, obs: Observation, now: int, ttl: int)
      returns (out: Outcome, status: Option<Status>)
      modifies this`runs
      ensures id !in old(runs) ==> out == NotFound && runs == old(runs)
      ensures id in old(runs) ==>
        var effect := Observe(old(runs)[id], caller, obs, now, ttl);
        runs == old(runs)[id := effect.run] && out == effect.outcome
      ensures out == Done && obs.phase.IsTerminal() ==>
        status == StatusFor(obs.phase, Reported(runs[id].ledger, Key(obs.epoch, obs.attempt)))
      ensures id in old(runs) && !(out == Done && obs.phase.IsTerminal()) ==> status == Some(runs[id].row.status)
      ensures out == NotFound ==> status.None?
    {
      if id !in runs { return NotFound, None; }
      var before := runs;
      var locked := runs[id].row;
      status := Some(locked.status);
      var decision := Apply(locked.State(), obs, caller);
      if decision.verdict == Report.Reject { return Refused(decision), status; }
      if decision.verdict == Repeat {
        if locked.status == Unknown {
          status := StoredStatus(obs.phase);
          UpdateRow(id, locked.(status := status.value, reason := None, message := None));
        }
      } else {
        status := StoredStatus(obs.phase);
        UpdateRow(id, WriteObservation(locked, obs, caller));
      }
      var written := UpsertAttempt(id, Key(locked.epoch, obs.attempt), obs, caller);
      if !written {
        runs := before;
        return LiveAttempt, Some(locked.status);
      }
      if obs.phase.IsTerminal() {
        var recovered := PromoteCompletion(id, Key(locked.epoch, obs.attempt));
        return Done, StatusFor(obs.phase, recovered);
      }
      if ttl > 0 {
        UpdateRow(id, runs[id].row.(leaseDeadline := Some(now + ttl)));
      }
      return Done, status;
    }

    /** A report is evaluated and what the decision says is written, or nothing is. */
    method ApplyObservation(id: RunId, caller: ClusterId, obs: Observation, now: int, ttl: int)
      returns (out: Outcome, status: Option<Status>)
      modifies this`runs
      ensures id !in old(runs) ==> out == NotFound && runs == old(runs) && status.None?
      ensures id in old(runs) ==>
        var effect := Observe(old(runs)[id], caller, obs, now, ttl);
        runs == old(runs)[id := effect.run] && out == effect.outcome
      ensures id in old(runs) && out != Done ==> runs == old(runs)
      ensures id in old(runs) && out == Done ==> AfterReport(old(runs)[id], runs[id], caller, obs, now, ttl)
      ensures out == Done && obs.phase.IsTerminal() ==>
        status == StatusFor(obs.phase, Reported(runs[id].ledger, Key(obs.epoch, obs.attempt)))
      ensures id in old(runs) && out == Done && IsEnding(obs.phase) ==>
        TellsEnding(status, obs.phase, ReportIn(runs[id].ledger, Key(obs.epoch, obs.attempt)))
      ensures id in old(runs) && !(out == Done && obs.phase.IsTerminal()) ==> status == Some(runs[id].row.status)
    {
      ghost var before := runs;
      out, status := ObserveInTx(id, caller, obs, now, ttl);
      if id in before {
        ReportOfOne(before[id], caller, obs, now, ttl);
        if out != Done { assert before[id := before[id]] == before; }
        if out == Done { EndingIsTold(obs.phase, ReportIn(runs[id].ledger, Key(obs.epoch, obs.attempt))); }
      }
    }

    method ApplyCompletion(id: RunId, sender: Option<ClusterId>, epoch: nat, attempt: nat, report: CompletionReport)
      returns (out: Outcome)
      modifies this`runs
      ensures id !in old(runs) ==> out == NotFound && runs == old(runs)
      ensures id in old(runs) ==>
        var effect := Complete(old(runs)[id], sender, epoch, attempt, report);
        runs == old(runs)[id := effect.run] && out == effect.outcome
      ensures id in old(runs) ==> AfterCompletion(old(runs)[id], runs[id], sender, epoch, attempt, report, out)
    {
      if id !in runs { return NotFound; }
      CompletionOfOne(runs[id], sender, epoch, attempt, report);
      var locked, key := runs[id].row, Key(epoch, attempt);
      if epoch != locked.epoch { return WrongEpoch; }
      if Reported(runs[id].ledger, key) { return Duplicate; }
      var holder := sender.Or(locked.cluster);
      if holder.None? { return WrongHolder; }
      UpdateLedger(id, RecordCompletion(runs[id].ledger, key, report, holder.value));
      PromoteAttempt(id, report);
      return Done;
    }
  }

  /** What the controller is told of an ending: that the result is missing, until the pod's report is in. */
  predicate TellsEnding(told: Option<Status>, phase: Phase, reported: bool) {
    told.Some? && if reported then Says(told.value, phase) else told.value == CompletedWithoutResult
  }

  lemma EndingIsTold(phase: Phase, reported: bool)
    ensures IsEnding(phase) ==> TellsEnding(StatusFor(phase, reported), phase, reported)
  {}

  /** Every queued run without a cluster is among these. */
  predicate LeavesNoneWaiting(runs: map<RunId, Run>, byAge: seq<Admission>, waiting: seq<Admission>) {
    forall a | a in byAge && a.id in runs && runs[a.id].row.status == Queued && runs[a.id].row.cluster.None? :: a in waiting
  }

  lemma PicksTheWaiting(runs: map<RunId, Run>, byAge: seq<Admission>, limit: nat, due: Admission -> bool)
    requires forall a | a in byAge :: due(a) <==> a.id in runs && NeedsPlace(runs[a.id].row)
    ensures |Select(byAge, limit, due)| < limit ==> LeavesNoneWaiting(runs, byAge, Select(byAge, limit, due))
  {}

  lemma PlacedOneByOne(before: map<RunId, Run>, after: map<RunId, Run>, found: seq<Admission>,
                       eligible: AgentType -> seq<ClusterId>)
    requires forall a | a in found :: IsPlaced(before, after, a, eligible)
    ensures forall a | a in found ::
      a.id in before && a.id in after && AfterPlacing(before[a.id], after[a.id], eligible(a.agent))
  {
    forall a | a in found ensures AfterPlacing(before[a.id], after[a.id], eligible(a.agent)) {
      assert IsPlaced(before, after, a, eligible);
      PlacingOfOne(before[a.id], eligible(a.agent));
    }
  }

  predicate NeedsPlace(row: Row) { row.status == Queued && row.cluster.None? }

  function LeasedRow(row: Row, now: int, ackTimeout: int, ttl: int): Row {
    row.(status := Leased, attempt := 1, ackDeadline := Some(now + ackTimeout),
         leaseDeadline := Some(now + ttl), reason := None, message := None)
  }

  predicate IsPlaced(before: map<RunId, Run>, after: map<RunId, Run>, a: Admission,
                     eligible: AgentType -> seq<ClusterId>)
  {
    a.id in before && a.id in after && after[a.id] == Place(before[a.id], eligible(a.agent)).run
  }

  predicate RowLeased(before: Run, after: Run, now: int, ackTimeout: int, ttl: int) {
    after == before.(row := LeasedRow(before.row, now, ackTimeout, ttl))
  }

  predicate IsLeased(before: Run, after: Run, cluster: ClusterId, now: int, ackTimeout: int, ttl: int) {
    after.row == LeasedRow(before.row, now, ackTimeout, ttl) && after.excluded == before.excluded
    && OpenForLease(before.ledger, Key(before.row.epoch, 1), cluster) == Some(after.ledger)
  }

  /** Each of these runs is leased, as its columns say. */
  predicate AllLeased(before: map<RunId, Run>, after: map<RunId, Run>, leased: seq<Admission>, cluster: ClusterId,
                      now: int, ackTimeout: int, ttl: int)
  {
    forall a | a in leased ::
      a.id in before && a.id in after && AfterLeasing(before[a.id], after[a.id], cluster, now, ackTimeout, ttl)
  }

  lemma ExpiredOneByOne(before: map<RunId, Run>, after: map<RunId, Run>, expired: set<RunId>, exhausted: set<RunId>,
                        ceiling: nat, now: int)
    requires after == map id | id in before :: ExpireAck(before[id], ceiling, now).run
    requires expired == set id | id in before && ExpireAck(before[id], ceiling, now).outcome == Done
    requires exhausted == set id | id in expired && after[id].row.status == StatusFailed
    ensures forall id | id in after :: AfterAckExpiry(before[id], after[id], id in expired, id in exhausted, ceiling, now)
  {
    forall id | id in after ensures AfterAckExpiry(before[id], after[id], id in expired, id in exhausted, ceiling, now) {
      AckExpiryOfOne(before[id], ceiling, now);
    }
  }

  lemma LeasedOneByOne(before: map<RunId, Run>, after: map<RunId, Run>, leased: seq<Admission>, cluster: ClusterId,
                       now: int, ackTimeout: int, ttl: int)
    requires forall a | a in leased :: a.id in before && a.id in after && Leasable(before[a.id].row, cluster)
    requires forall a | a in leased :: IsLeased(before[a.id], after[a.id], cluster, now, ackTimeout, ttl)
    ensures AllLeased(before, after, leased, cluster, now, ackTimeout, ttl)
    ensures forall a | a in leased :: after[a.id] == RunSteps.Lease(before[a.id], cluster, now, ackTimeout, ttl).run
  {
    forall a | a in leased
      ensures after[a.id] == RunSteps.Lease(before[a.id], cluster, now, ackTimeout, ttl).run
      ensures AfterLeasing(before[a.id], after[a.id], cluster, now, ackTimeout, ttl)
    {
      assert IsLeased(before[a.id], after[a.id], cluster, now, ackTimeout, ttl);
      LeasingOfOne(before[a.id], cluster, now, ackTimeout, ttl);
    }
  }

  lemma PicksInTurn(runs: map<RunId, Run>, queue: seq<Admission>, limit: nat, cluster: ClusterId, runtimes: set<AgentType>,
                    due: Admission -> bool)
    requires Distinct(queue) && forall a | a in queue :: due(a) <==> Offered(runs, a, cluster, runtimes)
    ensures TakesInTurn(runs, queue, Select(queue, limit, due), cluster, runtimes)
    ensures |Select(queue, limit, due)| < limit ==> TakesAll(runs, queue, Select(queue, limit, due), cluster, runtimes)
  {
    SelectInTurn(queue, limit, due);
  }

  lemma {:induction false} DistinctCount(queue: seq<Admission>)
    requires Distinct(queue)
    ensures |Ids(queue)| == |queue|
    decreases |queue|
  {
    if queue != [] {
      DistinctCount(queue[1..]);
      assert Ids(queue) == {queue[0].id} + Ids(queue[1..]);
      assert queue[0].id !in Ids(queue[1..]);
    }
  }

  /** Leasing counts against the cluster's capacity exactly what it hands out. */
  lemma LeasedCount(before: map<RunId, Run>, after: map<RunId, Run>, cluster: ClusterId, leased: seq<Admission>)
    requires after.Keys == before.Keys && Distinct(leased)
    requires forall a | a in leased ::
      a.id in before && before[a.id].row.status == Queued && CountsAgainst(after[a.id].row, cluster)
    requires forall id | id in before && id !in Ids(leased) :: after[id] == before[id]
    ensures |Active(after, cluster)| == |Active(before, cluster)| + |leased|
  {
    DistinctCount(leased);
    assert Active(after, cluster) == Active(before, cluster) + Ids(leased);
    assert Active(before, cluster) !! Ids(leased);
  }
}
