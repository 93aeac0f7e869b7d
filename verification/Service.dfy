// The use cases that touch many runs in one call: the heartbeat and the sweep.
module Service {
  import opened Wrappers
  import opened Phases
  import opened Report
  import opened Ledger
  import opened RunSteps
  import opened Effects
  import opened Protocol
  import opened Store
  import Traces

  datatype Reported = Reported(id: RunId, obs: Observation)

  predicate IsActive(row: Row, cluster: ClusterId) {
    row.cluster == Some(cluster) && (row.status in {Leased, Unknown} || row.status.IsLive())
  }

  predicate IsToStop(row: Row, cluster: ClusterId) {
    IsActive(row, cluster) && row.cancelRequested && !Ended(row.phase)
  }

  /** Exactly the runs a cluster has that are to be cancelled, and go on, are to stop. */
  lemma StopsWhatIsCancelled(row: Row, cluster: ClusterId)
    ensures IsToStop(row, cluster) <==> row.cancelRequested && Traces.OnCluster(row, cluster)
  {}

  lemma LosesWhatIsSilent(row: Row, cluster: ClusterId, mentioned: bool, complete: bool)
    ensures IsLost(row, cluster, mentioned, complete) <==>
      complete && row.cluster == Some(cluster) && !mentioned && row.status in {Dispatched, StatusStarting, StatusRunning}
  {}

  /** An acknowledged run a complete report does not mention. */
  predicate IsLost(row: Row, cluster: ClusterId, mentioned: bool, complete: bool) {
    IsActive(row, cluster) && complete && !mentioned && row.status != Leased && row.status != Unknown
  }

  /** The observations of one call, applied in order; a run nobody knows is skipped. */
  ghost function ApplyAll(runs: map<RunId, Run>, caller: ClusterId, reports: seq<Reported>, now: int, ttl: int)
    : map<RunId, Run>
  {
    if reports == [] then runs
    else
      var before := ApplyAll(runs, caller, reports[..|reports| - 1], now, ttl);
      var last := reports[|reports| - 1];
      if last.id in before then before[last.id := Observe(before[last.id], caller, last.obs, now, ttl).run] else before
  }

  ghost function Replay(run: Run, events: seq<Event>, ceiling: nat): Run {
    if events == [] then run
    else EffectOf(Replay(run, events[..|events| - 1], ceiling), events[|events| - 1], ceiling).run
  }

  /** What a sweep may do to a run. */
  predicate Housekeeping(event: Event) {
    event.AckExpiring? || event.LeaseExpiring? || event.Placing? || (event.Completing? && event.sender == None)
  }

  /** after is before, moved by these protocol steps and nothing else. */
  ghost predicate Follows(before: Run, after: Run, steps: seq<Event>, ceiling: nat) {
    after == Replay(before, steps, ceiling) && forall e | e in steps :: Housekeeping(e)
  }

  lemma FollowsStep(before: Run, after: Run, steps: seq<Event>, event: Event, ceiling: nat)
    requires Follows(before, after, steps, ceiling) && Housekeeping(event)
    ensures Follows(before, EffectOf(after, event, ceiling).run, steps + [event], ceiling)
  {
    assert (steps + [event])[..|steps|] == steps;
  }

  ghost predicate AllFollow(start: map<RunId, Run>, runs: map<RunId, Run>, trail: map<RunId, seq<Event>>, ceiling: nat) {
    runs.Keys == start.Keys == trail.Keys && forall id | id in trail :: Follows(start[id], runs[id], trail[id], ceiling)
  }

  lemma AllFollowStep(start: map<RunId, Run>, runs: map<RunId, Run>, trail: map<RunId, seq<Event>>, ceiling: nat,
                      id: RunId, event: Event, next: map<RunId, Run>)
    requires AllFollow(start, runs, trail, ceiling) && id in runs && Housekeeping(event)
    requires next == runs[id := EffectOf(runs[id], event, ceiling).run]
    ensures AllFollow(start, next, trail[id := trail[id] + [event]], ceiling)
  {
    FollowsStep(start[id], runs[id], trail[id], event, ceiling);
  }

  /** An acknowledgement timeout that was not the last one puts the run back in the queue; nothing else does. */
  lemma RequeuedByExpiry(start: map<RunId, Run>, after: map<RunId, Run>, expired: set<RunId>, exhausted: set<RunId>,
                         ceiling: nat, now: int)
    requires after == map id | id in start :: Expired(start[id], ceiling, now)
    requires expired == set id | id in start && ExpireAck(start[id], ceiling, now).outcome == Done
    requires exhausted == set id | id in expired && ExpireAck(start[id], ceiling, now).run.row.status == StatusFailed
    ensures |expired| > |exhausted| <==> exists id | id in after ::
      start[id].row.status == Leased && after[id].row.status == Queued
  {
    assert expired == exhausted + (expired - exhausted);
    assert |expired| > |exhausted| <==> expired - exhausted != {};
    forall id | id in start
      ensures id in expired - exhausted <==> start[id].row.status == Leased && after[id].row.status == Queued
    {
      ExpiredStatus(start[id], ceiling, now);
    }
  }

  lemma ExpiredStatus(run: Run, ceiling: nat, now: int)
    ensures run.row.status == Leased && Expired(run, ceiling, now).row.status == Queued <==>
      ExpireAck(run, ceiling, now).outcome == Done && ExpireAck(run, ceiling, now).run.row.status != StatusFailed
  {}

  /** An unconfirmed lease past its deadline is given up, a confirmed one is out of sight, and no other run changes. */
  predicate AfterExpiry(before: Run, after: Run, ceiling: nat, now: int) {
    if Effects.Overdue(before.row, now)
    then AfterAckExpiry(before, after, true, before.row.ackExpiries + 1 >= ceiling, ceiling, now)
    else AfterLeaseExpiry(before, after, Silent(before.row, now), now)
  }

  lemma ExpiryOfOne(run: Run, ceiling: nat, now: int)
    ensures AfterExpiry(run, Expired(run, ceiling, now), ceiling, now)
  {
    AckExpiryOfOne(run, ceiling, now);
    LeaseExpiryOfOne(ExpireAck(run, ceiling, now).run, now);
  }

  /** The run became work a cluster can lease: it is queued, and it was leased or had no cluster before. */
  predicate Freed(before: Row, after: Row) {
    after.status == Queued && (before.status == Leased || (before.cluster.None? && after.cluster.Some?))
  }

  predicate SamePlaces(before: map<RunId, Run>, after: map<RunId, Run>) {
    && after.Keys == before.Keys
    && forall id | id in before ::
         after[id].row.status == before[id].row.status && after[id].row.cluster == before[id].row.cluster
  }

  /** Expiry and placement, put together run by run. */
  lemma Released(start: map<RunId, Run>, expired: map<RunId, Run>, after: map<RunId, Run>, byAge: seq<Admission>,
                 waiting: seq<Admission>, eligible: AgentType -> seq<ClusterId>, ceiling: nat, now: int)
    returns (trail: map<RunId, seq<Event>>)
    requires expired == (map id | id in start :: Expired(start[id], ceiling, now)) && after.Keys == start.Keys
    requires waiting == Select(byAge, 100, (a: Admission) => a.id in expired && NeedsPlace(expired[a.id].row))
    requires forall a | a in waiting :: a.id in start && after[a.id] == Place(expired[a.id], eligible(a.agent)).run
    requires forall id | id in start && id !in Ids(waiting) :: after[id] == expired[id]
    ensures AllFollow(start, after, trail, ceiling) && AllReleasing(trail, now)
    ensures AnyFreed(start, after) <==>
      (exists id | id in expired :: start[id].row.status == Leased && expired[id].row.status == Queued)
      || (exists a | a in waiting :: after[a.id].row.cluster.Some?)
  {
    trail := map id | id in start :: SweepTrail(id, waiting, eligible, now);
    TrailsFollow(start, expired, after, waiting, eligible, ceiling, now);
    TrailsRelease(start, waiting, eligible, now);
    forall a | a in waiting ensures NeedsPlace(expired[a.id].row) && after[a.id].row.status == Queued {
      PlacedStaysQueued(expired[a.id], eligible(a.agent));
    }
    FreedBySweep(start, expired, after, waiting, ceiling, now);
  }

  lemma PlacedStaysQueued(run: Run, eligible: seq<ClusterId>)
    requires NeedsPlace(run.row)
    ensures Place(run, eligible).run.row.status == Queued
  {}

  ghost predicate AnyFreed(before: map<RunId, Run>, after: map<RunId, Run>)
    requires before.Keys == after.Keys
  {
    exists id | id in after :: Freed(before[id].row, after[id].row)
  }

  lemma FreedStays(start: map<RunId, Run>, released: map<RunId, Run>, after: map<RunId, Run>)
    requires start.Keys == released.Keys && SamePlaces(released, after)
    ensures AnyFreed(start, released) <==> AnyFreed(start, after)
  {
    assert forall id | id in start ::
      Freed(start[id].row, released[id].row) <==> Freed(start[id].row, after[id].row);
  }

  lemma FreedBySweep(start: map<RunId, Run>, expired: map<RunId, Run>, after: map<RunId, Run>,
                     waiting: seq<Admission>, ceiling: nat, now: int)
    requires expired == (map id | id in start :: Expired(start[id], ceiling, now)) && after.Keys == start.Keys
    requires forall a | a in waiting ::
      a.id in start && NeedsPlace(expired[a.id].row) && after[a.id].row.status == Queued
    requires forall id | id in start && id !in Ids(waiting) :: after[id] == expired[id]
    ensures AnyFreed(start, after) <==>
      (exists id | id in expired :: start[id].row.status == Leased && expired[id].row.status == Queued)
      || (exists a | a in waiting :: after[a.id].row.cluster.Some?)
  {
    forall id | id in start
      ensures Freed(start[id].row, after[id].row) <==>
        (start[id].row.status == Leased && expired[id].row.status == Queued)
        || (id in Ids(waiting) && after[id].row.cluster.Some?)
    {
      ExpiryKeepsPlace(start[id], ceiling, now);
    }
  }

  lemma ExpiryKeepsPlace(run: Run, ceiling: nat, now: int)
    ensures Expired(run, ceiling, now).row.cluster == run.row.cluster
    ensures Expired(run, ceiling, now).row.status == Queued ==> run.row.status in {Leased, Queued}
  {}

  /**
   * What a heartbeat answers: the caller is to stop exactly the runs it has that
   * are to be cancelled and go on, and has lost exactly the confirmed ones a
   * complete report leaves out.
   */
  predicate Answers(seen: map<RunId, Run>, caller: ClusterId, reports: seq<Reported>, complete: bool, lost: seq<RunId>,
                    cancels: set<RunId>)
  {
    forall id | id in seen ::
      && (id in cancels <==> seen[id].row.cancelRequested && Traces.OnCluster(seen[id].row, caller))
      && (id in lost <==>
            complete && seen[id].row.cluster == Some(caller) && !(exists r | r in reports :: r.id == id)
            && seen[id].row.status in {Dispatched, StatusStarting, StatusRunning})
  }

  lemma AnswersOneByOne(seen: map<RunId, Run>, caller: ClusterId, reports: seq<Reported>, mentioned: set<RunId>,
                        complete: bool, lost: seq<RunId>, cancels: set<RunId>)
    requires mentioned == set r | r in reports :: r.id
    requires forall id | id in seen ::
      (id in cancels <==> IsToStop(seen[id].row, caller))
      && (id in lost <==> IsLost(seen[id].row, caller, id in mentioned, complete))
    ensures Answers(seen, caller, reports, complete, lost, cancels)
  {
    forall id | id in seen
      ensures id in cancels <==> seen[id].row.cancelRequested && Traces.OnCluster(seen[id].row, caller)
      ensures id in lost <==>
        complete && seen[id].row.cluster == Some(caller) && !(exists r | r in reports :: r.id == id)
        && seen[id].row.status in {Dispatched, StatusStarting, StatusRunning}
    {
      StopsWhatIsCancelled(seen[id].row, caller);
      LosesWhatIsSilent(seen[id].row, caller, id in mentioned, complete);
    }
  }

  class Backend {
    const store: RunStore

    constructor (store: RunStore)
      ensures this.store == store
    {
      this.store := store;
    }

    /**
     * Applies what the cluster reports, then asks it to stop the active runs
     * somebody wants cancelled, and marks Unknown exactly the acknowledged runs a
     * complete report leaves out.
     */
    method Heartbeat(caller: ClusterId, reports: seq<Reported>, complete: bool, now: int, ttl: int)
      returns (lost: seq<RunId>, cancels: set<RunId>)
      modifies store`runs
      ensures var seen := ApplyAll(old(store.runs), caller, reports, now, ttl);
        && Beaten(seen, store.runs, lost)
        && (forall id | id in seen ::
              (id in lost <==> IsLost(seen[id].row, caller, exists r | r in reports :: r.id == id, complete)))
        && cancels <= seen.Keys && (forall id | id in seen :: (id in cancels <==> IsToStop(seen[id].row, caller)))
        && Answers(seen, caller, reports, complete, lost, cancels)
    {
      var mentioned: set<RunId> := {};
      for i := 0 to |reports|
        invariant mentioned == set r | r in reports[..i] :: r.id
        invariant store.runs == ApplyAll(old(store.runs), caller, reports[..i], now, ttl)
      {
        var r := reports[i];
        mentioned := mentioned + {r.id};
        var out, status := store.ApplyObservation(r.id, caller, r.obs, now, ttl);
        assert reports[..i + 1] == reports[..i] + [r];
        assert reports[..i + 1][..i] == reports[..i];
      }
      assert reports[..|reports|] == reports;

      var seen := store.runs;
      var active := set id | id in seen && IsActive(seen[id].row, caller);
      lost, cancels := [], {};
      while active != {}
        invariant active <= seen.Keys && forall id | id in active :: IsActive(seen[id].row, caller) && id !in lost
        invariant cancels <= seen.Keys && active !! cancels
        invariant forall id | id in seen && id !in active :: (id in cancels <==> IsToStop(seen[id].row, caller))
        invariant forall id | id in seen && id !in active ::
          (id in lost <==> IsLost(seen[id].row, caller, id in mentioned, complete))
      {
        var id :| id in active;
        active := active - {id};
        var row := seen[id].row;
        if row.cancelRequested && !Ended(row.phase) {
          cancels := cancels + {id};
        }
        if complete && id !in mentioned && row.status != Leased && row.status != Unknown {
          lost := lost + [id];
        }
      }
      AnswersOneByOne(seen, caller, reports, mentioned, complete, lost, cancels);
      if lost != [] {
        store.MarkUnknown(lost, NotReportedByCluster);
      }
    }

    /** The two deadlines; requeued says whether a run went back to the queue. */
    method Expire(ceiling: nat, now: int) returns (requeued: bool)
      modifies store`runs
      ensures store.runs == map id | id in old(store.runs) :: Expired(old(store.runs)[id], ceiling, now)
      ensures store.runs.Keys == old(store.runs).Keys
      ensures forall id | id in store.runs :: AfterExpiry(old(store.runs)[id], store.runs[id], ceiling, now)
      ensures requeued <==> exists id | id in store.runs ::
        old(store.runs)[id].row.status == Leased && store.runs[id].row.status == Queued
    {
      ghost var start := store.runs;
      var expired, exhausted := store.ExpireAcks(ceiling, now);
      requeued := |expired| > |exhausted|;
      var lost := store.ExpireLeases(now);
      RequeuedByExpiry(start, store.runs, expired, exhausted, ceiling, now);
      forall id | id in store.runs ensures AfterExpiry(start[id], store.runs[id], ceiling, now) {
        ExpiryOfOne(start[id], ceiling, now);
      }
    }

    /** The steps that put work within a cluster's reach, expiry before placement. */
    method Release(ceiling: nat, now: int, byAge: seq<Admission>, eligible: AgentType -> seq<ClusterId>)
      returns (broadcast: bool, ghost trail: map<RunId, seq<Event>>)
      requires Distinct(byAge) && forall a | a in byAge :: a.id in store.runs
      modifies store`runs
      ensures AllFollow(old(store.runs), store.runs, trail, ceiling)
      ensures AllReleasing(trail, now)
      ensures broadcast <==> AnyFreed(old(store.runs), store.runs)
    {
      ghost var start := store.runs;
      var requeued := Expire(ceiling, now);
      ghost var expired := store.runs;
      var placed, waiting := store.PlaceQueued(byAge, 100, eligible);
      broadcast := requeued || placed > 0;
      trail := Released(start, expired, store.runs, byAge, waiting, eligible, ceiling, now);
    }

    /**
     * One pass of the sweeper. Run by run it is a sequence of protocol steps, in
     * the fixed order expire, lose, place, collect, each once at most; long polls
     * are woken exactly when a run went back to the queue or found a cluster.
     */
    method Sweep(ceiling: nat, now: int, byAge: seq<Admission>, byEnd: seq<Admission>,
                 eligible: AgentType -> seq<ClusterId>, stored: map<RunId, StoredReport>)
      returns (broadcast: bool, ghost trail: map<RunId, seq<Event>>)
      requires Distinct(byAge) && forall a | a in byAge :: a.id in store.runs
      requires Distinct(byEnd) && forall a | a in byEnd :: a.id in store.runs
      modifies store`runs
      ensures AllFollow(old(store.runs), store.runs, trail, ceiling)
      ensures AllSweeping(trail, now)
      ensures broadcast <==> AnyFreed(old(store.runs), store.runs)
    {
      ghost var start := store.runs;
      ghost var first;
      broadcast, first := Release(ceiling, now, byAge, eligible);
      ghost var released := store.runs;
      trail := Collect(byEnd, stored, start, first, ceiling);
      FreedStays(start, released, store.runs);
      ReleasedThenCollected(first, trail, now);
    }

    /**
     * What storage holds for runs that ended without their report is applied: of
     * the 50 that ended first, those there is a report of, once each, and as a
     * completion of the run's own epoch.
     */
    method Collect(byEnd: seq<Admission>, stored: map<RunId, StoredReport>, ghost start: map<RunId, Run>,
                   ghost trail: map<RunId, seq<Event>>, ghost ceiling: nat)
      returns (ghost after: map<RunId, seq<Event>>)
      requires AllFollow(start, store.runs, trail, ceiling)
      requires Distinct(byEnd) && forall a | a in byEnd :: a.id in store.runs
      modifies store`runs
      ensures AllFollow(start, store.runs, after, ceiling)
      ensures SamePlaces(old(store.runs), store.runs)
      ensures AllCollecting(trail, after)
      ensures AllCollected(old(store.runs), Ids(PendingResults(old(store.runs), byEnd)), stored, trail, after)
    {
      ghost var before := store.runs;
      var pending := PendingResults(store.runs, byEnd);
      PendingAreRuns(before, byEnd);
      after := CollectEach(pending, stored, start, trail, ceiling);
      CollectedCollects(before, Ids(pending), stored, trail, after);
    }

    method CollectEach(pending: seq<Admission>, stored: map<RunId, StoredReport>, ghost start: map<RunId, Run>,
                       ghost trail: map<RunId, seq<Event>>, ghost ceiling: nat)
      returns (ghost after: map<RunId, seq<Event>>)
      requires AllFollow(start, store.runs, trail, ceiling)
      requires Distinct(pending) && forall i | 0 <= i < |pending| :: pending[i].id in store.runs
      modifies store`runs
      ensures AllFollow(start, store.runs, after, ceiling)
      ensures HalfCollected(old(store.runs), store.runs, Ids(pending), stored, trail, after)
    {
      after := trail;
      for i := 0 to |pending|
        invariant AllFollow(start, store.runs, after, ceiling)
        invariant HalfCollected(old(store.runs), store.runs, Ids(pending[..i]), stored, trail, after)
      {
        OneMoreId(pending, i);
        ghost var runs, last := store.runs, after;
        after := CollectOne(pending[i].id, stored, start, after, ceiling);
        HalfCollectedStep(old(store.runs), runs, store.runs, Ids(pending[..i]), stored, trail, last, after, pending[i].id);
      }
      assert pending[..|pending|] == pending;
    }

    method CollectOne(id: RunId, stored: map<RunId, StoredReport>, ghost start: map<RunId, Run>,
                      ghost trail: map<RunId, seq<Event>>, ghost ceiling: nat)
      returns (ghost after: map<RunId, seq<Event>>)
      requires AllFollow(start, store.runs, trail, ceiling) && id in store.runs
      modifies store`runs
      ensures AllFollow(start, store.runs, after, ceiling) && SamePlaces(old(store.runs), store.runs)
      ensures Untouched(old(store.runs), store.runs, {id})
      ensures id in trail && after == trail[id := trail[id] + Recovery(old(store.runs)[id].row, id, stored)]
    {
      ghost var before := store.runs;
      after := trail;
      if id in stored {
        var event := RecoverResult(id, stored[id], ceiling);
        AllFollowStep(start, before, after, ceiling, id, event, store.runs);
        after := after[id := after[id] + [event]];
      } else {
        assert trail[id] + [] == trail[id];
        assert trail[id := trail[id]] == trail;
      }
    }

    /** The stored report as a completion of the run's epoch, by the attempt it names or the run's own. */
    method RecoverResult(id: RunId, found: StoredReport, ghost ceiling: nat) returns (ghost event: Event)
      requires id in store.runs
      modifies store`runs
      ensures event == RecoveryOf(old(store.runs)[id].row, found)
      ensures store.runs == old(store.runs)[id := EffectOf(old(store.runs)[id], event, ceiling).run]
      ensures SamePlaces(old(store.runs), store.runs)
    {
      var row := store.runs[id].row;
      var attempt := found.attempt;
      if attempt == 0 { attempt := row.attempt; }
      var out := store.ApplyCompletion(id, None, row.epoch, attempt, found.report);
      event := Completing(None, row.epoch, attempt, found.report);
      CompletedRow(old(store.runs)[id], None, row.epoch, attempt, found.report);
    }
  }

  /** completion.json, as the artifact store holds it; attempt 0 means it names none. */
  datatype StoredReport = StoredReport(attempt: nat, report: CompletionReport)

  function RecoveryOf(row: Row, found: StoredReport): Event {
    Completing(None, row.epoch, if found.attempt == 0 then row.attempt else found.attempt, found.report)
  }

  /** Ended, with a phase to show for it, and still without the pod's report. */
  predicate LacksReport(row: Row) {
    row.status in {StatusSucceeded, StatusFailed, StatusTimedOut, StatusCancelled} && row.phase.Some? && !row.completionReceived
  }

  /** The first fifty to end of those whose report is missing. */
  function PendingResults(runs: map<RunId, Run>, byEnd: seq<Admission>): (pending: seq<Admission>)
    ensures |pending| <= 50
    ensures forall a | a in pending :: a in byEnd && a.id in runs && LacksReport(runs[a.id].row)
    ensures |pending| < 50 ==> forall a | a in byEnd && a.id in runs && LacksReport(runs[a.id].row) :: a in pending
  {
    Select(byEnd, 50, (a: Admission) => a.id in runs && AwaitsReport(runs[a.id].row))
  }

  predicate Untouched(before: map<RunId, Run>, runs: map<RunId, Run>, ids: set<RunId>) {
    runs.Keys == before.Keys && forall id | id in before && id !in ids :: runs[id] == before[id]
  }

  lemma PendingAreRuns(runs: map<RunId, Run>, byEnd: seq<Admission>)
    requires Distinct(byEnd)
    ensures var pending := PendingResults(runs, byEnd);
      Distinct(pending) && forall i | 0 <= i < |pending| :: pending[i].id in runs
  {
    SelectDistinct(byEnd, 50, (a: Admission) => a.id in runs && AwaitsReport(runs[a.id].row));
    var pending := PendingResults(runs, byEnd);
    forall i | 0 <= i < |pending| ensures pending[i].id in runs { assert pending[i] in pending; }
  }

  lemma OneMoreId(queue: seq<Admission>, i: nat)
    requires Distinct(queue) && i < |queue|
    ensures Ids(queue[..i + 1]) == Ids(queue[..i]) + {queue[i].id} && queue[i].id !in Ids(queue[..i])
  {
    assert queue[..i + 1] == queue[..i] + [queue[i]];
  }

  /** Expired, lost, and placed if it was waiting. */
  predicate Releasing(trail: seq<Event>, now: int) {
    && 2 <= |trail| <= 3 && trail[0] == AckExpiring(now) && trail[1] == LeaseExpiring(now)
    && (|trail| == 3 ==> trail[2].Placing?)
  }

  /** After nothing else, or one stored report. */
  predicate Collecting(trail: seq<Event>, after: seq<Event>) {
    after == trail
    || (|after| == |trail| + 1 && after[..|trail|] == trail && after[|trail|].Completing? && after[|trail|].sender.None?)
  }

  function Recovery(row: Row, id: RunId, stored: map<RunId, StoredReport>): seq<Event> {
    if id in stored then [RecoveryOf(row, stored[id])] else []
  }

  /** The stored report of each chosen run, as a completion of its own epoch, and nothing else. */
  predicate AllCollected(runs: map<RunId, Run>, chosen: set<RunId>, stored: map<RunId, StoredReport>,
                         trail: map<RunId, seq<Event>>, after: map<RunId, seq<Event>>)
  {
    && after.Keys == trail.Keys == runs.Keys
    && forall id | id in after ::
         after[id] == trail[id] + if id in chosen then Recovery(runs[id].row, id, stored) else []
  }

  predicate HalfCollected(before: map<RunId, Run>, runs: map<RunId, Run>, done: set<RunId>,
                          stored: map<RunId, StoredReport>, trail: map<RunId, seq<Event>>, after: map<RunId, seq<Event>>)
  {
    AllCollected(before, done, stored, trail, after) && SamePlaces(before, runs) && Untouched(before, runs, done)
  }

  lemma HalfCollectedStep(before: map<RunId, Run>, runs: map<RunId, Run>, next: map<RunId, Run>, done: set<RunId>,
                          stored: map<RunId, StoredReport>, trail: map<RunId, seq<Event>>,
                          last: map<RunId, seq<Event>>, after: map<RunId, seq<Event>>, id: RunId)
    requires HalfCollected(before, runs, done, stored, trail, last) && id in runs && id !in done
    requires SamePlaces(runs, next) && Untouched(runs, next, {id})
    requires after == last[id := last[id] + Recovery(runs[id].row, id, stored)]
    ensures HalfCollected(before, next, done + {id}, stored, trail, after)
  {
    assert runs[id] == before[id];
    CollectedOneMore(before, done, stored, trail, last, after, id);
  }

  lemma CollectedOneMore(runs: map<RunId, Run>, done: set<RunId>, stored: map<RunId, StoredReport>,
                         trail: map<RunId, seq<Event>>, last: map<RunId, seq<Event>>, after: map<RunId, seq<Event>>,
                         id: RunId)
    requires AllCollected(runs, done, stored, trail, last) && id in runs && id !in done
    requires after == last[id := last[id] + Recovery(runs[id].row, id, stored)]
    ensures AllCollected(runs, done + {id}, stored, trail, after)
  {
    assert trail[id] + [] == trail[id];
  }

  predicate AllCollecting(trail: map<RunId, seq<Event>>, after: map<RunId, seq<Event>>) {
    after.Keys == trail.Keys && forall id | id in after :: Collecting(trail[id], after[id])
  }

  lemma CollectedCollects(runs: map<RunId, Run>, chosen: set<RunId>, stored: map<RunId, StoredReport>,
                          trail: map<RunId, seq<Event>>, after: map<RunId, seq<Event>>)
    requires AllCollected(runs, chosen, stored, trail, after)
    ensures AllCollecting(trail, after)
  {}

  predicate AllReleasing(trail: map<RunId, seq<Event>>, now: int) {
    forall id | id in trail :: Releasing(trail[id], now)
  }

  predicate AllSweeping(trail: map<RunId, seq<Event>>, now: int) {
    forall id | id in trail :: Sweeping(trail[id], now)
  }

  lemma ReleasedThenCollected(first: map<RunId, seq<Event>>, trail: map<RunId, seq<Event>>, now: int)
    requires AllReleasing(first, now) && AllCollecting(first, trail)
    ensures AllSweeping(trail, now)
  {
    forall id | id in trail ensures Sweeping(trail[id], now) {
      assert Releasing(first[id], now) && Collecting(first[id], trail[id]);
    }
  }

  lemma TrailsRelease(start: map<RunId, Run>, waiting: seq<Admission>, eligible: AgentType -> seq<ClusterId>, now: int)
    ensures AllReleasing(map id | id in start :: SweepTrail(id, waiting, eligible, now), now)
  {}

  /** The fixed order of a sweep: expire, lose, place, collect. */
  predicate Sweeping(trail: seq<Event>, now: int) {
    && 2 <= |trail| <= 4 && trail[0] == AckExpiring(now) && trail[1] == LeaseExpiring(now)
    && (forall i | 2 <= i < |trail| :: trail[i].Placing? || (trail[i].Completing? && trail[i].sender.None?))
    && (|trail| == 4 ==> trail[2].Placing? && trail[3].Completing?)
  }

  predicate AwaitsReport(row: Row) {
    row.status.IsTerminal() && !row.completionReceived && row.phase.Some?
  }

  function Expired(run: Run, ceiling: nat, now: int): Run {
    ExpireLease(ExpireAck(run, ceiling, now).run, now).run
  }

  function AgentOf(id: RunId, waiting: seq<Admission>): (agent: AgentType)
    requires id in Ids(waiting)
    ensures Admission(id, agent) in waiting
  {
    if waiting[0].id == id then waiting[0].agent else AgentOf(id, waiting[1..])
  }

  /** The steps a sweep takes with one run before it collects reports. */
  function SweepTrail(id: RunId, waiting: seq<Admission>, eligible: AgentType -> seq<ClusterId>, now: int): seq<Event> {
    [AckExpiring(now), LeaseExpiring(now)]
    + if id in Ids(waiting) then [Placing(eligible(AgentOf(id, waiting)))] else []
  }

  lemma TrailFollows(start: Run, expired: Run, after: Run, id: RunId, waiting: seq<Admission>,
                     eligible: AgentType -> seq<ClusterId>, ceiling: nat, now: int)
    requires expired == Expired(start, ceiling, now)
    requires forall a | a in waiting && a.id == id :: after == Place(expired, eligible(a.agent)).run
    requires id !in Ids(waiting) ==> after == expired
    ensures Follows(start, after, SweepTrail(id, waiting, eligible, now), ceiling)
  {
    FollowsStep(start, start, [], AckExpiring(now), ceiling);
    FollowsStep(start, ExpireAck(start, ceiling, now).run, [AckExpiring(now)], LeaseExpiring(now), ceiling);
    var expiries := [AckExpiring(now), LeaseExpiring(now)];
    assert [AckExpiring(now)] + [LeaseExpiring(now)] == expiries;
    if id in Ids(waiting) {
      FollowsStep(start, expired, expiries, Placing(eligible(AgentOf(id, waiting))), ceiling);
    } else {
      assert expiries + [] == expiries;
    }
  }

  lemma TrailsFollow(start: map<RunId, Run>, expired: map<RunId, Run>, after: map<RunId, Run>, waiting: seq<Admission>,
                     eligible: AgentType -> seq<ClusterId>, ceiling: nat, now: int)
    requires expired == (map id | id in start :: Expired(start[id], ceiling, now)) && after.Keys == start.Keys
    requires forall a | a in waiting :: a.id in start && after[a.id] == Place(expired[a.id], eligible(a.agent)).run
    requires forall id | id in start && id !in Ids(waiting) :: after[id] == expired[id]
    ensures AllFollow(start, after, map id | id in start :: SweepTrail(id, waiting, eligible, now), ceiling)
  {
    forall id | id in start ensures Follows(start[id], after[id], SweepTrail(id, waiting, eligible, now), ceiling) {
      TrailFollows(start[id], expired[id], after[id], id, waiting, eligible, ceiling, now);
    }
  }

  // ---- every call keeps the protocol's invariant, run by run ----------------------------

  lemma {:induction false} RunSnoc(h: History, events: seq<Event>, event: Event, ceiling: nat)
    ensures Traces.Run(h, events + [event], ceiling) == Protocol.After(Traces.Run(h, events, ceiling), event, ceiling)
    ensures Traces.AllLegal(h, events + [event], ceiling) <==>
      Traces.AllLegal(h, events, ceiling) && SendsOwnEpoch(Traces.Run(h, events, ceiling), event)
    decreases |events|
  {
    if events == [] {
      assert [] + [event] == [event] && [event][1..] == [];
    } else {
      assert (events + [event])[1..] == events[1..] + [event];
      RunSnoc(Protocol.After(h, events[0], ceiling), events[1..], event, ceiling);
    }
  }

  /** Steps under an ownership the run has been through, none of them a lease, are a legal run that keeps the invariant. */
  lemma {:induction false} TrailKeepsInv(h: History, trail: seq<Event>, ceiling: nat)
    requires Inv(h, ceiling) && ceiling >= 1
    requires forall e | e in trail :: SendsOwnEpoch(h, e) && !e.Leasing?
    ensures Traces.AllLegal(h, trail, ceiling) && Inv(Traces.Run(h, trail, ceiling), ceiling)
    ensures Traces.Run(h, trail, ceiling).run == Replay(h.run, trail, ceiling)
    ensures Traces.Run(h, trail, ceiling).issued == h.issued
    decreases |trail|
  {
    if trail != [] {
      var init, last := trail[..|trail| - 1], trail[|trail| - 1];
      assert trail == init + [last] && last in trail;
      TrailKeepsInv(h, init, ceiling);
      RunSnoc(h, init, last, ceiling);
      StepKeepsInv(Traces.Run(h, init, ceiling), last, ceiling);
    }
  }

  /** A stored report speaks of an epoch the run was leased under exactly while the run is held. */
  lemma RecoveryIsOwnIffHeld(h: History, found: StoredReport, ceiling: nat)
    requires Inv(h, ceiling)
    ensures SendsOwnEpoch(h, RecoveryOf(h.run.row, found)) <==> Held(h)
  {}

  lemma {:induction false} ReportsKeepCancel(
    runs: map<RunId, Run>, id: RunId, caller: ClusterId, reports: seq<Reported>, now: int, ttl: int)
    requires id in runs && runs[id].row.cancelRequested
    ensures id in ApplyAll(runs, caller, reports, now, ttl)
    ensures ApplyAll(runs, caller, reports, now, ttl)[id].row.cancelRequested
    decreases |reports|
  {
    if reports != [] { ReportsKeepCancel(runs, id, caller, reports[..|reports| - 1], now, ttl); }
  }

  /**
   * Once a run some cluster has is cancelled, every heartbeat that finds it on
   * the caller and not over asks the caller to stop it, until it is retried.
   */
  lemma CancelIsPassedOn(h: History, holder: ClusterId, events: seq<Event>, ceiling: nat, runs: map<RunId, Run>, id: RunId,
                         caller: ClusterId, reports: seq<Reported>, now: int, ttl: int)
    requires Inv(h, ceiling) && ceiling >= 1 && Traces.OnCluster(h.run.row, holder)
    requires Traces.AllLegal(Protocol.After(h, Cancelling, ceiling), events, ceiling) && Traces.NoRetry(events)
    requires id in runs && runs[id] == Traces.Run(Protocol.After(h, Cancelling, ceiling), events, ceiling).run
    ensures var seen := ApplyAll(runs, caller, reports, now, ttl);
      id in seen && (IsToStop(seen[id].row, caller) <==> Traces.OnCluster(seen[id].row, caller))
  {
    Traces.CancelReachesTheHolder(h, holder, events, ceiling);
    ReportsKeepCancel(runs, id, caller, reports, now, ttl);
    StopsWhatIsCancelled(ApplyAll(runs, caller, reports, now, ttl)[id].row, caller);
  }

  /** The history of a row, as far as a call finds it: one the protocol's invariant holds of. */
  ghost predicate Tracks(h: History, run: Run, ceiling: nat) { h.run == run && Inv(h, ceiling) }

  /** The steps of a call are a legal run of the protocol from this history, and lead to this row. */
  ghost predicate Carries(h: History, trail: seq<Event>, after: Run, ceiling: nat) {
    Traces.AllLegal(h, trail, ceiling) && Tracks(Traces.Run(h, trail, ceiling), after, ceiling)
  }

  /**
   * A sweep, as long as the reports it collects are of epochs their runs were
   * leased under, is a legal run of the protocol on every row and keeps its
   * invariant on all of them.
   */
  lemma SweepKeepsTable(histories: map<RunId, History>, before: map<RunId, Run>, after: map<RunId, Run>,
                        trail: map<RunId, seq<Event>>, ceiling: nat)
    requires ceiling >= 1 && histories.Keys == before.Keys && AllFollow(before, after, trail, ceiling)
    requires forall id | id in before :: Tracks(histories[id], before[id], ceiling)
    requires forall id, e | id in trail && e in trail[id] && e.Completing? :: SendsOwnEpoch(histories[id], e)
    ensures forall id | id in trail :: Carries(histories[id], trail[id], after[id], ceiling)
  {
    forall id | id in trail ensures Carries(histories[id], trail[id], after[id], ceiling) {
      assert Tracks(histories[id], before[id], ceiling);
      SweepOfOne(histories[id], before[id], after[id], trail[id], ceiling);
    }
  }

  lemma SweepOfOne(h: History, before: Run, after: Run, trail: seq<Event>, ceiling: nat)
    requires Tracks(h, before, ceiling) && ceiling >= 1 && Follows(before, after, trail, ceiling)
    requires forall e | e in trail && e.Completing? :: SendsOwnEpoch(h, e)
    ensures Carries(h, trail, after, ceiling)
  {
    TrailKeepsInv(h, trail, ceiling);
  }

  /** What a heartbeat does to one run: its reports in the order they came, and the loss if it is lost. */
  function HeartbeatTrail(id: RunId, caller: ClusterId, reports: seq<Reported>, lost: bool, now: int, ttl: int): seq<Event> {
    ReportsOf(id, caller, reports, now, ttl) + if lost then [LosingSight(NotReportedByCluster)] else []
  }

  function ReportsOf(id: RunId, caller: ClusterId, reports: seq<Reported>, now: int, ttl: int): seq<Event> {
    if reports == [] then []
    else
      var last := reports[|reports| - 1];
      ReportsOf(id, caller, reports[..|reports| - 1], now, ttl)
      + if last.id == id then [Observing(caller, last.obs, now, ttl)] else []
  }

  lemma {:induction false} ReportsReplay(
    runs: map<RunId, Run>, id: RunId, caller: ClusterId, reports: seq<Reported>, now: int, ttl: int, ceiling: nat)
    requires id in runs
    ensures id in ApplyAll(runs, caller, reports, now, ttl)
    ensures ApplyAll(runs, caller, reports, now, ttl)[id]
         == Replay(runs[id], ReportsOf(id, caller, reports, now, ttl), ceiling)
    decreases |reports|
  {
    if reports != [] {
      var init, last := reports[..|reports| - 1], reports[|reports| - 1];
      ReportsReplay(runs, id, caller, init, now, ttl, ceiling);
      var events := ReportsOf(id, caller, init, now, ttl);
      if last.id == id {
        ReplaySnoc(runs[id], events, Observing(caller, last.obs, now, ttl), ceiling);
        ObservingObserves(Replay(runs[id], events, ceiling), caller, last.obs, now, ttl, ceiling);
      } else {
        assert events + [] == events;
      }
    }
  }

  lemma ObservingObserves(run: Run, caller: ClusterId, obs: Observation, now: int, ttl: int, ceiling: nat)
    ensures EffectOf(run, Observing(caller, obs, now, ttl), ceiling) == Observe(run, caller, obs, now, ttl)
  {}

  lemma ReplaySnoc(run: Run, events: seq<Event>, event: Event, ceiling: nat)
    ensures Replay(run, events + [event], ceiling) == EffectOf(Replay(run, events, ceiling), event, ceiling).run
  {
    assert (events + [event])[..|events|] == events;
  }

  lemma {:induction false} ReportsAreReported(
    id: RunId, caller: ClusterId, reports: seq<Reported>, now: int, ttl: int, e: Event)
    requires e in ReportsOf(id, caller, reports, now, ttl)
    ensures exists r | r in reports :: r.id == id && e == Observing(caller, r.obs, now, ttl)
    decreases |reports|
  {
    var init, last := reports[..|reports| - 1], reports[|reports| - 1];
    if last.id == id && e == Observing(caller, last.obs, now, ttl) {
      assert last in reports;
    } else {
      ReportsAreReported(id, caller, init, now, ttl, e);
      var r :| r in init && r.id == id && e == Observing(caller, r.obs, now, ttl);
      assert r in reports;
    }
  }

  /** What a heartbeat leaves of the table: its reports applied, and some runs marked Unknown after. */
  predicate Beaten(seen: map<RunId, Run>, after: map<RunId, Run>, lost: seq<RunId>) {
    after.Keys == seen.Keys && forall id | id in seen ::
      after[id] == if id in lost then RunSteps.MarkUnknown(seen[id], NotReportedByCluster).run else seen[id]
  }

  /**
   * A heartbeat of a cluster that reports what it was leased is a legal run of
   * the protocol on every row, and keeps its invariant on all of them.
   */
  lemma HeartbeatKeepsTable(histories: map<RunId, History>, before: map<RunId, Run>, after: map<RunId, Run>,
                            caller: ClusterId, reports: seq<Reported>, lost: seq<RunId>, now: int, ttl: int, ceiling: nat)
    requires ceiling >= 1 && histories.Keys == before.Keys
    requires forall id | id in before :: Tracks(histories[id], before[id], ceiling)
    requires Beaten(ApplyAll(before, caller, reports, now, ttl), after, lost)
    requires forall r | r in reports && r.id in histories :: IsOwn(histories[r.id], caller, r.obs)
    ensures after.Keys == before.Keys
    ensures forall id | id in before ::
      Carries(histories[id], HeartbeatTrail(id, caller, reports, id in lost, now, ttl), after[id], ceiling)
  {
    SameRows(before, caller, reports, now, ttl);
    forall id | id in before
      ensures Carries(histories[id], HeartbeatTrail(id, caller, reports, id in lost, now, ttl), after[id], ceiling)
    {
      assert Tracks(histories[id], before[id], ceiling);
      HeartbeatOfOne(histories[id], before, after, id, caller, reports, lost, now, ttl, ceiling);
    }
  }

  /** A report under an epoch its sender was leased. */
  predicate IsOwn(h: History, caller: ClusterId, obs: Observation) {
    obs.attempt >= 1 && Holding(caller, obs.epoch) in h.issued
  }

  lemma {:induction false} SameRows(runs: map<RunId, Run>, caller: ClusterId, reports: seq<Reported>, now: int, ttl: int)
    ensures ApplyAll(runs, caller, reports, now, ttl).Keys == runs.Keys
    decreases |reports|
  {
    if reports != [] { SameRows(runs, caller, reports[..|reports| - 1], now, ttl); }
  }

  lemma HeartbeatOfOne(h: History, before: map<RunId, Run>, after: map<RunId, Run>, id: RunId, caller: ClusterId,
                       reports: seq<Reported>, lost: seq<RunId>, now: int, ttl: int, ceiling: nat)
    requires id in before && Tracks(h, before[id], ceiling) && ceiling >= 1
    requires Beaten(ApplyAll(before, caller, reports, now, ttl), after, lost)
    requires forall r | r in reports && r.id == id :: IsOwn(h, caller, r.obs)
    ensures id in after
      && Carries(h, HeartbeatTrail(id, caller, reports, id in lost, now, ttl), after[id], ceiling)
  {
    var trail := HeartbeatTrail(id, caller, reports, id in lost, now, ttl);
    ReportsReplay(before, id, caller, reports, now, ttl, ceiling);
    HeartbeatIsOwn(h, id, caller, reports, id in lost, now, ttl);
    TrailKeepsInv(h, trail, ceiling);
    LossIsReplayed(before[id], id, caller, reports, id in lost, now, ttl, ceiling);
  }

  /** A lost run is marked after its reports were applied. */
  lemma LossIsReplayed(run: Run, id: RunId, caller: ClusterId, reports: seq<Reported>, lost: bool, now: int, ttl: int,
                       ceiling: nat)
    ensures var seen := Replay(run, ReportsOf(id, caller, reports, now, ttl), ceiling);
      Replay(run, HeartbeatTrail(id, caller, reports, lost, now, ttl), ceiling)
        == if lost then RunSteps.MarkUnknown(seen, NotReportedByCluster).run else seen
  {
    var events := ReportsOf(id, caller, reports, now, ttl);
    if lost {
      ReplaySnoc(run, events, LosingSight(NotReportedByCluster), ceiling);
    } else {
      assert events + [] == events;
    }
  }

  lemma HeartbeatIsOwn(h: History, id: RunId, caller: ClusterId, reports: seq<Reported>, lost: bool, now: int, ttl: int)
    requires forall r | r in reports && r.id == id :: IsOwn(h, caller, r.obs)
    ensures forall e | e in HeartbeatTrail(id, caller, reports, lost, now, ttl) :: SendsOwnEpoch(h, e) && !e.Leasing?
  {
    forall e | e in ReportsOf(id, caller, reports, now, ttl) ensures SendsOwnEpoch(h, e) && !e.Leasing? {
      ReportsAreReported(id, caller, reports, now, ttl, e);
    }
  }
}
