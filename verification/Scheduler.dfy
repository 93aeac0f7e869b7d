// One replica's scheduler pass over the schedules table.
//
// Each method runs to its end on its own; Schedules says what survives when
// other replicas and operators come between a pass's reads and its commits. The
// row Fire is given may already be out of date, as it may there.
module Scheduler {
  import opened Wrappers
  import opened Phases
  import opened Schedules

  type ScheduleId = nat

  /** A run as the scheduler sees it. */
  datatype ScheduledRun = ScheduledRun(schedule: Option<ScheduleId>, live: bool, cancelRequested: bool)

  datatype FireResult = FireResult(submitted: nat, skipped: nat, missed: nat, refused: nat, lost: nat) {
    function Count(): nat { submitted + skipped + missed + refused + lost }
  }

  /** What the outside world contributes to a fire: the parsed cron expression and admission's answer. */
  datatype Inputs = Inputs(parse: Parse, admitted: bool)

  predicate Sensible(inputs: Inputs, now: int) { inputs.parse.NextAt? ==> inputs.parse.next > now }

  predicate NewIds(runs: map<RunId, ScheduledRun>, nextId: RunId) { forall r | r in runs :: r < nextId }

  function LiveOf(runs: map<RunId, ScheduledRun>, id: ScheduleId): set<RunId> {
    set r | r in runs && runs[r].schedule == Some(id) && runs[r].live
  }

  /** Under Allow nobody looks. */
  function Looked(row: Schedule, live: set<RunId>): set<RunId> { if row.policy == Allow then {} else live }

  function Planned(row: Schedule, now: int, inputs: Inputs, live: set<RunId>): Plan {
    var plan := PlanFire(row, now, inputs.parse, Looked(row, live));
    if plan.Admit? && !inputs.admitted then Pass(plan.next, NotAdmitted) else plan
  }

  class Replica {
    var schedules: map<ScheduleId, Schedule>
    var runs: map<RunId, ScheduledRun>
    var nextId: RunId

    constructor ()
      ensures schedules == map[] && runs == map[] && NewIds(runs, nextId)
    {
      schedules, runs, nextId := map[], map[], 0;
    }

    /** The fence: one conditional update, which either moves the schedule on or finds nothing to update. */
    method AdvanceSchedule(id: ScheduleId, fence: Fence, next: int, at: int, outcome: FireOutcome) returns (settled: bool)
      modifies this`schedules
      ensures settled == !(id in old(schedules) && Matches(old(schedules)[id], fence))
      ensures schedules == if settled then old(schedules)
                           else old(schedules)[id := Advanced(old(schedules)[id], next, at, outcome)]
    {
      if id !in schedules { return true; }
      var s := schedules[id];
      if !s.enabled || s.nextRunAt != Some(fence.expected) || s.revision != fence.revision { return true; }
      s := s.(nextRunAt := Some(next));
      s := s.(lastFiredAt := Some(at), lastOutcome := Some(outcome));
      schedules := schedules[id := s];
      return false;
    }

    /** The run and the fence in one transaction: neither without the other. */
    method InsertRun(id: ScheduleId, fence: Fence, next: int, at: int) returns (settled: bool, run: RunId)
      requires NewIds(runs, nextId)
      modifies this
      ensures NewIds(runs, nextId)
      ensures settled == !(id in old(schedules) && Matches(old(schedules)[id], fence))
      ensures settled ==> schedules == old(schedules) && runs == old(runs)
      ensures !settled ==>
        && run !in old(runs)
        && schedules == old(schedules)[id := Advanced(old(schedules)[id], next, at, Submitted).(lastRun := Some(run))]
        && runs == old(runs)[run := ScheduledRun(Some(id), true, false)]
    {
      run := nextId;
      settled := AdvanceSchedule(id, fence, next, at, Submitted);
      if settled { return; }
      nextId := nextId + 1;
      runs := runs[run := ScheduledRun(Some(id), true, false)];
      schedules := schedules[id := schedules[id].(lastRun := Some(run))];
    }

    /**
     * Replaces the definition and raises the revision; next is the caller's, and
     * not fenced. Every fire computed before the edit has lost, the schedule is
     * due from next on and at no other time, and what it last did stays on record.
     */
    method UpdateSchedule(id: ScheduleId, enabled: bool, policy: Policy, startingDeadline: Option<nat>, next: Option<int>)
      returns (found: bool)
      requires enabled == next.Some?
      modifies this`schedules
      ensures id in old(schedules) ==> id in schedules && EditedOver(old(schedules)[id], schedules[id])
      ensures id in old(schedules) ==>
        forall now :: Due(schedules[id], now) <==> enabled && next.value <= now
      ensures found == (id in old(schedules))
      ensures schedules == if !found then old(schedules)
        else old(schedules)[id := old(schedules)[id].(enabled := enabled, policy := policy,
               startingDeadline := startingDeadline, nextRunAt := next, revision := old(schedules)[id].revision + 1)]
    {
      if id !in schedules { return false; }
      var s := schedules[id];
      s := s.(enabled := enabled, policy := policy, startingDeadline := startingDeadline);
      s := s.(nextRunAt := next, revision := s.revision + 1);
      schedules := schedules[id := s];
      return true;
    }

    method LiveRunsOfSchedule(id: ScheduleId) returns (live: set<RunId>)
      ensures live == LiveOf(runs, id)
    {
      live := set r | r in runs && runs[r].schedule == Some(id) && runs[r].live;
    }

    method CancelAll(ids: set<RunId>)
      requires ids <= runs.Keys
      modifies this`runs
      ensures runs == map r | r in old(runs) ::
        if r in ids && old(runs)[r].live then old(runs)[r].(cancelRequested := true) else old(runs)[r]
    {
      var rest := ids;
      while rest != {}
        invariant rest <= ids
        invariant runs == map r | r in old(runs) ::
          if r in ids - rest && old(runs)[r].live then old(runs)[r].(cancelRequested := true) else old(runs)[r]
      {
        var r :| r in rest;
        rest := rest - {r};
        if runs[r].live {
          runs := runs[r := runs[r].(cancelRequested := true)];
        }
      }
    }

    /**
     * Fires one schedule from the row the pass read. If the row has moved on the
     * fire is somebody else's and nothing changes; otherwise the schedule is
     * advanced past now exactly once, with a run exactly when the plan admits one.
     */
    method Fire(id: ScheduleId, row: Schedule, now: int, inputs: Inputs) returns (outcome: Option<FireOutcome>)
      requires row.nextRunAt.Some? && NewIds(runs, nextId)
      modifies this
      ensures NewIds(runs, nextId)
      ensures Fired(old(schedules), schedules, id, row, now, Planned(row, now, inputs, LiveOf(old(runs), id)), outcome)
      ensures outcome != Some(Submitted) ==> runs == old(runs)
      ensures outcome == Some(Submitted) ==>
        var run := schedules[id].lastRun.value;
        && run !in old(runs) && runs.Keys == old(runs).Keys + {run} && runs[run] == ScheduledRun(Some(id), true, false)
        && forall r | r in old(runs) :: runs[r] ==
             if row.policy == Replace && r in LiveOf(old(runs), id) then old(runs)[r].(cancelRequested := true) else old(runs)[r]
      ensures outcome.Some? <==> StillDue(old(schedules), id, row)
      ensures outcome.Some? ==> FiredWith(old(runs), id, row, now, inputs, outcome.value)
      ensures outcome.Some? ==>
        && id in schedules && schedules[id].lastOutcome == outcome && schedules[id].lastFiredAt == Some(now)
        && schedules[id].nextRunAt == Some(if inputs.parse.NextAt? then inputs.parse.next else now + 24 * 60 * 60)
      ensures outcome.Some? ==> Replaces(old(runs), runs, id, outcome == Some(Submitted) && row.policy == Replace)
    {
      LiveOverlaps(runs, id);
      var fence := Fence(row.revision, row.nextRunAt.value);
      if inputs.parse.Unreadable? {
        outcome := Advance(id, fence, now + ADay, now, NotAdmitted);
        return;
      }
      var next := inputs.parse.next;
      if row.startingDeadline.Some? && now - fence.expected > row.startingDeadline.value {
        outcome := Advance(id, fence, next, now, Missed);
        return;
      }
      var live := {};
      if row.policy != Allow {
        live := LiveRunsOfSchedule(id);
      }
      if row.policy == Forbid && live != {} {
        outcome := Advance(id, fence, next, now, Skipped);
        return;
      }
      if !inputs.admitted {
        outcome := Advance(id, fence, next, now, NotAdmitted);
        return;
      }
      var settled, run := InsertRun(id, fence, next, now);
      if settled { return None; }
      if row.policy == Replace {
        CancelAll(live);
      }
      return Some(Submitted);
    }

    method Advance(id: ScheduleId, fence: Fence, next: int, at: int, outcome: FireOutcome) returns (recorded: Option<FireOutcome>)
      modifies this`schedules
      ensures recorded == if id in old(schedules) && Matches(old(schedules)[id], fence) then Some(outcome) else None
      ensures schedules == if recorded.None? then old(schedules)
                           else old(schedules)[id := Advanced(old(schedules)[id], next, at, outcome)]
    {
      var settled := AdvanceSchedule(id, fence, next, at, outcome);
      return if settled then None else Some(outcome);
    }

    /**
     * Fires every schedule that is due. Missed slots collapse: whatever was due
     * is fired once, and none of it is due at now any more.
     */
    method FireDueSchedules(now: int, due: seq<ScheduleId>, inputs: ScheduleId -> Inputs) returns (result: FireResult)
      requires NewIds(runs, nextId)
      requires forall i, j | 0 <= i < j < |due| :: due[i] != due[j]
      requires forall id | id in due :: id in schedules && Due(schedules[id], now) && Sensible(inputs(id), now)
      modifies this
      ensures NewIds(runs, nextId) && schedules.Keys == old(schedules).Keys
      ensures result.Count() == |due| && result.lost == 0
      ensures result == Counted(schedules, due)
      ensures CountsOutcomes(result, schedules, due)
      ensures forall id | id in due :: !Due(schedules[id], now) && schedules[id].lastFiredAt == Some(now)
      ensures forall id | id in schedules && id !in due :: schedules[id] == old(schedules)[id]
    {
      var rows := schedules;
      result := FireResult(0, 0, 0, 0, 0);
      for i := 0 to |due|
        invariant NewIds(runs, nextId) && PassedOver(rows, schedules, due[..i], result, now)
      {
        var id := due[i];
        assert id in due && id !in due[..i];
        ghost var before, sofar := schedules, result;
        result := FireDue(id, rows[id], now, inputs(id), result);
        PassedOneMore(rows, before, schedules, due[..i], id, sofar, now);
        assert due[..i + 1] == due[..i] + [id];
      }
      assert due[..|due|] == due;
      CountedIsExact(schedules, due);
    }

    /** A schedule that has not moved since it was read is fired, and its outcome counted. */
    method FireDue(id: ScheduleId, row: Schedule, now: int, inputs: Inputs, sofar: FireResult) returns (result: FireResult)
      requires NewIds(runs, nextId) && id in schedules && schedules[id] == row
      requires Due(row, now) && Sensible(inputs, now)
      modifies this
      ensures NewIds(runs, nextId) && id in schedules && schedules == old(schedules)[id := schedules[id]]
      ensures MovedOn(schedules[id], now) && schedules[id].lastOutcome.Some?
      ensures result == Tally(sofar, schedules[id].lastOutcome)
    {
      var outcome := Fire(id, row, now, inputs);
      result := Tally(sofar, outcome);
    }
  }

  /** The schedule is as the fire found it: nobody fired or edited it since. */
  predicate StillDue(schedules: map<ScheduleId, Schedule>, id: ScheduleId, row: Schedule)
    requires row.nextRunAt.Some?
  {
    id in schedules && schedules[id].enabled && schedules[id].nextRunAt == row.nextRunAt && schedules[id].revision == row.revision
  }

  /** The runs of this schedule that go on are asked to stop if they are replaced, and nobody else is. */
  predicate Replaces(before: map<RunId, ScheduledRun>, after: map<RunId, ScheduledRun>, id: ScheduleId, replaced: bool) {
    forall r | r in before ::
      && r in after && after[r].schedule == before[r].schedule && after[r].live == before[r].live
      && after[r].cancelRequested
           == (before[r].cancelRequested || (replaced && before[r].schedule == Some(id) && before[r].live))
  }

  /** A run of this schedule is going on. */
  predicate Overlaps(runs: map<RunId, ScheduledRun>, id: ScheduleId) {
    exists r | r in runs :: runs[r].schedule == Some(id) && runs[r].live
  }

  /**
   * What a fire records: missed when it comes later than the schedule allows,
   * skipped when it would overlap a run and must not, and otherwise what
   * admission says, which it also is when the schedule cannot be read.
   */
  predicate FiredWith(runs: map<RunId, ScheduledRun>, id: ScheduleId, row: Schedule, now: int, inputs: Inputs,
                      outcome: FireOutcome)
    requires row.nextRunAt.Some?
  {
    var readable := inputs.parse.NextAt?;
    var tooLate := row.startingDeadline.Some? && now - row.nextRunAt.value > row.startingDeadline.value;
    var overlaps := row.policy == Forbid && Overlaps(runs, id);
    && (outcome == Missed <==> readable && tooLate)
    && (outcome == Skipped <==> readable && !tooLate && overlaps)
    && (outcome == Submitted <==> readable && !tooLate && !overlaps && inputs.admitted)
    && (outcome == NotAdmitted <==> !readable || (!tooLate && !overlaps && !inputs.admitted))
  }

  lemma LiveOverlaps(runs: map<RunId, ScheduledRun>, id: ScheduleId)
    ensures LiveOf(runs, id) != {} <==> Overlaps(runs, id)
  {
    if Overlaps(runs, id) {
      var r :| r in runs && runs[r].schedule == Some(id) && runs[r].live;
      assert r in LiveOf(runs, id);
    }
  }

  /** Nothing that read the schedule before can win any more, and its last outcome is what it was. */
  ghost predicate EditedOver(before: Schedule, after: Schedule) {
    && (forall fence {:trigger Reached(before, fence)} ::
          Reached(before, fence) ==> Past(after, fence) && !Matches(after, fence))
    && after.lastFiredAt == before.lastFiredAt && after.lastOutcome == before.lastOutcome && after.lastRun == before.lastRun
  }

  predicate MovedOn(s: Schedule, now: int) { !Due(s, now) && s.lastFiredAt == Some(now) }

  /** What a fire from this row leaves of the schedules: one advance if its fence still held, nothing otherwise. */
  predicate Fired(before: map<ScheduleId, Schedule>, after: map<ScheduleId, Schedule>, id: ScheduleId, row: Schedule,
                  now: int, plan: Plan, outcome: Option<FireOutcome>)
    requires row.nextRunAt.Some?
  {
    if id in before && Matches(before[id], Fence(row.revision, row.nextRunAt.value)) then
      && outcome == Some(if plan.Admit? then Submitted else plan.outcome)
      && id in after && (plan.Admit? ==> after[id].lastRun.Some?)
      && after == before[id := Advanced(before[id], plan.next, now, outcome.value).(
                   lastRun := if plan.Admit? then after[id].lastRun else before[id].lastRun)]
    else
      outcome == None && after == before
  }

  /** How many of these schedules last did what. */
  function Counted(schedules: map<ScheduleId, Schedule>, ids: seq<ScheduleId>): FireResult {
    if ids == [] then FireResult(0, 0, 0, 0, 0)
    else
      var last := ids[|ids| - 1];
      Tally(Counted(schedules, ids[..|ids| - 1]), if last in schedules then schedules[last].lastOutcome else None)
  }

  function Which(schedules: map<ScheduleId, Schedule>, ids: seq<ScheduleId>, outcome: Option<FireOutcome>): set<ScheduleId> {
    set id | id in ids && (if id in schedules then schedules[id].lastOutcome else None) == outcome
  }

  /** Each counter is the number of schedules whose last outcome it counts. */
  predicate CountsOutcomes(result: FireResult, schedules: map<ScheduleId, Schedule>, ids: seq<ScheduleId>) {
    && result.submitted == |Which(schedules, ids, Some(Submitted))| && result.skipped == |Which(schedules, ids, Some(Skipped))|
    && result.missed == |Which(schedules, ids, Some(Missed))| && result.refused == |Which(schedules, ids, Some(NotAdmitted))|
    && result.lost == |Which(schedules, ids, None)|
  }

  lemma {:induction false} CountedIsExact(schedules: map<ScheduleId, Schedule>, ids: seq<ScheduleId>)
    requires forall i, j | 0 <= i < j < |ids| :: ids[i] != ids[j]
    ensures CountsOutcomes(Counted(schedules, ids), schedules, ids)
  {
    if ids != [] {
      var init, last := ids[..|ids| - 1], ids[|ids| - 1];
      CountedIsExact(schedules, init);
      CountsOneMore(schedules, init, last, Counted(schedules, init));
      assert ids == init + [last];
    }
  }

  lemma CountsOneMore(schedules: map<ScheduleId, Schedule>, ids: seq<ScheduleId>, id: ScheduleId, result: FireResult)
    requires CountsOutcomes(result, schedules, ids) && id !in ids
    ensures CountsOutcomes(Tally(result, if id in schedules then schedules[id].lastOutcome else None), schedules, ids + [id])
  {
    OneMoreOf(schedules, ids, id, Some(Submitted));
    OneMoreOf(schedules, ids, id, Some(Skipped));
    OneMoreOf(schedules, ids, id, Some(Missed));
    OneMoreOf(schedules, ids, id, Some(NotAdmitted));
    OneMoreOf(schedules, ids, id, None);
  }

  lemma OneMoreOf(schedules: map<ScheduleId, Schedule>, ids: seq<ScheduleId>, id: ScheduleId, outcome: Option<FireOutcome>)
    requires id !in ids
    ensures |Which(schedules, ids + [id], outcome)| == |Which(schedules, ids, outcome)|
      + if (if id in schedules then schedules[id].lastOutcome else None) == outcome then 1 else 0
  {
    var more := Which(schedules, ids + [id], outcome);
    assert Which(schedules, ids, outcome) == more - {id};
  }

  /** Part of a pass: those done have moved on and are counted, the others are as they were. */
  predicate PassedOver(rows: map<ScheduleId, Schedule>, schedules: map<ScheduleId, Schedule>, done: seq<ScheduleId>,
                       result: FireResult, now: int)
  {
    && schedules.Keys == rows.Keys
    && (forall id | id in done :: id in schedules && MovedOn(schedules[id], now))
    && (forall id | id in rows && id !in done :: schedules[id] == rows[id])
    && result == Counted(schedules, done) && result.Count() == |done| && result.lost == 0
  }

  lemma PassedOneMore(rows: map<ScheduleId, Schedule>, before: map<ScheduleId, Schedule>,
                      after: map<ScheduleId, Schedule>, done: seq<ScheduleId>, id: ScheduleId, result: FireResult, now: int)
    requires PassedOver(rows, before, done, result, now) && id in rows && id !in done
    requires id in after && after == before[id := after[id]]
    requires MovedOn(after[id], now) && after[id].lastOutcome.Some?
    ensures PassedOver(rows, after, done + [id], Tally(result, after[id].lastOutcome), now)
  {
    CountedElsewhere(before, after, done);
    assert (done + [id])[..|done|] == done;
  }

  lemma {:induction false} CountedElsewhere(
    before: map<ScheduleId, Schedule>, after: map<ScheduleId, Schedule>, ids: seq<ScheduleId>)
    requires forall id | id in ids :: id in before && id in after && before[id] == after[id]
    ensures Counted(before, ids) == Counted(after, ids)
  {
    if ids != [] {
      CountedElsewhere(before, after, ids[..|ids| - 1]);
    }
  }

  function Tally(result: FireResult, outcome: Option<FireOutcome>): FireResult {
    match outcome
    case None => result.(lost := result.lost + 1)
    case Some(Submitted) => result.(submitted := result.submitted + 1)
    case Some(Skipped) => result.(skipped := result.skipped + 1)
    case Some(Missed) => result.(missed := result.missed + 1)
    case Some(NotAdmitted) => result.(refused := result.refused + 1)
  }
}
