// The scheduler fence: any number of replicas race to fire one schedule, while
// operators edit it and its runs come and go.
//
// A fire is three separate steps, a read of the row, a read of the live runs and
// a fenced commit, and anything may happen between them.
module Schedules {
  import opened Wrappers
  import opened Phases

  datatype Policy = Allow | Forbid | Replace

  datatype FireOutcome = Submitted | Skipped | Missed | NotAdmitted

  datatype Schedule = Schedule(
    enabled: bool, policy: Policy, startingDeadline: Option<nat>, nextRunAt: Option<int>, revision: nat,
    lastFiredAt: Option<int>, lastOutcome: Option<FireOutcome>, lastRun: Option<RunId>)

  /** What a fire was computed from, and what it commits against. */
  datatype Fence = Fence(revision: nat, expected: int) {
    predicate Before(other: Fence) {
      revision < other.revision || (revision == other.revision && expected < other.expected)
    }
  }

  predicate Due(s: Schedule, now: int) { s.enabled && s.nextRunAt.Some? && s.nextRunAt.value <= now }

  /** The WHERE clause of every fenced update. */
  predicate Matches(s: Schedule, fence: Fence) {
    s.enabled && s.nextRunAt == Some(fence.expected) && s.revision == fence.revision
  }

  function Advanced(s: Schedule, next: int, at: int, outcome: FireOutcome): Schedule {
    s.(nextRunAt := Some(next), lastFiredAt := Some(at), lastOutcome := Some(outcome))
  }

  // ---- what one fire decides -----------------------------------------------------

  /** The snapshot's template and cron expression, as this build reads them; next is after now. */
  datatype Parse = Unreadable | NextAt(next: int)

  datatype Plan = Pass(next: int, outcome: FireOutcome) | Admit(next: int)

  const ADay := 86400

  predicate IsLate(s: Schedule, now: int) {
    s.nextRunAt.Some? && s.startingDeadline.Some? && now - s.nextRunAt.value > s.startingDeadline.value
  }

  /** The plan needs no look at the live runs. */
  predicate DecidedEarly(s: Schedule, now: int, parse: Parse) {
    parse.Unreadable? || IsLate(s, now) || s.policy == Allow
  }

  function PlanFire(s: Schedule, now: int, parse: Parse, live: set<RunId>): Plan {
    if parse.Unreadable? then Pass(now + ADay, NotAdmitted)
    else if IsLate(s, now) then Pass(parse.next, Missed)
    else if s.policy == Forbid && live != {} then Pass(parse.next, Skipped)
    else Admit(parse.next)
  }

  // ---- the interleaving -----------------------------------------------------------

  /** A run of this schedule: whether it is live, and the fire it carries if it was not started by hand. */
  datatype Tracked = Tracked(live: bool, fire: Option<Fence>)

  type Runs = map<RunId, Tracked>

  /** A fire under way: the row it read, how many fires had won by then, and the runs it saw. */
  datatype Flight =
    | Reading(row: Schedule, fence: Fence, now: int, wonBefore: nat)
    | Looking(row: Schedule, fence: Fence, now: int, wonBefore: nat, seen: Runs)
    | Replacing(fence: Fence, rest: set<RunId>)

  datatype Win = Win(fence: Fence, outcome: FireOutcome, run: Option<RunId>, policy: Policy, seen: Runs)

  datatype Cancel = Cancel(run: RunId, winner: Fence)

  datatype State = State(
    row: Option<Schedule>, runs: Runs, flights: map<nat, Flight>, wins: seq<Win>, cancels: set<Cancel>)

  datatype Step =
    | ReadRow(id: nat, now: int)
    | ReadRuns(id: nat)
    | Commit(id: nat, parse: Parse, admitted: bool, run: RunId)
    | CancelReplaced(id: nat, run: RunId)
    | Crash(id: nat)
    | Edit(enabled: bool, policy: Policy, startingDeadline: Option<nat>, next: Option<int>)
    | Delete
    | RunNow(run: RunId)
    | Becomes(run: RunId, live: bool)

  function LiveRuns(runs: Runs): set<RunId> { set r | r in runs && runs[r].live }

  function SeenBy(flight: Flight): Runs { if flight.Looking? then flight.seen else map[] }

  predicate InRead(flight: Flight) { flight.Reading? || flight.Looking? }

  function PlanOf(flight: Flight, parse: Parse, admitted: bool): Plan
    requires InRead(flight)
  {
    var plan := PlanFire(flight.row, flight.now, parse, LiveRuns(SeenBy(flight)));
    if plan.Admit? && !admitted then Pass(plan.next, NotAdmitted) else plan
  }

  predicate Enabled(s: State, step: Step) {
    match step
    case ReadRow(id, now) => id !in s.flights && s.row.Some? && Due(s.row.value, now)
    case ReadRuns(id) => id in s.flights && s.flights[id].Reading?
    case Commit(id, parse, admitted, run) =>
      && id in s.flights && InRead(s.flights[id])
      && (s.flights[id].Looking? || DecidedEarly(s.flights[id].row, s.flights[id].now, parse))
      && (parse.NextAt? ==> parse.next > s.flights[id].now)
      && run !in s.runs
    case CancelReplaced(id, run) => id in s.flights && s.flights[id].Replacing? && run in s.flights[id].rest
    case Crash(id) => id in s.flights
    case Edit(enabled, _, _, next) => s.row.Some? && enabled == next.Some?
    case Delete => s.row.Some?
    case RunNow(run) => run !in s.runs
    case Becomes(run, _) => run in s.runs
  }

  function Next(s: State, step: Step): State
    requires Enabled(s, step)
  {
    match step
    case ReadRow(id, now) =>
      var row := s.row.value;
      s.(flights := s.flights[id := Reading(row, Fence(row.revision, row.nextRunAt.value), now, |s.wins|)])
    case ReadRuns(id) =>
      var f := s.flights[id];
      s.(flights := s.flights[id := Looking(f.row, f.fence, f.now, f.wonBefore, s.runs)])
    case Commit(id, parse, admitted, run) => Committed(s, id, PlanOf(s.flights[id], parse, admitted), run)
    case CancelReplaced(id, run) =>
      var f := s.flights[id];
      s.(cancels := s.cancels + {Cancel(run, f.fence)}, flights := s.flights[id := f.(rest := f.rest - {run})])
    case Crash(id) => s.(flights := s.flights - {id})
    case Edit(enabled, policy, deadline, next) =>
      var row := s.row.value;
      s.(row := Some(row.(enabled := enabled, policy := policy, startingDeadline := deadline, nextRunAt := next,
                          revision := row.revision + 1)))
    case Delete => s.(row := None)
    case RunNow(run) => s.(runs := s.runs[run := Tracked(true, None)])
    case Becomes(run, live) => s.(runs := s.runs[run := s.runs[run].(live := live)])
  }

  /** The fenced update, in the run's own transaction when there is a run: a lost fence changes nothing. */
  function Committed(s: State, id: nat, plan: Plan, run: RunId): State
    requires id in s.flights && InRead(s.flights[id])
  {
    var f := s.flights[id];
    if s.row.None? || !Matches(s.row.value, f.fence) then s.(flights := s.flights - {id})
    else if plan.Pass? then
      s.(row := Some(Advanced(s.row.value, plan.next, f.now, plan.outcome)), flights := s.flights - {id},
         wins := s.wins + [Win(f.fence, plan.outcome, None, f.row.policy, SeenBy(f))])
    else
      s.(row := Some(Advanced(s.row.value, plan.next, f.now, Submitted).(lastRun := Some(run))),
         runs := s.runs[run := Tracked(true, Some(f.fence))],
         wins := s.wins + [Win(f.fence, Submitted, Some(run), f.row.policy, SeenBy(f))],
         flights := if f.row.policy == Replace then s.flights[id := Replacing(f.fence, LiveRuns(SeenBy(f)))]
                    else s.flights - {id})
  }

  predicate AllEnabled(s: State, steps: seq<Step>)
    decreases |steps|
  {
    steps != [] ==> Enabled(s, steps[0]) && AllEnabled(Next(s, steps[0]), steps[1..])
  }

  function Run(s: State, steps: seq<Step>): State
    requires AllEnabled(s, steps)
    decreases |steps|
  {
    if steps == [] then s else Run(Next(s, steps[0]), steps[1..])
  }

  function Created(row: Schedule): State { State(Some(row), map[], map[], [], {}) }

  // ---- the invariant ----------------------------------------------------------------

  /** The row's fence value is past this one: it was won, or edited over. */
  predicate Past(row: Schedule, fence: Fence) {
    fence.revision < row.revision
    || (fence.revision == row.revision && row.nextRunAt.Some? && fence.expected < row.nextRunAt.value)
  }

  predicate Reached(row: Schedule, fence: Fence) {
    Past(row, fence) || (fence.revision == row.revision && row.nextRunAt == Some(fence.expected))
  }

  predicate Ordered(s: State) {
    && (forall i, j | 0 <= i < j < |s.wins| :: s.wins[i].fence.Before(s.wins[j].fence))
    && (s.row.Some? ==> forall w | w in s.wins :: Past(s.row.value, w.fence))
  }

  /** The runs that carry a fire are those the submitted wins admitted, fire by fire. */
  predicate Matched(s: State) {
    && (forall w | w in s.wins :: (w.run.Some? <==> w.outcome == Submitted)
          && (w.run.Some? ==> w.run.value in s.runs && s.runs[w.run.value].fire == Some(w.fence)))
    && (forall r | r in s.runs && s.runs[r].fire.Some? ::
          exists w | w in s.wins :: w.run == Some(r) && s.runs[r].fire == Some(w.fence))
  }

  /** A flight read the row before anything that has since moved it on, and saw every run admitted until then. */
  predicate Placed(s: State, f: Flight) {
    && InRead(f) && f.wonBefore <= |s.wins| && Due(f.row, f.now) && f.fence == Fence(f.row.revision, f.row.nextRunAt.value)
    && (s.row.Some? ==> Reached(s.row.value, f.fence) && (f.wonBefore < |s.wins| ==> Past(s.row.value, f.fence)))
    && (f.Looking? ==> Saw(s.wins[..f.wonBefore], f.seen) && KnowsFires(f.seen, s.runs))
  }

  predicate Saw(wins: seq<Win>, seen: Runs) {
    forall w | w in wins && w.run.Some? :: w.run.value in seen
  }

  predicate KnowsFires(seen: Runs, runs: Runs) {
    forall r | r in seen :: r in runs && runs[r].fire == seen[r].fire
  }

  /** Every run left to cancel, or cancelled, was there before the fire that replaces it. */
  predicate Older(s: State, run: RunId, winner: Fence) {
    && run in s.runs && (s.runs[run].fire.Some? ==> s.runs[run].fire.value.Before(winner))
    && exists w | w in s.wins :: w.fence == winner && w.outcome == Submitted
  }

  predicate FlightOk(s: State, f: Flight) {
    if f.Replacing? then forall r | r in f.rest :: Older(s, r, f.fence) else Placed(s, f)
  }

  predicate NoOverlap(wins: seq<Win>) {
    forall i, j | 0 <= i < j < |wins| && wins[i].run.Some? && wins[j].outcome == Submitted && wins[j].policy == Forbid ::
      wins[i].run.value in wins[j].seen && !wins[j].seen[wins[i].run.value].live
  }

  predicate Inv(s: State) {
    && Ordered(s) && Matched(s) && NoOverlap(s.wins)
    && (forall id | id in s.flights :: FlightOk(s, s.flights[id]))
    && (forall c | c in s.cancels :: Older(s, c.run, c.winner))
  }

  // ---- every step keeps it ------------------------------------------------------------

  lemma CreatedInv(row: Schedule)
    ensures Inv(Created(row))
  {}

  /** What others do to the row or the runs, as far as a flight can tell. */
  ghost predicate Undisturbed(s: State, next: State) {
    && next.wins == s.wins && next.cancels == s.cancels && KnowsFires(s.runs, next.runs)
    && (next.row.Some? ==> s.row.Some? && forall fence {:trigger Reached(s.row.value, fence)} ::
          (Reached(s.row.value, fence) ==> Reached(next.row.value, fence))
          && (Past(s.row.value, fence) ==> Past(next.row.value, fence)))
    && (forall r | r in next.runs && next.runs[r].fire.Some? :: r in s.runs)
  }

  lemma UndisturbedKeeps(s: State, next: State)
    requires Inv(s) && Undisturbed(s, next) && next.flights == s.flights
    ensures Inv(next)
  {
    if next.row.Some? {
      forall w | w in s.wins ensures Past(next.row.value, w.fence) {
        assert Past(s.row.value, w.fence) && Reached(s.row.value, w.fence);
      }
    }
    forall id | id in s.flights ensures FlightOk(next, s.flights[id]) {
      assert FlightOk(s, s.flights[id]);
      FlightUndisturbed(s, next, s.flights[id]);
    }
    forall c | c in s.cancels ensures Older(next, c.run, c.winner) {
      assert Older(s, c.run, c.winner);
    }
  }

  lemma FlightUndisturbed(s: State, next: State, f: Flight)
    requires Undisturbed(s, next) && FlightOk(s, f)
    ensures FlightOk(next, f)
  {
    if f.Replacing? {
      forall r | r in f.rest ensures Older(next, r, f.fence) {
        assert Older(s, r, f.fence);
      }
    } else if next.row.Some? {
      assert Reached(s.row.value, f.fence);
    }
  }

  lemma OthersKeep(s: State, step: Step)
    requires Inv(s) && Enabled(s, step)
    requires step.Edit? || step.Delete? || step.RunNow? || step.Becomes?
    ensures Inv(Next(s, step))
  {
    var next := Next(s, step);
    if next.row.Some? {
      forall fence {:trigger Reached(s.row.value, fence)}
        ensures (Reached(s.row.value, fence) ==> Reached(next.row.value, fence))
          && (Past(s.row.value, fence) ==> Past(next.row.value, fence))
      {}
    }
    UndisturbedKeeps(s, next);
  }

  lemma FlightStepKeeps(s: State, step: Step)
    requires Inv(s) && Enabled(s, step)
    requires step.ReadRow? || step.ReadRuns? || step.CancelReplaced? || step.Crash?
    ensures Inv(Next(s, step))
  {
    var next := Next(s, step);
    if step.ReadRuns? {
      assert FlightOk(s, s.flights[step.id]);
      assert Saw(s.wins, s.runs);
    }
    if step.CancelReplaced? {
      assert FlightOk(s, s.flights[step.id]);
      assert Older(s, step.run, s.flights[step.id].fence);
    }
    forall id | id in next.flights ensures FlightOk(next, next.flights[id]) {
      if id in s.flights { assert FlightOk(s, s.flights[id]); }
      if id == step.id && step.CancelReplaced? {
        forall r | r in next.flights[id].rest ensures Older(next, r, next.flights[id].fence) {
          assert Older(s, r, s.flights[id].fence);
        }
      } else if id != step.id && s.flights[id].Replacing? {
        forall r | r in s.flights[id].rest ensures Older(next, r, s.flights[id].fence) {
          assert Older(s, r, s.flights[id].fence);
        }
      }
    }
    forall c | c in next.cancels ensures Older(next, c.run, c.winner) {
      if c in s.cancels { assert Older(s, c.run, c.winner); }
    }
  }

  /** The fence a winner matched is the row's own, so nothing has won since it read the row. */
  lemma WinnerReadLast(s: State, f: Flight, next: int)
    requires Placed(s, f) && s.row.Some? && Matches(s.row.value, f.fence) && Ordered(s) && next > f.now
    ensures f.wonBefore == |s.wins| && next > f.fence.expected
    ensures forall w | w in s.wins :: w.fence.Before(f.fence)
  {
    forall w | w in s.wins ensures w.fence.Before(f.fence) {
      assert Past(s.row.value, w.fence);
    }
  }

  lemma WonOrdered(s: State, fence: Fence, won: Schedule, win: Win)
    requires Ordered(s) && s.row.Some? && Matches(s.row.value, fence) && win.fence == fence
    requires won.revision == s.row.value.revision && won.nextRunAt.Some? && won.nextRunAt.value > fence.expected
    requires forall w | w in s.wins :: w.fence.Before(fence)
    ensures Ordered(s.(row := Some(won), wins := s.wins + [win]))
    ensures forall g {:trigger Reached(s.row.value, g)} :: Reached(s.row.value, g) ==> Past(won, g)
  {}

  /** Other flights see a winner as something that moved the row on. */
  lemma OutflownKeeps(s: State, next: State, f: Flight, win: Win)
    requires FlightOk(s, f) && s.row.Some? && next.row.Some? && next.wins == s.wins + [win]
    requires KnowsFires(s.runs, next.runs)
    requires forall g {:trigger Reached(s.row.value, g)} :: Reached(s.row.value, g) ==> Past(next.row.value, g)
    ensures FlightOk(next, f)
  {
    if f.Replacing? {
      forall r | r in f.rest ensures Older(next, r, f.fence) {
        OlderStays(s, next, r, f.fence, win);
      }
    } else {
      assert Reached(s.row.value, f.fence);
      assert next.wins[..f.wonBefore] == s.wins[..f.wonBefore];
    }
  }

  lemma OlderStays(s: State, next: State, run: RunId, winner: Fence, win: Win)
    requires Older(s, run, winner) && next.wins == s.wins + [win] && KnowsFires(s.runs, next.runs)
    ensures Older(next, run, winner)
  {
    var w :| w in s.wins && w.fence == winner && w.outcome == Submitted;
    assert w in next.wins;
  }

  lemma WonMatched(s: State, win: Win, next: State)
    requires Matched(s) && next.wins == s.wins + [win] && (win.run.Some? <==> win.outcome == Submitted)
    requires if win.run.None? then next.runs == s.runs
             else win.run.value !in s.runs && next.runs == s.runs[win.run.value := Tracked(true, Some(win.fence))]
    ensures Matched(next)
  {
    forall r | r in next.runs && next.runs[r].fire.Some?
      ensures exists w | w in next.wins :: w.run == Some(r) && next.runs[r].fire == Some(w.fence)
    {
      if win.run == Some(r) {
        assert win in next.wins;
      } else {
        var w :| w in s.wins && w.run == Some(r) && s.runs[r].fire == Some(w.fence);
        assert w in next.wins;
      }
    }
  }

  /** Under Forbid a fire that admits saw every earlier fire's run, and saw it over. */
  lemma ForbidSawThemOver(s: State, f: Flight, parse: Parse, admitted: bool, win: Win)
    requires Matched(s) && NoOverlap(s.wins) && Placed(s, f) && f.wonBefore == |s.wins|
    requires f.Looking? || DecidedEarly(f.row, f.now, parse)
    requires win.outcome == Submitted ==> PlanOf(f, parse, admitted).Admit?
    requires win.policy == f.row.policy && win.seen == SeenBy(f)
    ensures NoOverlap(s.wins + [win])
  {
    if win.outcome == Submitted && win.policy == Forbid {
      assert f.Looking? && LiveRuns(f.seen) == {};
      assert s.wins[..f.wonBefore] == s.wins;
      forall w | w in s.wins && w.run.Some? ensures w.run.value in win.seen && !win.seen[w.run.value].live {
        assert w.run.value !in LiveRuns(f.seen);
      }
    }
  }

  /** Everything a Replace fire is about to cancel was admitted before it. */
  lemma ReplacesOlder(s: State, next: State, f: Flight, win: Win)
    requires Matched(s) && f.Looking? && Placed(s, f) && next.wins == s.wins + [win] && KnowsFires(s.runs, next.runs)
    requires win.fence == f.fence && win.outcome == Submitted && forall w | w in s.wins :: w.fence.Before(f.fence)
    ensures FlightOk(next, Replacing(f.fence, LiveRuns(f.seen)))
  {
    assert win in next.wins;
    forall r | r in LiveRuns(f.seen) ensures Older(next, r, f.fence) {
      assert r in s.runs && next.runs[r].fire == s.runs[r].fire;
    }
  }

  lemma CommitKeeps(s: State, step: Step)
    requires Inv(s) && Enabled(s, step) && step.Commit?
    ensures Inv(Next(s, step))
  {
    var f, next := s.flights[step.id], Next(s, step);
    assert FlightOk(s, f);
    if s.row.None? || !Matches(s.row.value, f.fence) {
      forall id | id in next.flights ensures FlightOk(next, next.flights[id]) {
        assert FlightOk(s, s.flights[id]);
        FlightUndisturbed(s, next, s.flights[id]);
      }
      forall c | c in s.cancels ensures Older(next, c.run, c.winner) { assert Older(s, c.run, c.winner); }
    } else {
      var plan := PlanOf(f, step.parse, step.admitted);
      WinnerReadLast(s, f, plan.next);
      var win := next.wins[|s.wins|];
      WonOrdered(s, f.fence, next.row.value, win);
      WonMatched(s, win, next);
      ForbidSawThemOver(s, f, step.parse, step.admitted, win);
      WonFlights(s, step, win);
    }
  }

  lemma WonFlights(s: State, step: Step, win: Win)
    requires Inv(s) && Enabled(s, step) && step.Commit? && s.row.Some? && Matches(s.row.value, s.flights[step.id].fence)
    requires Next(s, step).wins == s.wins + [win] && forall w | w in s.wins :: w.fence.Before(s.flights[step.id].fence)
    requires forall g {:trigger Reached(s.row.value, g)} :: Reached(s.row.value, g) ==> Past(Next(s, step).row.value, g)
    ensures var next := Next(s, step);
      && (forall id | id in next.flights :: FlightOk(next, next.flights[id]))
      && (forall c | c in next.cancels :: Older(next, c.run, c.winner))
  {
    var f, next := s.flights[step.id], Next(s, step);
    assert FlightOk(s, f) && win == next.wins[|s.wins|];
    forall id | id in next.flights ensures FlightOk(next, next.flights[id]) {
      if id == step.id {
        ReplacesOlder(s, next, f, win);
      } else {
        OutflownKeeps(s, next, s.flights[id], win);
      }
    }
    forall c | c in s.cancels ensures Older(next, c.run, c.winner) {
      OlderStays(s, next, c.run, c.winner, win);
    }
  }

  lemma StepKeepsInv(s: State, step: Step)
    requires Inv(s) && Enabled(s, step)
    ensures Inv(Next(s, step))
  {
    match step
    case Commit(_, _, _, _) => CommitKeeps(s, step);
    case ReadRow(_, _) => FlightStepKeeps(s, step);
    case ReadRuns(_) => FlightStepKeeps(s, step);
    case CancelReplaced(_, _) => FlightStepKeeps(s, step);
    case Crash(_) => FlightStepKeeps(s, step);
    case _ => OthersKeep(s, step);
  }

  lemma {:induction false} InvAlways(s: State, steps: seq<Step>)
    requires Inv(s) && AllEnabled(s, steps)
    ensures Inv(Run(s, steps))
    decreases |steps|
  {
    if steps != [] {
      StepKeepsInv(s, steps[0]);
      InvAlways(Next(s, steps[0]), steps[1..]);
    }
  }

  // ---- over whole runs of the scheduler -----------------------------------------------

  /** No fence value is won twice, by any replica, whatever edits come between. */
  lemma EachFenceWonOnce(row: Schedule, steps: seq<Step>)
    requires AllEnabled(Created(row), steps)
    ensures var wins := Run(Created(row), steps).wins;
      forall i, j | 0 <= i < j < |wins| :: wins[i].fence.Before(wins[j].fence)
  {
    CreatedInv(row);
    InvAlways(Created(row), steps);
  }

  /** The runs carrying a fire and the submitted wins are one and the same, one for one. */
  lemma FiresAreRuns(row: Schedule, steps: seq<Step>)
    requires AllEnabled(Created(row), steps)
    ensures var s := Run(Created(row), steps);
      && (forall r | r in s.runs && s.runs[r].fire.Some? ::
            exists i | 0 <= i < |s.wins| :: s.wins[i].run == Some(r) && s.wins[i].fence == s.runs[r].fire.value)
      && (forall i | 0 <= i < |s.wins| :: s.wins[i].outcome == Submitted <==> s.wins[i].run.Some?)
      && (forall i | 0 <= i < |s.wins| && s.wins[i].run.Some? ::
            s.wins[i].run.value in s.runs && s.runs[s.wins[i].run.value].fire == Some(s.wins[i].fence))
      && (forall i, j | 0 <= i < j < |s.wins| && s.wins[i].run.Some? :: s.wins[i].run != s.wins[j].run)
  {
    CreatedInv(row);
    InvAlways(Created(row), steps);
    var s := Run(Created(row), steps);
    forall r | r in s.runs && s.runs[r].fire.Some?
      ensures exists i | 0 <= i < |s.wins| :: s.wins[i].run == Some(r) && s.wins[i].fence == s.runs[r].fire.value
    {
      var w :| w in s.wins && w.run == Some(r) && s.runs[r].fire == Some(w.fence);
      var i :| 0 <= i < |s.wins| && s.wins[i] == w;
    }
    forall i | 0 <= i < |s.wins|
      ensures s.wins[i].outcome == Submitted <==> s.wins[i].run.Some?
      ensures s.wins[i].run.Some? ==>
        s.wins[i].run.value in s.runs && s.runs[s.wins[i].run.value].fire == Some(s.wins[i].fence)
    {
      assert s.wins[i] in s.wins;
    }
  }

  /**
   * Forbid excludes overlap: when a fire under Forbid admits a run, it had seen
   * every run an earlier fire of this schedule admitted, and none of them live.
   */
  lemma ForbidExcludesOverlap(row: Schedule, steps: seq<Step>)
    requires AllEnabled(Created(row), steps)
    ensures NoOverlap(Run(Created(row), steps).wins)
  {
    CreatedInv(row);
    InvAlways(Created(row), steps);
  }

  /** Replace cancels for winners only, and never the run of the same or a later fire. */
  lemma ReplaceCancelsOlder(row: Schedule, steps: seq<Step>, c: Cancel)
    requires AllEnabled(Created(row), steps) && c in Run(Created(row), steps).cancels
    ensures var s := Run(Created(row), steps);
      && (exists w | w in s.wins :: w.fence == c.winner && w.outcome == Submitted)
      && c.run in s.runs && (s.runs[c.run].fire.Some? ==> s.runs[c.run].fire.value.Before(c.winner))
  {
    CreatedInv(row);
    InvAlways(Created(row), steps);
  }

  /** A winner under Replace has cancelled, or has still to cancel, every run it saw going on. */
  predicate Cancels(s: State, f: Flight) {
    f.Replacing? ==>
      exists w | w in s.wins ::
        && w.fence == f.fence && w.run.Some?
        && forall r | r in w.seen && w.seen[r].live :: r in f.rest || Cancel(r, f.fence) in s.cancels
  }

  predicate AllCancel(s: State) { forall id | id in s.flights :: Cancels(s, s.flights[id]) }

  lemma StepKeepsCancelling(s: State, step: Step)
    requires AllCancel(s) && Enabled(s, step)
    ensures AllCancel(Next(s, step))
  {
    var next := Next(s, step);
    forall id | id in next.flights && next.flights[id].Replacing? ensures Cancels(next, next.flights[id]) {
      if id in s.flights && s.flights[id].Replacing? {
        var f := s.flights[id];
        assert Cancels(s, f);
        var w :| w in s.wins && w.fence == f.fence && w.run.Some?
          && forall r | r in w.seen && w.seen[r].live :: r in f.rest || Cancel(r, f.fence) in s.cancels;
        assert w in next.wins && next.flights[id].fence == f.fence;
        assert forall r | r in w.seen && w.seen[r].live :: r in next.flights[id].rest || Cancel(r, f.fence) in next.cancels;
      } else {
        assert step.Commit? && next.wins[|s.wins|] in next.wins;
      }
    }
  }

  lemma {:induction false} AlwaysCancels(s: State, steps: seq<Step>)
    requires AllCancel(s) && AllEnabled(s, steps)
    ensures AllCancel(Run(s, steps))
    decreases |steps|
  {
    if steps != [] {
      StepKeepsCancelling(s, steps[0]);
      AlwaysCancels(Next(s, steps[0]), steps[1..]);
    }
  }

  /** A fire under Replace that got to its end has cancelled every run it saw going on. */
  lemma ReplaceCancelsAll(row: Schedule, steps: seq<Step>, id: nat)
    requires AllEnabled(Created(row), steps) && id in Run(Created(row), steps).flights
    requires Run(Created(row), steps).flights[id].Replacing? && Run(Created(row), steps).flights[id].rest == {}
    ensures var s := Run(Created(row), steps);
      exists w | w in s.wins ::
        && w.fence == s.flights[id].fence && w.run.Some?
        && forall r | r in w.seen && w.seen[r].live :: Cancel(r, w.fence) in s.cancels
  {
    AlwaysCancels(Created(row), steps);
    assert Cancels(Run(Created(row), steps), Run(Created(row), steps).flights[id]);
  }

  /** A fire sets out to cancel exactly when it admitted a run under Replace. */
  lemma ReplacesIff(s: State, step: Step)
    requires Enabled(s, step) && step.Commit?
    ensures var next := Next(s, step);
      step.id in next.flights <==>
        |next.wins| > |s.wins| && next.wins[|s.wins|].outcome == Submitted && s.flights[step.id].row.policy == Replace
  {}

  /** What an edit leaves: the definition it wrote, under the next revision, and what the schedule last did. */
  lemma EditIs(s: State, step: Step)
    requires Enabled(s, step) && step.Edit?
    ensures var before, after := s.row.value, Next(s, step).row;
      && after.Some? && after.value == before.(enabled := step.enabled, policy := step.policy,
           startingDeadline := step.startingDeadline, nextRunAt := step.next, revision := before.revision + 1)
      && Next(s, step) == s.(row := after)
  {}

  // ---- slots ------------------------------------------------------------------------

  /** An edit that writes a slot no later than one already won. */
  predicate Rewinds(s: State, step: Step) {
    step.Edit? && step.next.Some? && exists w | w in s.wins :: step.next.value <= w.fence.expected
  }

  predicate NeverRewinds(s: State, steps: seq<Step>)
    requires AllEnabled(s, steps)
    decreases |steps|
  {
    steps != [] ==> !Rewinds(s, steps[0]) && NeverRewinds(Next(s, steps[0]), steps[1..])
  }

  predicate SlotsIncrease(wins: seq<Win>) {
    forall i, j | 0 <= i < j < |wins| :: wins[i].fence.expected < wins[j].fence.expected
  }

  predicate Ahead(s: State) {
    && SlotsIncrease(s.wins)
    && (s.row.Some? && s.row.value.nextRunAt.Some? ==>
          forall w | w in s.wins :: w.fence.expected < s.row.value.nextRunAt.value)
  }

  lemma StepKeepsAhead(s: State, step: Step)
    requires Inv(s) && Ahead(s) && Enabled(s, step) && !Rewinds(s, step)
    ensures Ahead(Next(s, step))
  {
    if step.Commit? {
      var f := s.flights[step.id];
      assert FlightOk(s, f);
      if s.row.Some? && Matches(s.row.value, f.fence) {
        WinnerReadLast(s, f, PlanOf(f, step.parse, step.admitted).next);
      }
    }
  }

  /** As long as no edit writes back a slot already won, every slot is won once, in order. */
  lemma {:induction false} SlotsAdvance(s: State, steps: seq<Step>)
    requires Inv(s) && Ahead(s) && AllEnabled(s, steps) && NeverRewinds(s, steps)
    ensures Ahead(Run(s, steps))
    decreases |steps|
  {
    if steps != [] {
      StepKeepsInv(s, steps[0]);
      StepKeepsAhead(s, steps[0]);
      SlotsAdvance(Next(s, steps[0]), steps[1..]);
    }
  }

  lemma SlotsFireOnceUnlessRewound(row: Schedule, steps: seq<Step>)
    requires AllEnabled(Created(row), steps) && NeverRewinds(Created(row), steps)
    ensures SlotsIncrease(Run(Created(row), steps).wins)
  {
    CreatedInv(row);
    SlotsAdvance(Created(row), steps);
  }

  /** The steps of a replica that is alone with the schedule, some time after its slot. */
  function FireAlone(id: nat, now: int, next: int, run: RunId): seq<Step> {
    [ReadRow(id, now), ReadRuns(id), Commit(id, NextAt(next), true, run)]
  }

  /** A fire that comes later than the schedule allows. */
  predicate TooLate(startingDeadline: Option<nat>, slot: int, now: int) {
    startingDeadline.Some? && now > slot + startingDeadline.value
  }

  /** What is recorded of a fire nobody interferes with. */
  predicate OutcomeAlone(outcome: FireOutcome, policy: Policy, tooLate: bool, anyLive: bool) {
    && (outcome == Missed <==> tooLate)
    && (outcome == Skipped <==> !tooLate && policy == Forbid && anyLive)
    && (outcome == Submitted <==> !tooLate && !(policy == Forbid && anyLive))
  }

  predicate AnyLive(runs: Runs) { exists r | r in runs :: runs[r].live }

  /**
   * An edit that writes back a slot that was won lets it be won again, from any
   * state and under any policy, at any time from the slot on; the second win
   * admits a run unless it comes too late, or the policy is Forbid and a run is
   * live.
   */
  lemma RewoundSlotIsWonAgain(s: State, step: Step, w: Win, id: nat, now: int, next: int, run: RunId)
    requires Inv(s) && Enabled(s, step) && step.Edit? && step.next.Some? && step.next.value <= now < next
    requires w in s.wins && w.fence.expected == step.next.value && id !in s.flights && run !in s.runs
    ensures var steps := [step] + FireAlone(id, now, next, run);
      && AllEnabled(s, steps)
      && var wins := Run(s, steps).wins;
        && |wins| == |s.wins| + 1 && wins[..|s.wins|] == s.wins
        && wins[|s.wins|].fence.expected == w.fence.expected
        && OutcomeAlone(wins[|s.wins|].outcome, step.policy, TooLate(step.startingDeadline, step.next.value, now),
                        AnyLive(s.runs))
  {
    FiresAlone(Next(s, step), step.next.value, id, now, next, run);
    Prepended(s, step, FireAlone(id, now, next, run));
  }

  /**
   * A due schedule is won by whoever is alone with it, whenever that is; it is
   * missed exactly when that is later than its deadline allows, and moves on to
   * the next slot in every case.
   */
  lemma FiresAlone(s: State, slot: int, id: nat, now: int, next: int, run: RunId)
    requires s.row.Some? && s.row.value.enabled && s.row.value.nextRunAt == Some(slot) && slot <= now < next
    requires id !in s.flights && run !in s.runs
    ensures AllEnabled(s, FireAlone(id, now, next, run))
    ensures var after := Run(s, FireAlone(id, now, next, run)); var wins := after.wins;
      && |wins| == |s.wins| + 1 && wins[..|s.wins|] == s.wins && wins[|s.wins|].fence.expected == slot
      && OutcomeAlone(wins[|s.wins|].outcome, s.row.value.policy, TooLate(s.row.value.startingDeadline, slot, now),
                      AnyLive(s.runs))
      && after.row.Some? && after.row.value.nextRunAt == Some(next) && after.row.value.lastFiredAt == Some(now)
      && after.row.value.lastOutcome == Some(wins[|s.wins|].outcome)
  {
    var read, look, commit := ReadRow(id, now), ReadRuns(id), Commit(id, NextAt(next), true, run);
    var s1 := Next(s, read);
    var s2 := Next(s1, look);
    assert Matches(s2.row.value, s2.flights[id].fence) && SeenBy(s2.flights[id]) == s.runs;
    if AnyLive(s.runs) {
      var r :| r in s.runs && s.runs[r].live;
      assert r in LiveRuns(s.runs);
    }
    Prepended(s2, commit, []);
    Prepended(s1, look, [commit] + []);
    Prepended(s, read, [look] + ([commit] + []));
    assert FireAlone(id, now, next, run) == [read] + ([look] + ([commit] + []));
  }

  lemma Prepended(s: State, step: Step, rest: seq<Step>)
    requires Enabled(s, step)
    ensures AllEnabled(s, [step] + rest) <==> AllEnabled(Next(s, step), rest)
    ensures AllEnabled(Next(s, step), rest) ==> Run(s, [step] + rest) == Run(Next(s, step), rest)
  {
    assert ([step] + rest)[1..] == rest;
  }

  /**
   * The guard of an edit, exactly: one that writes a slot later than every slot
   * won keeps the slots advancing, and one that does not lets them go back, the
   * next time a replica is alone with the schedule.
   */
  lemma SlotsAdvanceIffNotRewound(s: State, step: Step)
    requires Inv(s) && Ahead(s) && Enabled(s, step) && step.Edit? && step.next.Some?
    ensures !Rewinds(s, step) ==> Ahead(Next(s, step))
    ensures Rewinds(s, step) ==>
      forall id: nat, now: int, next: int, run: RunId | step.next.value <= now < next && id !in s.flights && run !in s.runs ::
        var steps := [step] + FireAlone(id, now, next, run);
        AllEnabled(s, steps) && !SlotsIncrease(Run(s, steps).wins)
  {
    if !Rewinds(s, step) {
      StepKeepsAhead(s, step);
    } else {
      var w :| w in s.wins && step.next.value <= w.fence.expected;
      forall id: nat, now: int, next: int, run: RunId | step.next.value <= now < next && id !in s.flights && run !in s.runs
        ensures var steps := [step] + FireAlone(id, now, next, run);
          AllEnabled(s, steps) && !SlotsIncrease(Run(s, steps).wins)
      {
        FiresAlone(Next(s, step), step.next.value, id, now, next, run);
        Prepended(s, step, FireAlone(id, now, next, run));
        var i :| 0 <= i < |s.wins| && s.wins[i] == w;
        var wins := Run(s, [step] + FireAlone(id, now, next, run)).wins;
        assert wins[i] == wins[..|s.wins|][i] == w;
      }
    }
  }

  /** Between edits each slot is won at most once: equal slots mean different revisions. */
  lemma SlotsRepeatOnlyAcrossEdits(row: Schedule, steps: seq<Step>, i: nat, j: nat)
    requires AllEnabled(Created(row), steps) && i < j < |Run(Created(row), steps).wins|
    requires Run(Created(row), steps).wins[i].fence.expected == Run(Created(row), steps).wins[j].fence.expected
    ensures Run(Created(row), steps).wins[i].fence.revision < Run(Created(row), steps).wins[j].fence.revision
  {
    EachFenceWonOnce(row, steps);
  }
}
