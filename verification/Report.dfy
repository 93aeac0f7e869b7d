// backend/run/report.go: what one observation does to a run, as a function.
module Report {
  import opened Wrappers
  import opened Phases

  datatype Observation = Observation(
    epoch: nat,
    attempt: nat,
    phase: Phase,
    reason: Option<Reason>,
    message: Option<Message>,
    exitCode: Option<int>,
    failureClass: Option<FailureClass>,
    finished: bool,
    checkpoint: set<RuntimePhase>)

  /** The columns of the row the decision reads. */
  datatype State = State(cluster: Option<ClusterId>, epoch: nat, attempt: nat, phase: Option<Phase>) {
    function Rank(): nat { RankOf(phase) }
  }

  datatype Verdict = Advance | Repeat | Reject

  datatype Code =
    | NoCode | EpochMismatch | InvalidRequest | LeasedByAnotherCluster
    | AttemptRegression | RunTerminal | PhaseRegression

  datatype Action = NoAction | Abandon | Fatal | Retry

  datatype Decision = Decision(verdict: Verdict, newAttempt: bool, code: Code, action: Action, audit: bool) {
    predicate Accepted() { verdict != Reject }
  }

  function Refuse(code: Code, action: Action): Decision {
    Decision(Reject, false, code, action, false)
  }

  function Accept(verdict: Verdict): Decision {
    Decision(verdict, false, NoCode, NoAction, false)
  }

  /** Evaluates one observation from caller against the row. */
  function Apply(state: State, obs: Observation, caller: ClusterId): Decision {
    if obs.epoch < state.epoch then Refuse(EpochMismatch, Abandon)
    else if obs.epoch > state.epoch then Refuse(InvalidRequest, Fatal)
    else if state.cluster.Some? && state.cluster.value != caller then Refuse(LeasedByAnotherCluster, Abandon)
    else if obs.attempt < state.attempt then Refuse(AttemptRegression, Abandon)
    else
      var rank := obs.phase.Rank();
      if rank == 0 then Refuse(InvalidRequest, Fatal)
      else if obs.attempt > state.attempt then Accept(Advance).(newAttempt := true)
      else if rank > state.Rank() then Accept(Advance)
      else if rank == state.Rank() && Some(obs.phase) == state.phase then Accept(Repeat)
      else if rank == state.Rank() && Ended(state.phase) then Refuse(RunTerminal, Abandon).(audit := true)
      else Refuse(PhaseRegression, Retry)
  }

  /** The status told to the controller; CompletedWithoutResult until the pod's report is in. */
  function StatusFor(phase: Phase, completionReceived: bool): Option<Status> {
    if phase.IsTerminal() && !completionReceived then Some(CompletedWithoutResult) else StatusForPhase(phase)
  }

  /** What goes into the status column. */
  function StoredStatus(phase: Phase): Option<Status> { StatusForPhase(phase) }

  /** A status and a phase say the same of a run. */
  predicate Says(status: Status, phase: Phase) {
    && (status == Dispatched <==> phase == Pending)
    && (status == StatusStarting <==> phase == Starting)
    && (status == StatusRunning <==> phase == Running)
    && (status == StatusSucceeded <==> phase == Succeeded)
    && (status == StatusFailed <==> phase == Failed)
    && (status == StatusTimedOut <==> phase == TimedOut)
    && (status == StatusCancelled <==> phase == Cancelled)
  }

  /** The status column takes the status that says what the phase says, and none from a phase nobody knows. */
  lemma StoredSays(phase: Phase, status: Status)
    ensures StoredStatus(phase) == Some(status) <==> !phase.Unrecognised? && Says(status, phase)
  {}

  // ---- the order reports are judged by -------------------------------------

  /** The ordering key of section 5 of the Cluster API contract, under one epoch. */
  datatype Position = Position(attempt: nat, rank: nat) {
    predicate AtMost(other: Position) {
      attempt < other.attempt || (attempt == other.attempt && rank <= other.rank)
    }

    predicate Below(other: Position) { AtMost(other) && this != other }
  }

  function At(obs: Observation): Position { Position(obs.attempt, obs.phase.Rank()) }

  function Stands(state: State): Position { Position(state.attempt, state.Rank()) }

  /** The ordering half of the row after an observation was evaluated and written. */
  function Next(state: State, obs: Observation, caller: ClusterId): State {
    if Apply(state, obs, caller).verdict == Advance
    then state.(cluster := state.cluster.Or(Some(caller)), attempt := obs.attempt, phase := Some(obs.phase))
    else state
  }

  /** Two nonterminal phases of one rank are one phase: only endings can disagree. */
  lemma SameRankSamePhase(a: Phase, b: Phase)
    requires a.Rank() == b.Rank() && 0 < a.Rank() < 40
    ensures a == b
  {}

  /** Within an attempt a run is pending, then starting, then running, then it ends, in one of four ways. */
  predicate Follows(later: Phase, earlier: Option<Phase>) {
    match later
    case Pending => earlier.None?
    case Starting => earlier in {None, Some(Pending)}
    case Running => earlier in {None, Some(Pending), Some(Starting)}
    case Unrecognised(_) => false
    case _ => earlier in {None, Some(Pending), Some(Starting), Some(Running)}
  }

  /** Of the attempt the row is at, a report is new exactly when its phase follows the row's. */
  lemma NewsFollows(state: State, obs: Observation, caller: ClusterId)
    requires obs.epoch == state.epoch && obs.attempt == state.attempt && (state.cluster.Some? ==> state.cluster.value == caller)
    requires state.phase.Some? ==> !state.phase.value.Unrecognised?
    ensures Apply(state, obs, caller).verdict == Advance <==> Follows(obs.phase, state.phase)
  {}

  /**
   * The decision, by the order alone: a report of the row's holder under the
   * row's epoch is new when it stands further on, a repeat when it says again
   * what the row says, and refused otherwise; it is audited exactly when it
   * ends the row's attempt in another way than the row.
   */
  lemma DecidedByPosition(state: State, obs: Observation, caller: ClusterId)
    ensures var d := Apply(state, obs, caller);
      var ours := obs.epoch == state.epoch && (state.cluster.Some? ==> state.cluster.value == caller) && obs.phase.Rank() > 0;
      && (d.verdict == Advance <==> ours && Stands(state).Below(At(obs)))
      && (d.verdict == Repeat <==> ours && At(obs) == Stands(state) && state.phase == Some(obs.phase))
      && (d.audit <==> ours && At(obs) == Stands(state) && state.phase != Some(obs.phase))
      && (d.newAttempt <==> ours && obs.attempt > state.attempt)
  {
    if At(obs) == Stands(state) && 0 < obs.phase.Rank() < 40 {
      SameRankSamePhase(obs.phase, state.phase.value);
    }
  }

  /**
   * What a refusal tells the sender to do: fix the message when no state of the
   * run could make sense of it, repeat when only the phase fell behind, and
   * otherwise let go, because the run has moved past what it speaks of.
   */
  lemma RefusalsSayWhatToDo(state: State, obs: Observation, caller: ClusterId)
    requires !Apply(state, obs, caller).Accepted()
    ensures var d := Apply(state, obs, caller);
      var held := state.cluster.Some? && state.cluster.value != caller;
      var past := obs.epoch < state.epoch
                  || (obs.epoch == state.epoch && (held || obs.attempt < state.attempt
                      || (obs.phase.IsTerminal() && At(obs) == Stands(state))));
      && (d.action == Abandon <==> past)
      && (d.action == Fatal <==> !past && (obs.epoch > state.epoch || obs.phase.Rank() == 0))
      && (d.action == Retry <==> !past && d.code == PhaseRegression)
      && (d.code == EpochMismatch <==> obs.epoch < state.epoch)
      && (d.code == LeasedByAnotherCluster <==> obs.epoch == state.epoch && held)
      && (d.code == AttemptRegression <==> obs.epoch == state.epoch && !held && obs.attempt < state.attempt)
      && (d.code == RunTerminal <==> d.audit)
      && (d.code == InvalidRequest <==> d.action == Fatal)
  {
    if At(obs) == Stands(state) && 0 < obs.phase.Rank() < 40 {
      SameRankSamePhase(obs.phase, state.phase.value);
    }
  }
}
