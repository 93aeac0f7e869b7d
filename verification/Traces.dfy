// The ownership protocol over whole runs of the system.
module Traces {
  import opened Numbers
  import opened Wrappers
  import opened Phases
  import opened Report
  import opened Ledger
  import opened RunSteps
  import opened Protocol

  ghost function Run(h: History, events: seq<Event>, ceiling: nat): History
    decreases |events|
  {
    if events == [] then h else Run(After(h, events[0], ceiling), events[1..], ceiling)
  }

  /** Every message is sent under an epoch its sender was leased. */
  ghost predicate AllLegal(h: History, events: seq<Event>, ceiling: nat)
    decreases |events|
  {
    events != [] ==> SendsOwnEpoch(h, events[0]) && AllLegal(After(h, events[0], ceiling), events[1..], ceiling)
  }

  predicate NoRetry(events: seq<Event>) {
    forall e | e in events :: !e.Retrying?
  }

  lemma {:induction false} InvAlways(h: History, events: seq<Event>, ceiling: nat)
    requires Inv(h, ceiling) && AllLegal(h, events, ceiling) && ceiling >= 1
    ensures Inv(Run(h, events, ceiling), ceiling)
    decreases |events|
  {
    if events != [] {
      StepKeepsInv(h, events[0], ceiling);
      InvAlways(After(h, events[0], ceiling), events[1..], ceiling);
    }
  }

  // ---- what holds in every reachable state ------------------------------------

  /**
   * At most one attempt of a run is open in the ledger, and it is the current
   * one; so the index that would refuse a second is never hit.
   */
  lemma OneOpenAttempt(cluster: Option<ClusterId>, events: seq<Event>, next: Event, ceiling: nat)
    requires AllLegal(Start(cluster), events, ceiling) && ceiling >= 1
    requires SendsOwnEpoch(Run(Start(cluster), events, ceiling), next)
    ensures var h := Run(Start(cluster), events, ceiling);
      && (forall k | k in h.run.ledger && h.run.ledger[k].open :: k == Current(h))
      && EffectOf(h.run, next, ceiling).outcome != LiveAttempt
  {
    StartInv(cluster, ceiling);
    InvAlways(Start(cluster), events, ceiling);
    StepKeepsInv(Run(Start(cluster), events, ceiling), next, ceiling);
  }

  // ---- status and phase ---------------------------------------------------------

  /** The status says what the phase says, or Unknown; and a run that ended is never Unknown. */
  predicate StatusAgrees(row: Row) {
    && (row.status == Unknown ==> !Ended(row.phase))
    && (row.phase.Some? && row.status != Unknown ==> Says(row.status, row.phase.value))
  }

  predicate StatusStored(row: Row) {
    && (row.status == Unknown ==> !Ended(row.phase))
    && (row.phase.Some? && row.status != Unknown ==> Some(row.status) == StoredStatus(row.phase.value))
  }

  lemma StoredMeansAgrees(row: Row)
    requires row.phase.Some? ==> RankOf(row.phase) > 0
    ensures StatusAgrees(row) <==> StatusStored(row)
  {
    if row.phase.Some? { StoredSays(row.phase.value, row.status); }
  }

  /**
   * A refusal that takes effect on a run its holder had reported on. It leaves
   * the phase where it was, under a status the phase does not stand for, unless
   * it fails for good a run reported Failed.
   */
  predicate Disturbs(h: History, event: Event) {
    && Refuses(h, event) && h.run.row.phase.Some?
    && !(h.run.row.phase == Some(Failed)
         && PickCluster(event.eligible, h.run.excluded + {event.holder.cluster}).None?)
  }

  ghost predicate Undisturbed(h: History, events: seq<Event>, ceiling: nat)
    decreases |events|
  {
    events != [] ==> !Disturbs(h, events[0]) && Undisturbed(After(h, events[0], ceiling), events[1..], ceiling)
  }

  ghost predicate AgreesThroughout(h: History, events: seq<Event>, ceiling: nat)
    decreases |events|
  {
    StatusAgrees(h.run.row)
    && (events != [] ==> AgreesThroughout(After(h, events[0], ceiling), events[1..], ceiling))
  }

  /** As before any refusal of a reported run: no phase is left over from another ownership. */
  predicate Untroubled(row: Row) {
    StatusStored(row) && (row.status in {Queued, Leased} ==> row.phase.None?)
  }

  lemma UntroubledStep(h: History, event: Event, ceiling: nat)
    requires Inv(h, ceiling) && SendsOwnEpoch(h, event) && Untroubled(h.run.row) && !Disturbs(h, event)
    ensures Untroubled(After(h, event, ceiling).run.row)
  {
    if event.Observing? || event.Completing? {
      ReportsKeepOwnership(h, event, ceiling);
      UntroubledByReport(h, event, After(h, event, ceiling), ceiling);
    } else {
      UntroubledByOthers(h, event, ceiling);
    }
  }

  lemma UntroubledByReport(h: History, event: Event, next: History, ceiling: nat)
    requires Lifecycle(h, ceiling) && Untroubled(h.run.row) && KeptByReport(h, event, next)
    ensures Untroubled(next.run.row)
  {}

  lemma UntroubledByOthers(h: History, event: Event, ceiling: nat)
    requires Untroubled(h.run.row) && !Disturbs(h, event) && !event.Observing? && !event.Completing?
    ensures Untroubled(After(h, event, ceiling).run.row)
  {}

  lemma DisturbedDisagrees(h: History, event: Event, ceiling: nat)
    requires Disturbs(h, event)
    ensures !StatusStored(After(h, event, ceiling).run.row)
  {}

  /**
   * In every state of a run of the system the status is the one its phase stands
   * for, or Unknown on a run that has not ended, exactly when no refusal took
   * effect on a reported run along the way, but to fail one reported Failed.
   */
  lemma {:induction false} StatusFollowsPhaseIff(h: History, events: seq<Event>, ceiling: nat)
    requires Inv(h, ceiling) && AllLegal(h, events, ceiling) && ceiling >= 1 && Untroubled(h.run.row)
    ensures AgreesThroughout(h, events, ceiling) <==> Undisturbed(h, events, ceiling)
    decreases |events|
  {
    StoredMeansAgrees(h.run.row);
    if events != [] {
      var next := After(h, events[0], ceiling);
      StepKeepsInv(h, events[0], ceiling);
      StoredMeansAgrees(next.run.row);
      if Disturbs(h, events[0]) {
        DisturbedDisagrees(h, events[0], ceiling);
      } else {
        UntroubledStep(h, events[0], ceiling);
        StatusFollowsPhaseIff(next, events[1..], ceiling);
      }
    }
  }

  lemma StatusFollowsPhase(cluster: Option<ClusterId>, events: seq<Event>, ceiling: nat)
    requires AllLegal(Start(cluster), events, ceiling) && ceiling >= 1
    ensures AgreesThroughout(Start(cluster), events, ceiling) <==> Undisturbed(Start(cluster), events, ceiling)
  {
    StartInv(cluster, ceiling);
    StatusFollowsPhaseIff(Start(cluster), events, ceiling);
  }

  lemma {:induction false} AgreesAtTheEnd(h: History, events: seq<Event>, ceiling: nat)
    requires AgreesThroughout(h, events, ceiling)
    ensures StatusAgrees(Run(h, events, ceiling).run.row)
    decreases |events|
  {
    if events != [] { AgreesAtTheEnd(After(h, events[0], ceiling), events[1..], ceiling); }
  }

  /** So whoever reads the status of a run knows its phase, and the other way round, unless the run is out of sight. */
  lemma StatusTellsPhase(cluster: Option<ClusterId>, events: seq<Event>, ceiling: nat)
    requires AllLegal(Start(cluster), events, ceiling) && ceiling >= 1 && Undisturbed(Start(cluster), events, ceiling)
    ensures var row := Run(Start(cluster), events, ceiling).run.row;
      row.phase.Some? && row.status != Unknown ==>
        && (row.status == Dispatched <==> row.phase == Some(Pending))
        && (row.status == StatusStarting <==> row.phase == Some(Starting))
        && (row.status == StatusRunning <==> row.phase == Some(Running))
        && (row.status == StatusSucceeded <==> row.phase == Some(Succeeded))
        && (row.status == StatusFailed <==> row.phase == Some(Failed))
        && (row.status == StatusTimedOut <==> row.phase == Some(TimedOut))
        && (row.status == StatusCancelled <==> row.phase == Some(Cancelled))
  {
    StatusFollowsPhase(cluster, events, ceiling);
    AgreesAtTheEnd(Start(cluster), events, ceiling);
  }

  lemma ExclusionsGrow(h: History, event: Event, ceiling: nat)
    ensures h.run.excluded <= After(h, event, ceiling).run.excluded
  {}

  /** A cluster that refused the run is never given it again, queued or leased. */
  lemma {:induction false} RefusedForGood(h: History, events: seq<Event>, c: ClusterId, ceiling: nat)
    requires Inv(h, ceiling) && AllLegal(h, events, ceiling) && ceiling >= 1 && c in h.run.excluded
    ensures var later := Run(h, events, ceiling);
      && c in later.run.excluded
      && (later.run.row.status in {Queued, Leased} ==> later.run.row.cluster != Some(c))
    decreases |events|
  {
    if events != [] {
      StepKeepsInv(h, events[0], ceiling);
      ExclusionsGrow(h, events[0], ceiling);
      RefusedForGood(After(h, events[0], ceiling), events[1..], c, ceiling);
    }
  }

  // ---- ownership only moves forward --------------------------------------------

  /** The full ordering key: epoch, then attempt, then phase rank. */
  datatype Standing = Standing(epoch: nat, position: Position) {
    predicate AtMost(other: Standing) {
      epoch < other.epoch || (epoch == other.epoch && position.AtMost(other.position))
    }
  }

  /** Where the ownership of a run stands; a run nobody holds stands before every report. */
  function StandingOf(h: History): Standing {
    Standing(h.run.row.epoch, if Held(h) then Stands(h.run.row.State()) else Position(0, 0))
  }

  /** runs_guard: the writes the database refuses. */
  predicate GuardAllows(before: Row, after: Row) {
    && before.epoch <= after.epoch
    && (before.epoch == after.epoch ==> before.attempt <= after.attempt)
    && (before.status.IsTerminal() && after.status != before.status ==>
          before.epoch < after.epoch || before.attempt < after.attempt)
  }

  predicate MovesForward(h: History, next: History) {
    && StandingOf(h).AtMost(StandingOf(next))
    && GuardAllows(h.run.row, next.run.row)
    && (next.run.row.status == Queued && h.run.row.status != Queued ==> next.run.row.epoch > h.run.row.epoch)
  }

  /** No step moves an ownership back, a return to the queue raises the epoch, and the guard never fires. */
  lemma StepMovesForward(h: History, event: Event, ceiling: nat)
    requires Inv(h, ceiling) && SendsOwnEpoch(h, event)
    ensures MovesForward(h, After(h, event, ceiling))
  {
    if event.Observing? || event.Completing? {
      ReportsMoveForward(h, event, ceiling);
    } else if event.Rejecting? {
      RejectMovesForward(h, event, ceiling);
    } else if event.AckExpiring? {
      ExpiryMovesForward(h, event, ceiling);
    } else {
      OthersMoveForward(h, event, ceiling);
    }
  }

  lemma OthersMoveForward(h: History, event: Event, ceiling: nat)
    requires Owned(h, ceiling)
    requires !event.Observing? && !event.Completing? && !event.Rejecting? && !event.AckExpiring?
    ensures MovesForward(h, After(h, event, ceiling))
  {}

  lemma ExpiryMovesForward(h: History, event: Event, ceiling: nat)
    requires event.AckExpiring?
    ensures MovesForward(h, After(h, event, ceiling))
  {}

  lemma RejectMovesForward(h: History, event: Event, ceiling: nat)
    requires event.Rejecting?
    ensures MovesForward(h, After(h, event, ceiling))
  {}

  lemma ReportsMoveForward(h: History, event: Event, ceiling: nat)
    requires Inv(h, ceiling) && SendsOwnEpoch(h, event) && (event.Observing? || event.Completing?)
    ensures MovesForward(h, After(h, event, ceiling))
  {
    ReportsKeepOwnership(h, event, ceiling);
    var next := After(h, event, ceiling);
    assert Held(next) == Held(h);
    if next.run.row.State() != h.run.row.State() || next.run.row.status != h.run.row.status {
      AcceptedMovesForward(h.run.row, next.run.row, event.obs, event.cluster);
    }
  }

  lemma AcceptedMovesForward(row: Row, next: Row, obs: Observation, caller: ClusterId)
    requires Apply(row.State(), obs, caller).Accepted() && next.epoch == row.epoch
    requires next.attempt == obs.attempt && next.phase == Some(obs.phase)
    requires Some(next.status) == StoredStatus(obs.phase)
    requires row.status.IsTerminal() ==> row.phase.Some? && Some(row.status) == StoredStatus(row.phase.value)
    ensures Stands(row.State()).AtMost(Stands(next.State())) && GuardAllows(row, next) && next.status != Queued
  {}

  /**
   * Of the row itself, held or not, one step can lower (epoch, attempt, rank):
   * cancelling a queued run that kept the phase of an ownership refused since.
   */
  lemma RowStepsBackIff(h: History, event: Event, ceiling: nat)
    requires Inv(h, ceiling) && SendsOwnEpoch(h, event)
    ensures RowStepsBack(h.run.row, After(h, event, ceiling).run.row)
      <==> event.Cancelling? && h.run.row.status == Queued && h.run.row.phase.Some? && !Ended(h.run.row.phase)
  {
    if event.Observing? || event.Completing? {
      ReportsMoveForward(h, event, ceiling);
      ReportsKeepOwnership(h, event, ceiling);
      ReportStepsOn(h, event, After(h, event, ceiling));
    } else {
      OthersStepBackIff(h, event, ceiling);
    }
  }

  predicate RowStepsBack(row: Row, next: Row) {
    !Standing(row.epoch, Stands(row.State())).AtMost(Standing(next.epoch, Stands(next.State())))
  }

  lemma ReportStepsOn(h: History, event: Event, next: History)
    requires (event.Observing? || event.Completing?) && KeptByReport(h, event, next) && MovesForward(h, next)
    ensures !RowStepsBack(h.run.row, next.run.row)
  {}

  lemma OthersStepBackIff(h: History, event: Event, ceiling: nat)
    requires Lifecycle(h, ceiling) && !event.Observing? && !event.Completing?
    ensures RowStepsBack(h.run.row, After(h, event, ceiling).run.row)
      <==> event.Cancelling? && h.run.row.status == Queued && h.run.row.phase.Some? && !Ended(h.run.row.phase)
  {}

  lemma {:induction false} RunMovesForward(h: History, events: seq<Event>, ceiling: nat)
    requires Inv(h, ceiling) && AllLegal(h, events, ceiling) && ceiling >= 1
    ensures StandingOf(h).AtMost(StandingOf(Run(h, events, ceiling)))
    decreases |events|
  {
    if events != [] {
      StepKeepsInv(h, events[0], ceiling);
      StepMovesForward(h, events[0], ceiling);
      RunMovesForward(After(h, events[0], ceiling), events[1..], ceiling);
    }
  }

  /** Over a whole run every epoch is handed out at most once. */
  lemma EachEpochIssuedOnce(cluster: Option<ClusterId>, events: seq<Event>, ceiling: nat)
    requires AllLegal(Start(cluster), events, ceiling) && ceiling >= 1
    ensures var issued := Run(Start(cluster), events, ceiling).issued;
      forall i, j | 0 <= i < |issued| && 0 <= j < |issued| && issued[i].epoch == issued[j].epoch :: i == j
  {
    StartInv(cluster, ceiling);
    InvAlways(Start(cluster), events, ceiling);
  }

  /** A message sent under an ownership, or from a position, the run has left behind. */
  predicate Stale(h: History, message: Event) {
    match message
    case Acking(holder, _, _) => holder.epoch < h.run.row.epoch
    case Rejecting(holder, _, _, _) => holder.epoch < h.run.row.epoch
    case Completing(_, epoch, _, _) => epoch < h.run.row.epoch
    case Observing(_, obs, _, _) => !StandingOf(h).AtMost(Standing(obs.epoch, At(obs)))
    case _ => false
  }

  lemma StaleChangesNothing(h: History, message: Event, ceiling: nat)
    requires Stale(h, message)
    ensures EffectOf(h.run, message, ceiling).run == h.run
  {}

  /** Once stale, a message can never again change the run, whatever happens in between. */
  lemma StaleForever(h: History, message: Event, events: seq<Event>, ceiling: nat)
    requires Inv(h, ceiling) && AllLegal(h, events, ceiling) && ceiling >= 1
    requires Stale(h, message)
    ensures var later := Run(h, events, ceiling);
      Stale(later, message) && EffectOf(later.run, message, ceiling).run == later.run
  {
    RunMovesForward(h, events, ceiling);
    StaleChangesNothing(Run(h, events, ceiling), message, ceiling);
  }

  // ---- one acknowledgement -------------------------------------------------------

  /** The run has left the queue for good under this ownership. */
  predicate Pinned(h: History, a: Holding) {
    Held(h) && Holder(h) == a && h.run.row.status !in {Queued, Leased}
  }

  lemma AcceptedAckPins(h: History, event: Event, ceiling: nat)
    requires Inv(h, ceiling) && event.Acking? && SendsOwnEpoch(h, event)
    requires EffectOf(h.run, event, ceiling).outcome == Done
    ensures Pinned(After(h, event, ceiling), event.holder)
  {
    IssuedNowIsHeld(h, event.holder);
  }

  /** Nothing but a retry, or the holder's own refusal, takes a run from an ownership that left the queue. */
  lemma PinnedStep(h: History, a: Holding, event: Event, ceiling: nat)
    requires Inv(h, ceiling) && SendsOwnEpoch(h, event) && Pinned(h, a) && !event.Retrying? && !Refuses(h, event)
    ensures var next := After(h, event, ceiling);
      Pinned(next, a) && next.acked <= h.acked + {a} && next.issued == h.issued
  {
    if event.Observing? || event.Completing? {
      ReportsKeepOwnership(h, event, ceiling);
      PinnedByReport(h, a, event, After(h, event, ceiling));
    } else {
      PinnedByOthers(h, a, event, ceiling);
    }
  }

  lemma PinnedByReport(h: History, a: Holding, event: Event, next: History)
    requires Pinned(h, a) && KeptByReport(h, event, next)
    ensures Pinned(next, a) && next.acked == h.acked && next.issued == h.issued
  {}

  lemma PinnedByOthers(h: History, a: Holding, event: Event, ceiling: nat)
    requires Fenced(h) && SendsOwnEpoch(h, event) && Pinned(h, a) && !event.Retrying? && !Refuses(h, event)
    requires !event.Observing? && !event.Completing?
    ensures var next := After(h, event, ceiling);
      Pinned(next, a) && next.acked <= h.acked + {a} && next.issued == h.issued
  {
    if event.Acking? && EffectOf(h.run, event, ceiling).outcome == Done {
      IssuedNowIsHeld(h, event.holder);
    }
  }

  function Retries(events: seq<Event>): nat {
    if events == [] then 0 else (if events[0].Retrying? then 1 else 0) + Retries(events[1..])
  }

  ghost function LateRefusals(h: History, events: seq<Event>, ceiling: nat): nat
    decreases |events|
  {
    if events == [] then 0
    else (if RefusesLate(h, events[0]) then 1 else 0)
         + LateRefusals(After(h, events[0], ceiling), events[1..], ceiling)
  }

  /**
   * From any state, at most one more ownership is ever acknowledged, and one more
   * for each operator retry and for each refusal of a lease acknowledged before,
   * whatever acknowledgements are lost, repeated or late.
   */
  lemma {:induction false} AcknowledgementsBounded(h: History, pinned: Option<Holding>, events: seq<Event>, ceiling: nat)
    requires Inv(h, ceiling) && AllLegal(h, events, ceiling) && ceiling >= 1
    requires pinned.Some? ==> Pinned(h, pinned.value) && pinned.value in h.acked
    ensures h.acked <= Run(h, events, ceiling).acked
    ensures |Run(h, events, ceiling).acked| <=
            |h.acked| + Retries(events) + LateRefusals(h, events, ceiling) + if pinned.Some? then 0 else 1
    decreases |events|
  {
    if events != [] {
      StepKeepsInv(h, events[0], ceiling);
      var after := AcknowledgementsOfAStep(h, pinned, events[0], ceiling);
      AcknowledgementsBounded(After(h, events[0], ceiling), after, events[1..], ceiling);
    }
  }

  /** One step acknowledges a new ownership only when none was pinned, and unpins one only at the stated cost. */
  lemma AcknowledgementsOfAStep(h: History, pinned: Option<Holding>, event: Event, ceiling: nat)
    returns (after: Option<Holding>)
    requires Inv(h, ceiling) && SendsOwnEpoch(h, event)
    requires pinned.Some? ==> Pinned(h, pinned.value) && pinned.value in h.acked
    ensures var next := After(h, event, ceiling);
      && (after.Some? ==> Pinned(next, after.value) && after.value in next.acked) && h.acked <= next.acked
      && |next.acked| + (if after.Some? then 0 else 1) <= |h.acked| + (if pinned.Some? then 0 else 1)
           + (if event.Retrying? then 1 else 0) + (if RefusesLate(h, event) then 1 else 0)
  {
    if event.Acking? && EffectOf(h.run, event, ceiling).outcome == Done {
      AcceptedAckPins(h, event, ceiling);
      if pinned.Some? { PinnedStep(h, pinned.value, event, ceiling); }
      after := Some(event.holder);
    } else if event.Retrying? || Refuses(h, event) {
      if pinned.Some? && Refuses(h, event) { IssuedNowIsHeld(h, event.holder); }
      after := None;
    } else {
      if pinned.Some? { PinnedStep(h, pinned.value, event, ceiling); }
      after := pinned;
    }
  }

  /**
   * The store does not ask whether the lease a refusal names was acknowledged.
   * Of an acknowledged run without a cancellation, no second ownership is ever
   * acknowledged without a retry as long as no such refusal is sent; and if its
   * holder sends one while another cluster is there, one can be.
   */
  lemma SecondAcknowledgementIffLateRefusal(
    h: History, a: Holding, code: string, eligible: seq<ClusterId>, ceiling: nat)
    requires Inv(h, ceiling) && ceiling >= 1 && Pinned(h, a) && a in h.acked && !h.run.row.cancelRequested
    requires PickCluster(eligible, h.run.excluded + {a.cluster}).Some?
    ensures forall events | AllLegal(h, events, ceiling) && Retries(events) == LateRefusals(h, events, ceiling) == 0 ::
      Run(h, events, ceiling).acked == h.acked
    ensures exists events | AllLegal(h, events, ceiling) && Retries(events) == 0 && LateRefusals(h, events, ceiling) == 1 ::
      |Run(h, events, ceiling).acked| == |h.acked| + 1
  {
    forall events | AllLegal(h, events, ceiling) && Retries(events) == LateRefusals(h, events, ceiling) == 0
      ensures Run(h, events, ceiling).acked == h.acked
    {
      AcknowledgementsBounded(h, Some(a), events, ceiling);
      SubsetSize(h.acked, Run(h, events, ceiling).acked);
    }
    var events := Reissue(h, a, code, eligible, ceiling);
  }

  /** Refused by its holder, the run is leased to another cluster, and acknowledged there. */
  lemma Reissue(h: History, a: Holding, code: string, eligible: seq<ClusterId>, ceiling: nat)
    returns (events: seq<Event>)
    requires Inv(h, ceiling) && Pinned(h, a) && a in h.acked && !h.run.row.cancelRequested
    requires PickCluster(eligible, h.run.excluded + {a.cluster}).Some?
    ensures AllLegal(h, events, ceiling) && Retries(events) == 0 && LateRefusals(h, events, ceiling) == 1
    ensures |Run(h, events, ceiling).acked| == |h.acked| + 1
  {
    var other := Holding(PickCluster(eligible, h.run.excluded + {a.cluster}).value, a.epoch + 1);
    var refusal, lease, ack := Rejecting(a, code, None, eligible), Leasing(other.cluster, 0, 0, 0), Acking(other, 0, 0);
    var rejected := After(h, refusal, ceiling);
    RefusedIsFree(h, a, code, eligible, ceiling);
    LeaseThenAck(rejected, other, ceiling);
    assert other !in h.acked;
    events := [refusal] + ([lease] + ([ack] + []));
    OneAfterTheOther(h, refusal, lease, ack, ceiling);
  }

  lemma OneAfterTheOther(h: History, a: Event, b: Event, c: Event, ceiling: nat)
    requires SendsOwnEpoch(h, a) && !a.Retrying? && !b.Retrying? && !c.Retrying? && !b.Rejecting? && !c.Rejecting?
    requires SendsOwnEpoch(After(h, a, ceiling), b) && SendsOwnEpoch(After(After(h, a, ceiling), b, ceiling), c)
    ensures var all := [a] + ([b] + ([c] + []));
      && AllLegal(h, all, ceiling) && Retries(all) == 0
      && LateRefusals(h, all, ceiling) == (if RefusesLate(h, a) then 1 else 0)
      && Run(h, all, ceiling) == After(After(After(h, a, ceiling), b, ceiling), c, ceiling)
  {
    var h1 := After(h, a, ceiling);
    Prepended(After(h1, b, ceiling), c, [], ceiling);
    Prepended(h1, b, [c] + [], ceiling);
    Prepended(h, a, [b] + ([c] + []), ceiling);
  }

  lemma RefusedIsFree(h: History, a: Holding, code: string, eligible: seq<ClusterId>, ceiling: nat)
    requires Fenced(h) && Booked(h) && Pinned(h, a) && !h.run.row.cancelRequested
    requires PickCluster(eligible, h.run.excluded + {a.cluster}).Some?
    ensures var refusal := Rejecting(a, code, None, eligible); var next := After(h, refusal, ceiling);
      && Refuses(h, refusal) && SendsOwnEpoch(h, refusal)
      && next.acked == h.acked && next.issued == h.issued
      && Booked(next) && !Held(next) && next.run.row.attempt == 1 && next.run.row.epoch == a.epoch + 1
      && Leasable(next.run.row, PickCluster(eligible, h.run.excluded + {a.cluster}).value)
  {
    RevokedBooked(h, After(h, Rejecting(a, code, None, eligible), ceiling));
  }

  lemma Prepended(h: History, event: Event, rest: seq<Event>, ceiling: nat)
    ensures var all := [event] + rest; var next := After(h, event, ceiling);
      && (AllLegal(h, all, ceiling) <==> SendsOwnEpoch(h, event) && AllLegal(next, rest, ceiling))
      && Retries(all) == (if event.Retrying? then 1 else 0) + Retries(rest)
      && LateRefusals(h, all, ceiling) == (if RefusesLate(h, event) then 1 else 0) + LateRefusals(next, rest, ceiling)
      && Run(h, all, ceiling) == Run(next, rest, ceiling)
  {
    assert ([event] + rest)[1..] == rest;
  }

  /** A queued run nobody holds can be leased and acknowledged. */
  lemma LeaseThenAck(h: History, other: Holding, ceiling: nat)
    requires Booked(h) && !Held(h) && h.run.row.attempt == 1 && h.run.row.epoch == other.epoch
    requires Leasable(h.run.row, other.cluster)
    ensures var leased := After(h, Leasing(other.cluster, 0, 0, 0), ceiling);
      other in leased.issued && After(leased, Acking(other, 0, 0), ceiling).acked == h.acked + {other}
  {
    LeasingBooked(h, Leasing(other.cluster, 0, 0, 0), ceiling);
    var leased := After(h, Leasing(other.cluster, 0, 0, 0), ceiling);
    assert leased.run.row.status == Leased && leased.run.row.epoch == other.epoch;
    assert leased.issued[|h.issued|] == other;
  }

  // ---- requeueing terminates -----------------------------------------------------

  /** Every cluster the environment ever names is one of the registered ones. */
  predicate Knows(clusters: set<ClusterId>, event: Event) {
    match event
    case Rejecting(_, _, _, eligible) => forall c | c in eligible :: c in clusters
    case Placing(eligible) => forall c | c in eligible :: c in clusters
    case _ => true
  }

  predicate PlacedAmong(h: History, clusters: set<ClusterId>) {
    h.run.row.cluster.Some? ==> h.run.row.cluster.value in clusters
  }

  /**
   * How often the run can still be leased: clusters yet to refuse it, expiries
   * yet to spend. Whoever holds it may still refuse it, whatever it reported.
   */
  function LeasesLeft(h: History, candidates: nat, ceiling: nat): nat {
    var row := h.run.row;
    if row.ackExpiries >= ceiling || candidates == 0 then 0
    else if row.status == Queued then candidates + (ceiling - row.ackExpiries) - 1
    else if Held(h) then candidates + (ceiling - row.ackExpiries) - 2
    else 0
  }

  function Candidates(h: History, clusters: set<ClusterId>): nat { |clusters - h.run.excluded| }

  lemma OneFewerCandidate(clusters: set<ClusterId>, excluded: set<ClusterId>, c: ClusterId)
    requires c in clusters && c !in excluded
    ensures |clusters - (excluded + {c})| == |clusters - excluded| - 1
  {
    assert clusters - (excluded + {c}) == (clusters - excluded) - {c};
  }

  lemma SomeCandidate(clusters: set<ClusterId>, excluded: set<ClusterId>, c: ClusterId)
    requires c in clusters && c !in excluded
    ensures |clusters - excluded| >= 1
  {
    assert c in clusters - excluded;
  }

  predicate Spends(h: History, next: History, clusters: set<ClusterId>, ceiling: nat) {
    && PlacedAmong(next, clusters)
    && LeasesLeft(next, Candidates(next, clusters), ceiling) + |next.issued|
         <= LeasesLeft(h, Candidates(h, clusters), ceiling) + |h.issued|
  }

  lemma StepSpendsLeases(h: History, event: Event, clusters: set<ClusterId>, ceiling: nat)
    requires Inv(h, ceiling) && SendsOwnEpoch(h, event) && !event.Retrying? && Knows(clusters, event)
    requires PlacedAmong(h, clusters)
    ensures Spends(h, After(h, event, ceiling), clusters, ceiling)
  {
    if event.Rejecting? {
      RejectSpends(h, event, clusters, ceiling);
    } else if event.Observing? || event.Completing? {
      ReportsKeepOwnership(h, event, ceiling);
    } else {
      OthersSpend(h, event, clusters, ceiling);
    }
  }

  lemma RejectSpends(h: History, event: Event, clusters: set<ClusterId>, ceiling: nat)
    requires Owned(h, ceiling) && SendsOwnEpoch(h, event) && event.Rejecting? && Knows(clusters, event)
    requires PlacedAmong(h, clusters)
    ensures Spends(h, After(h, event, ceiling), clusters, ceiling)
  {
    if CheckOwnership(h.run.row, event.holder.cluster, event.holder.epoch) == Done {
      IssuedNowIsHeld(h, event.holder);
      OneFewerCandidate(clusters, h.run.excluded, event.holder.cluster);
      var row := After(h, event, ceiling).run.row;
      if row.status == Queued {
        SomeCandidate(clusters, h.run.excluded + {event.holder.cluster}, row.cluster.value);
      }
    }
  }

  lemma OthersSpend(h: History, event: Event, clusters: set<ClusterId>, ceiling: nat)
    requires Owned(h, ceiling) && Knows(clusters, event) && PlacedAmong(h, clusters)
    requires !event.Retrying? && !event.Rejecting? && !event.Observing? && !event.Completing?
    ensures Spends(h, After(h, event, ceiling), clusters, ceiling)
  {
    if (h.run.row.status == Queued || Held(h)) && h.run.row.cluster.Some? {
      SomeCandidate(clusters, h.run.excluded, h.run.row.cluster.value);
    }
    if event.Leasing? || event.AckExpiring? {
      TurnSpends(h, event, clusters, ceiling);
    } else {
      RestSpends(h, event, clusters, ceiling);
    }
  }

  lemma TurnSpends(h: History, event: Event, clusters: set<ClusterId>, ceiling: nat)
    requires Owned(h, ceiling) && PlacedAmong(h, clusters) && (event.Leasing? || event.AckExpiring?)
    requires (h.run.row.status == Queued || Held(h)) && h.run.row.cluster.Some? ==> Candidates(h, clusters) >= 1
    ensures Spends(h, After(h, event, ceiling), clusters, ceiling)
  {}

  lemma RestSpends(h: History, event: Event, clusters: set<ClusterId>, ceiling: nat)
    requires Owned(h, ceiling) && Knows(clusters, event) && PlacedAmong(h, clusters)
    requires event.Acking? || IsQuiet(event)
    ensures Spends(h, After(h, event, ceiling), clusters, ceiling)
  {}

  lemma {:induction false} LeasesAreSpent(h: History, events: seq<Event>, clusters: set<ClusterId>, ceiling: nat)
    requires Inv(h, ceiling) && AllLegal(h, events, ceiling) && ceiling >= 1 && NoRetry(events)
    requires PlacedAmong(h, clusters) && forall e | e in events :: Knows(clusters, e)
    ensures |Run(h, events, ceiling).issued| <= |h.issued| + LeasesLeft(h, Candidates(h, clusters), ceiling)
    decreases |events|
  {
    if events != [] {
      StepKeepsInv(h, events[0], ceiling);
      StepSpendsLeases(h, events[0], clusters, ceiling);
      LeasesAreSpent(After(h, events[0], ceiling), events[1..], clusters, ceiling);
    }
  }

  /** Requeueing ends: without an operator's retry a run is leased fewer than clusters + ceiling times. */
  lemma RequeueingTerminates(
    cluster: Option<ClusterId>, events: seq<Event>, clusters: set<ClusterId>, ceiling: nat)
    requires AllLegal(Start(cluster), events, ceiling) && ceiling >= 1 && NoRetry(events)
    requires PlacedAmong(Start(cluster), clusters) && forall e | e in events :: Knows(clusters, e)
    ensures |Run(Start(cluster), events, ceiling).issued| < |clusters| + ceiling
  {
    StartInv(cluster, ceiling);
    LeasesAreSpent(Start(cluster), events, clusters, ceiling);
    assert clusters - {} == clusters;
  }

  // ---- accounting ----------------------------------------------------------------

  /** In every reachable state the run is billed the first accepted report of each attempt, once. */
  lemma BilledOnce(cluster: Option<ClusterId>, events: seq<Event>, ceiling: nat)
    requires AllLegal(Start(cluster), events, ceiling) && ceiling >= 1
    ensures var h := Run(Start(cluster), events, ceiling);
      h.run.row.usage == Total(Charges(h.run.ledger)) == Total(h.charged)
  {
    StartInv(cluster, ceiling);
    InvAlways(Start(cluster), events, ceiling);
    var h := Run(Start(cluster), events, ceiling);
    TotalIgnoresZeros(Charges(h.run.ledger), h.charged);
  }

  /** The first charge of an attempt is final: no replay, from either path, changes it. */
  lemma {:induction false} ChargeIsFinal(h: History, events: seq<Event>, ceiling: nat, key: Key)
    requires key in h.charged
    ensures key in Run(h, events, ceiling).charged && Run(h, events, ceiling).charged[key] == h.charged[key]
    decreases |events|
  {
    if events != [] {
      ChargeIsFinal(After(h, events[0], ceiling), events[1..], ceiling, key);
    }
  }

  // ---- losing sight of a run -----------------------------------------------------

  /**
   * A run marked Unknown takes the next report of its holder that is further on,
   * or says again what the run says, and no other; taking it brings the status
   * back to what the phase says, without lowering the rank. Unless the run kept
   * an ending from an ownership since refused, that is every report at or above
   * the position it had.
   */
  lemma UnknownRecovers(h: History, obs: Observation, now: int, ttl: int, ceiling: nat)
    requires Inv(h, ceiling) && h.run.row.status == Unknown
    requires obs.epoch == h.run.row.epoch && obs.attempt >= 1 && obs.phase.Rank() > 0
    ensures Held(h)
    ensures var row := h.run.row; var holder := Holder(h).cluster;
      var accepted := Apply(row.State(), obs, holder).Accepted();
      var next := After(h, Observing(holder, obs, now, ttl), ceiling).run.row;
      && (accepted <==> Stands(row.State()).Below(At(obs)) || (At(obs) == Stands(row.State()) && row.phase == Some(obs.phase)))
      && (!Ended(row.phase) ==> (accepted <==> Stands(row.State()).AtMost(At(obs))))
      && (accepted ==> Says(next.status, obs.phase) && Stands(next.State()) == At(obs))
  {
    var event := Observing(Holder(h).cluster, obs, now, ttl);
    assert Holding(event.cluster, obs.epoch) == Holder(h) && Holder(h) in h.issued;
    DecidedByPosition(h.run.row.State(), obs, event.cluster);
    if At(obs) == Stands(h.run.row.State()) && !Ended(h.run.row.phase) {
      SameRankSamePhase(obs.phase, h.run.row.phase.value);
    }
    if Apply(h.run.row.State(), obs, event.cluster).Accepted() {
      ObservingBooked(h, event, ceiling);
      ObservedRow(h.run, event.cluster, obs, now, ttl);
      StoredSays(obs.phase, After(h, event, ceiling).run.row.status);
    }
  }

  /** A new epoch inherits nothing: the checkpoint handed out with a lease is always empty. */
  lemma LeaseCarriesNoCheckpoint(h: History, event: Event, ceiling: nat)
    requires Inv(h, ceiling) && event.Leasing? && Leasable(h.run.row, event.cluster)
    ensures CompletedPhases(After(h, event, ceiling).run.ledger, h.run.row.epoch) == {}
  {
    LeasingBooked(h, event, ceiling);
  }

  /**
   * A cancellation requested while a lease is unacknowledged outlives its expiry:
   * the run returns to a queue that will not hand it out, and only another
   * cancellation or a retry moves it again. The other cancellation is refused if
   * the run kept an ending from an ownership since refused.
   */
  lemma CancelledLeaseParks(h: History, event: Event, ceiling: nat)
    requires Inv(h, ceiling) && SendsOwnEpoch(h, event)
    requires h.run.row.status == Queued && h.run.row.cancelRequested
    ensures var next := After(h, event, ceiling).run.row;
      (event.Cancelling? ==> next.status == if Ended(h.run.row.phase) then Queued else StatusCancelled)
      && (!event.Cancelling? && !event.Retrying? ==> next.status == Queued && next.cancelRequested)
  {
    if event.Observing? && Apply(h.run.row.State(), event.obs, event.cluster).Accepted() {
      AcceptedIsCurrent(h, event);
    }
  }

  // ---- a cancellation reaches the holder ---------------------------------------------

  /** A request to cancel stays on the run until an operator retries it. */
  lemma {:induction false} CancelStays(h: History, events: seq<Event>, ceiling: nat)
    requires h.run.row.cancelRequested && NoRetry(events)
    ensures Run(h, events, ceiling).run.row.cancelRequested
    decreases |events|
  {
    if events != [] {
      assert events[0] in events;
      CancelKeptByStep(h, events[0], ceiling);
      CancelStays(After(h, events[0], ceiling), events[1..], ceiling);
    }
  }

  lemma CancelKeptByStep(h: History, event: Event, ceiling: nat)
    requires h.run.row.cancelRequested && !event.Retrying?
    ensures After(h, event, ceiling).run.row.cancelRequested
  {}

  /** A cluster has the run, confirmed it or not, and the run goes on as far as anybody knows. */
  predicate OnCluster(row: Row, c: ClusterId) {
    && row.cluster == Some(c) && row.status in {Leased, Unknown, Dispatched, StatusStarting, StatusRunning}
    && row.phase !in {Some(Succeeded), Some(Failed), Some(TimedOut), Some(Cancelled)}
  }

  /**
   * Cancelling a run some cluster has is accepted, and changes nothing but that
   * it is asked for; and from then on, whatever happens short of a retry, it
   * stays asked for, of any cluster that has the run: it is handed out to none.
   */
  lemma CancelReachesTheHolder(h: History, c: ClusterId, events: seq<Event>, ceiling: nat)
    requires Inv(h, ceiling) && ceiling >= 1 && OnCluster(h.run.row, c)
    requires AllLegal(After(h, Cancelling, ceiling), events, ceiling) && NoRetry(events)
    ensures EffectOf(h.run, Cancelling, ceiling) == Effect(h.run.(row := h.run.row.(cancelRequested := true)), Done)
    ensures var later := Run(After(h, Cancelling, ceiling), events, ceiling);
      later.run.row.cancelRequested && later.issued == h.issued
  {
    CancelStays(After(h, Cancelling, ceiling), events, ceiling);
    NeverLeasedAgain(After(h, Cancelling, ceiling), events, ceiling);
  }

  /** Nobody is handed a run that is to be cancelled. */
  lemma {:induction false} NeverLeasedAgain(h: History, events: seq<Event>, ceiling: nat)
    requires h.run.row.cancelRequested && NoRetry(events)
    ensures Run(h, events, ceiling).issued == h.issued
    decreases |events|
  {
    if events != [] {
      assert events[0] in events;
      CancelKeptByStep(h, events[0], ceiling);
      NeverLeasedAgain(After(h, events[0], ceiling), events[1..], ceiling);
    }
  }

  // ---- a report before the acknowledgement -----------------------------------------

  /**
   * An ownership nobody acknowledged, past its deadline, is requeued by the
   * scanner exactly when no report of it was accepted as news: such a report
   * moves the run out of the scanner's reach.
   */
  lemma ExpiryRequeuesIffUnheard(h: History, now: int, ceiling: nat)
    requires Inv(h, ceiling) && Held(h) && Holder(h) !in h.acked
    requires h.run.row.ackDeadline.Some? && h.run.row.ackDeadline.value < now
    ensures EffectOf(h.run, AckExpiring(now), ceiling).outcome == Done <==> Holder(h) !in h.heard
  {}

  ghost predicate AnyRefused(h: History, events: seq<Event>, ceiling: nat)
    decreases |events|
  {
    events != [] && (Refuses(h, events[0]) || AnyRefused(After(h, events[0], ceiling), events[1..], ceiling))
  }

  /**
   * Once heard, an ownership keeps the run whether it acknowledged it or not: it
   * is never queued or leased again until its holder refuses it or an operator
   * retries it.
   */
  lemma {:induction false} HeardKeepsTheRun(h: History, events: seq<Event>, ceiling: nat)
    requires Inv(h, ceiling) && AllLegal(h, events, ceiling) && ceiling >= 1
    requires Held(h) && Holder(h) in h.heard && NoRetry(events) && !AnyRefused(h, events, ceiling)
    ensures Pinned(Run(h, events, ceiling), Holder(h)) && Run(h, events, ceiling).issued == h.issued
    decreases |events|
  {
    if events != [] {
      var next := After(h, events[0], ceiling);
      StepKeepsInv(h, events[0], ceiling);
      assert events[0] in events;
      PinnedStep(h, Holder(h), events[0], ceiling);
      HeardKeepsTheRun(next, events[1..], ceiling);
    }
  }
}
