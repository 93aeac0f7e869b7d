// The ownership and report protocol of one run: what every operation keeps.
//
// A History is the run with what happened to it: which (cluster, epoch) pairs it
// was handed out to, which of them had an acknowledgement accepted or a report that was news,
// what phase the current one inherited, and the first report charged for each
// attempt. The invariant below holds in every state reached
// from admission by any interleaving of the store's operations.
module Protocol {
  import opened Wrappers
  import opened Phases
  import opened Report
  import opened Ledger
  import opened RunSteps

  /** One ownership: a cluster and the epoch it was leased the run under. */
  datatype Holding = Holding(cluster: ClusterId, epoch: nat)

  datatype Event =
    | Leasing(cluster: ClusterId, now: int, ackTimeout: int, ttl: int)
    | Acking(holder: Holding, now: int, ttl: int)
    | Rejecting(holder: Holding, code: string, message: Option<string>, eligible: seq<ClusterId>)
    | AckExpiring(now: int)
    | LeaseExpiring(now: int)
    | LosingSight(reason: Reason)
    | Observing(cluster: ClusterId, obs: Observation, now: int, ttl: int)
    | Completing(sender: Option<ClusterId>, epoch: nat, attempt: nat, report: CompletionReport)
    | Cancelling
    | Retrying(eligible: seq<ClusterId>)
    | Placing(eligible: seq<ClusterId>)

  datatype History = History(
    run: Run, issued: seq<Holding>, acked: set<Holding>, heard: set<Holding>, inherited: Option<Phase>,
    charged: map<Key, Usage>)

  ghost function EffectOf(run: Run, event: Event, ceiling: nat): Effect {
    match event
    case Leasing(c, now, ackTimeout, ttl) => Lease(run, c, now, ackTimeout, ttl)
    case Acking(h, now, ttl) => Ack(run, h.cluster, h.epoch, now, ttl)
    case Rejecting(h, code, message, eligible) => RunSteps.Reject(run, h.cluster, h.epoch, code, message, eligible)
    case AckExpiring(now) => ExpireAck(run, ceiling, now)
    case LeaseExpiring(now) => ExpireLease(run, now)
    case LosingSight(reason) => MarkUnknown(run, reason)
    case Observing(c, obs, now, ttl) => Observe(run, c, obs, now, ttl)
    case Completing(c, epoch, attempt, report) => Complete(run, c, epoch, attempt, report)
    case Cancelling => RequestCancel(run)
    case Retrying(eligible) => RunSteps.Retry(run, eligible)
    case Placing(eligible) => Place(run, eligible)
  }

  /** A report that says more than the row does; a repeat of what the row says is accepted and changes little. */
  predicate IsNews(h: History, event: Event)
    requires event.Observing?
  {
    Apply(h.run.row.State(), event.obs, event.cluster).verdict == Advance
  }

  ghost function After(h: History, event: Event, ceiling: nat): History {
    var effect := EffectOf(h.run, event, ceiling);
    var epoch := h.run.row.epoch;
    History(
      effect.run,
      if event.Leasing? && effect.outcome == Done then h.issued + [Holding(event.cluster, epoch)] else h.issued,
      if event.Acking? && effect.outcome == Done then h.acked + {event.holder} else h.acked,
      if event.Observing? && effect.outcome == Done && IsNews(h, event)
      then h.heard + {Holding(event.cluster, event.obs.epoch)} else h.heard,
      if event.Leasing? && effect.outcome == Done then h.run.row.phase else h.inherited,
      if event.Completing? && event.epoch == epoch && Key(epoch, event.attempt) !in h.charged
      then h.charged[Key(epoch, event.attempt) := event.report.usage] else h.charged)
  }

  ghost function Start(cluster: Option<ClusterId>): History {
    History(Admitted(cluster), [], {}, {}, None, map[])
  }

  // ---- what the environment promises -----------------------------------------

  /** Clusters send only epochs they were leased; attempts are counted from one. */
  predicate SendsOwnEpoch(h: History, event: Event) {
    match event
    case Acking(holder, _, _) => holder in h.issued
    case Rejecting(holder, _, _, _) => holder in h.issued
    case Observing(c, obs, _, _) => Holding(c, obs.epoch) in h.issued && obs.attempt >= 1
    case Completing(c, epoch, attempt, _) =>
      attempt >= 1 && exists i | 0 <= i < |h.issued| ::
        h.issued[i].epoch == epoch && (c.Some? ==> c.value == h.issued[i].cluster)
    case _ => true
  }

  /** The holder's refusal, under the epoch it holds: the one that takes effect. */
  predicate Refuses(h: History, event: Event) {
    event.Rejecting? && CheckOwnership(h.run.row, event.holder.cluster, event.holder.epoch) == Done
  }

  /** A refusal that takes effect on a lease its holder had acknowledged. */
  predicate RefusesLate(h: History, event: Event) { Refuses(h, event) && event.holder in h.acked }

  // ---- the invariant -----------------------------------------------------------

  /** The run's current epoch has been handed out, to the last holder. */
  predicate Held(h: History) {
    h.issued != [] && h.issued[|h.issued| - 1].epoch == h.run.row.epoch
  }

  function Holder(h: History): Holding
    requires Held(h)
  {
    h.issued[|h.issued| - 1]
  }

  predicate Fenced(h: History) {
    && h.run.row.epoch >= 1
    && (forall i, j | 0 <= i < j < |h.issued| :: h.issued[i].epoch < h.issued[j].epoch)
    && (forall i | 0 <= i < |h.issued| :: h.issued[i].epoch <= h.run.row.epoch)
    && (Held(h) ==> h.run.row.cluster == Some(Holder(h).cluster))
    && (forall a | a in h.acked + h.heard :: a in h.issued)
  }

  predicate Lifecycle(h: History, ceiling: nat) {
    var row := h.run.row;
    && row.attempt >= 1 && (!Held(h) ==> row.attempt == 1)
    && (row.status == Queued ==> !Held(h) && row.ackDeadline == None && row.leaseDeadline == None)
    && (row.status == Leased ==> row.attempt == 1 && row.ackDeadline.Some?)
    && (row.status in {Leased, Unknown} || row.status.IsLive() ==> Held(h))
    && (row.status == Queued || Held(h) ==> row.ackExpiries < ceiling)
    && row.status != CompletedWithoutResult
    && (Held(h) ==> (row.status == Leased <==> Holder(h) !in h.acked + h.heard))
    && (row.phase.Some? ==> RankOf(row.phase) > 0)
    && (row.status.IsTerminal() && Held(h) ==> row.phase.Some? && Some(row.status) == StoredStatus(row.phase.value))
  }

  /** Under an ownership that inherited no phase the status says what the phase says, or Unknown. */
  predicate FollowsPhase(h: History) {
    var row := h.run.row;
    Held(h) && h.inherited.None? ==>
      && (row.status == Leased ==> row.phase.None?)
      && (row.status == Unknown ==> !Ended(row.phase))
      && (row.phase.Some? && row.status != Unknown ==> Some(row.status) == StoredStatus(row.phase.value))
  }

  /** At most one row is open, and it is the row of the current attempt, which exists once leased. */
  predicate OneLiveAttempt(ledger: Attempts, current: Key, held: bool) {
    && (forall k | k in ledger :: k.attempt >= 1 && k.epoch <= current.epoch && (!held ==> k.epoch < current.epoch))
    && (forall k | k in ledger && ledger[k].open :: k == current)
    && (held ==> current in ledger)
  }

  /** The run is billed the sum of its ledger, and each attempt its first accepted report. */
  ghost predicate ChargedOnce(usage: Usage, ledger: Attempts, charged: map<Key, Usage>) {
    && usage == Total(Charges(ledger))
    && (forall k | k in charged :: Reported(ledger, k) && ledger[k].usage == charged[k])
    && (forall k | k in ledger && k !in charged :: !Reported(ledger, k) && ledger[k].usage == NoUsage)
  }

  predicate NeverRefusedBy(h: History) {
    (h.run.row.status == Queued || Held(h)) && h.run.row.cluster.Some? ==>
      h.run.row.cluster.value !in h.run.excluded
  }

  function Current(h: History): Key { Key(h.run.row.epoch, h.run.row.attempt) }

  predicate Owned(h: History, ceiling: nat) {
    Fenced(h) && Lifecycle(h, ceiling) && FollowsPhase(h) && NeverRefusedBy(h)
  }

  ghost predicate Booked(h: History) {
    OneLiveAttempt(h.run.ledger, Current(h), Held(h)) && ChargedOnce(h.run.row.usage, h.run.ledger, h.charged)
  }

  ghost predicate Inv(h: History, ceiling: nat) {
    Owned(h, ceiling) && Booked(h)
  }

  // ---- every operation keeps it ------------------------------------------------

  lemma StartInv(cluster: Option<ClusterId>, ceiling: nat)
    requires ceiling >= 1
    ensures Inv(Start(cluster), ceiling)
  {
    assert Charges(map[]) == map[];
  }

  /** Only the current holder can have been issued the current epoch. */
  lemma IssuedNowIsHeld(h: History, holding: Holding)
    requires Fenced(h) && holding in h.issued && holding.epoch == h.run.row.epoch
    ensures Held(h) && Holder(h) == holding
  {}

  // ---- the ledger's half --------------------------------------------------------

  lemma UnbilledRow(ledger: Attempts, key: Key, entry: Entry)
    requires key !in ledger && entry.usage == NoUsage
    ensures Total(Charges(ledger[key := entry])) == Total(Charges(ledger))
  {
    TotalIgnoresZeros(Charges(ledger[key := entry]), Charges(ledger));
  }

  lemma NewRowChargesNothing(usage: Usage, ledger: Attempts, charged: map<Key, Usage>, key: Key, entry: Entry)
    requires ChargedOnce(usage, ledger, charged)
    requires key !in ledger && entry.usage == NoUsage && entry.completion == None
    ensures ChargedOnce(usage, ledger[key := entry], charged)
  {
    UnbilledRow(ledger, key, entry);
  }

  /** Rewriting rows without touching reports or charges. */
  lemma SameCharges(usage: Usage, ledger: Attempts, charged: map<Key, Usage>, next: Attempts)
    requires ChargedOnce(usage, ledger, charged) && next.Keys == ledger.Keys
    requires forall k | k in next :: next[k].usage == ledger[k].usage && next[k].completion == ledger[k].completion
    ensures ChargedOnce(usage, next, charged)
  {
    assert Charges(next) == Charges(ledger);
  }

  lemma OpeningKeeps(usage: Usage, ledger: Attempts, charged: map<Key, Usage>, epoch: nat, cluster: ClusterId)
    requires OneLiveAttempt(ledger, Key(epoch, 1), false) && ChargedOnce(usage, ledger, charged)
    ensures var next := OpenForLease(ledger, Key(epoch, 1), cluster);
      next.Some? && OneLiveAttempt(next.value, Key(epoch, 1), true) && ChargedOnce(usage, next.value, charged)
  {
    var next := OpenForLease(ledger, Key(epoch, 1), cluster).value;
    NewRowChargesNothing(usage, ledger, charged, Key(epoch, 1), next[Key(epoch, 1)]);
  }

  lemma RevokingKeeps(usage: Usage, ledger: Attempts, charged: map<Key, Usage>, current: Key, held: bool)
    requires OneLiveAttempt(ledger, current, held) && ChargedOnce(usage, ledger, charged)
    ensures OneLiveAttempt(CloseAll(ledger), Key(current.epoch + 1, 1), false)
    ensures ChargedOnce(usage, CloseAll(ledger), charged)
  {
    SameCharges(usage, ledger, charged, CloseAll(ledger));
  }

  /** An accepted observation finds its attempt's row, or the only open one gives way to it. */
  lemma UpsertKeeps(usage: Usage, ledger: Attempts, charged: map<Key, Usage>, current: Key,
                    key: Key, obs: Observation, cluster: ClusterId)
    requires OneLiveAttempt(ledger, current, true) && ChargedOnce(usage, ledger, charged)
    requires key.epoch == current.epoch && key.attempt >= current.attempt >= 1
    ensures var next := UpsertAttempt(ledger, key, obs, cluster);
      next.Some? && OneLiveAttempt(next.value, key, true) && ChargedOnce(usage, next.value, charged)
  {
    var closed := CloseSuperseded(ledger, key);
    SameCharges(usage, ledger, charged, closed);
    assert forall k | k in closed && closed[k].open :: k == key;
    var next := UpsertAttempt(ledger, key, obs, cluster).value;
    if key in closed {
      SameCharges(usage, closed, charged, next);
    } else {
      NewRowChargesNothing(usage, closed, charged, key, next[key]);
    }
  }

  lemma RecordingKeeps(ledger: Attempts, charged: map<Key, Usage>, current: Key, usage: Usage,
                       key: Key, report: CompletionReport, cluster: ClusterId)
    requires OneLiveAttempt(ledger, current, true) && ChargedOnce(usage, ledger, charged)
    requires key.epoch == current.epoch && key.attempt >= 1 && !Reported(ledger, key)
    ensures var next := RecordCompletion(ledger, key, report, cluster);
      && OneLiveAttempt(next, current, true)
      && ChargedOnce(Total(Charges(next)), next, charged[key := report.usage])
  {}

  // ---- every operation keeps it ------------------------------------------------

  lemma LeasingKeeps(h: History, event: Event, ceiling: nat)
    requires Inv(h, ceiling) && event.Leasing?
    ensures Inv(After(h, event, ceiling), ceiling)
    ensures EffectOf(h.run, event, ceiling).outcome == (if Leasable(h.run.row, event.cluster) then Done else NotDue)
  {
    if Leasable(h.run.row, event.cluster) {
      LeasingBooked(h, event, ceiling);
      LeasingOwned(h, event, ceiling);
    }
  }

  lemma LeasingOwned(h: History, event: Event, ceiling: nat)
    requires Owned(h, ceiling) && event.Leasing? && Leasable(h.run.row, event.cluster)
    requires EffectOf(h.run, event, ceiling).outcome == Done
    ensures Owned(After(h, event, ceiling), ceiling)
  {
    LeasingFenced(h, event, ceiling);
    LeasingLives(h, After(h, event, ceiling), ceiling);
  }

  lemma LeasingFenced(h: History, event: Event, ceiling: nat)
    requires Fenced(h) && !Held(h) && event.Leasing? && Leasable(h.run.row, event.cluster)
    requires EffectOf(h.run, event, ceiling).outcome == Done
    ensures var next := After(h, event, ceiling);
      && Fenced(next) && Held(next) && Holder(next) == Holding(event.cluster, h.run.row.epoch)
      && Holder(next) !in next.acked + next.heard
      && next.acked == h.acked && next.heard == h.heard && next.inherited == next.run.row.phase == h.run.row.phase
      && next.run.row.status == Leased && next.run.row.attempt == 1 && next.run.row.ackDeadline.Some?
      && next.run.row.ackExpiries == h.run.row.ackExpiries && next.run.row.cluster == h.run.row.cluster
      && next.run.excluded == h.run.excluded
  {
    NobodyHeard(h, After(h, event, ceiling), Holding(event.cluster, h.run.row.epoch));
  }

  /** An epoch nobody holds yet may be handed out. */
  lemma NobodyHeard(h: History, next: History, holding: Holding)
    requires Fenced(h) && !Held(h) && holding == Holding(holding.cluster, h.run.row.epoch)
    requires next.issued == h.issued + [holding] && next.acked == h.acked && next.heard == h.heard
    requires next.run.row.epoch == h.run.row.epoch && next.run.row.cluster == Some(holding.cluster)
    ensures Fenced(next) && Held(next) && Holder(next) == holding && holding !in next.acked + next.heard
  {}

  /** A lease just handed out is a state of its own. */
  lemma LeasingLives(h: History, next: History, ceiling: nat)
    requires Lifecycle(h, ceiling) && NeverRefusedBy(h) && h.run.row.status == Queued && Fenced(next) && Held(next)
    requires Holder(next) !in next.acked + next.heard && next.inherited == next.run.row.phase == h.run.row.phase
    requires next.run.row.status == Leased && next.run.row.attempt == 1 && next.run.row.ackDeadline.Some?
    requires next.run.row.ackExpiries == h.run.row.ackExpiries && next.run.row.cluster == h.run.row.cluster
    requires next.run.excluded == h.run.excluded
    ensures Owned(next, ceiling)
  {}

  lemma LeasingBooked(h: History, event: Event, ceiling: nat)
    requires Booked(h) && !Held(h) && h.run.row.attempt == 1
    requires event.Leasing? && Leasable(h.run.row, event.cluster)
    ensures EffectOf(h.run, event, ceiling).outcome == Done
    ensures Booked(After(h, event, ceiling))
  {
    OpeningKeeps(h.run.row.usage, h.run.ledger, h.charged, h.run.row.epoch, event.cluster);
    var next := After(h, event, ceiling);
    assert Held(next) && Current(next) == Key(h.run.row.epoch, 1);
  }

  lemma AckingKeeps(h: History, event: Event, ceiling: nat)
    requires Inv(h, ceiling) && event.Acking? && SendsOwnEpoch(h, event)
    ensures Inv(After(h, event, ceiling), ceiling)
    ensures EffectOf(h.run, event, ceiling).outcome != LiveAttempt
  {
    AckingOwned(h, event, ceiling);
    LedgerUntouched(h, After(h, event, ceiling));
  }

  lemma AckingOwned(h: History, event: Event, ceiling: nat)
    requires Owned(h, ceiling) && event.Acking? && SendsOwnEpoch(h, event)
    ensures Owned(After(h, event, ceiling), ceiling)
  {}

  /** A step that leaves the books and the ordering key alone leaves them in order. */
  lemma LedgerUntouched(h: History, next: History)
    requires Booked(h) && next.issued == h.issued && next.charged == h.charged && next.run.ledger == h.run.ledger
    requires next.run.row.usage == h.run.row.usage && next.run.row.epoch == h.run.row.epoch
    requires next.run.row.attempt == h.run.row.attempt
    ensures Booked(next)
  {
    assert Current(next) == Current(h) && Held(next) == Held(h);
  }

  /** Whatever raises the epoch leaves the books closed and the run unheld. */
  lemma RevokedBooked(h: History, next: History)
    requires Fenced(h) && Booked(h)
    requires next.issued == h.issued && next.charged == h.charged
    requires next.run.row.epoch == h.run.row.epoch + 1 && next.run.row.attempt == 1
    requires next.run.ledger == CloseAll(h.run.ledger) && next.run.row.usage == h.run.row.usage
    ensures Booked(next) && !Held(next)
  {
    RevokingKeeps(h.run.row.usage, h.run.ledger, h.charged, Current(h), Held(h));
    assert !Held(next) && Current(next) == Key(Current(h).epoch + 1, 1);
  }

  lemma RejectingKeeps(h: History, event: Event, ceiling: nat)
    requires Inv(h, ceiling) && event.Rejecting? && SendsOwnEpoch(h, event)
    ensures Inv(After(h, event, ceiling), ceiling)
    ensures EffectOf(h.run, event, ceiling).outcome != LiveAttempt
  {
    if CheckOwnership(h.run.row, event.holder.cluster, event.holder.epoch) == Done {
      RejectingBooked(h, event, ceiling);
      RejectingOwned(h, event, ceiling);
    } else {
      RejectedNot(h, event, ceiling);
    }
  }

  lemma RejectingBooked(h: History, event: Event, ceiling: nat)
    requires Fenced(h) && Booked(h)
    requires event.Rejecting? && CheckOwnership(h.run.row, event.holder.cluster, event.holder.epoch) == Done
    ensures Booked(After(h, event, ceiling)) && EffectOf(h.run, event, ceiling).outcome == Done
  {
    RejectingRevokes(h, event, ceiling);
    RevokedBooked(h, After(h, event, ceiling));
  }

  lemma RejectedNot(h: History, event: Event, ceiling: nat)
    requires event.Rejecting? && CheckOwnership(h.run.row, event.holder.cluster, event.holder.epoch) != Done
    ensures After(h, event, ceiling) == h && EffectOf(h.run, event, ceiling).outcome in {WrongEpoch, WrongHolder}
  {}

  lemma RejectingRevokes(h: History, event: Event, ceiling: nat)
    requires event.Rejecting? && CheckOwnership(h.run.row, event.holder.cluster, event.holder.epoch) == Done
    ensures var next := After(h, event, ceiling);
      && next.issued == h.issued && next.charged == h.charged
      && next.run.row.epoch == h.run.row.epoch + 1 && next.run.row.attempt == 1
      && next.run.ledger == CloseAll(h.run.ledger) && next.run.row.usage == h.run.row.usage
  {}

  lemma RejectingOwned(h: History, event: Event, ceiling: nat)
    requires Owned(h, ceiling) && event.Rejecting? && SendsOwnEpoch(h, event)
    requires CheckOwnership(h.run.row, event.holder.cluster, event.holder.epoch) == Done
    ensures Owned(After(h, event, ceiling), ceiling)
  {
    assert !Held(After(h, event, ceiling));
  }

  lemma AckExpiringKeeps(h: History, event: Event, ceiling: nat)
    requires Inv(h, ceiling) && event.AckExpiring?
    ensures Inv(After(h, event, ceiling), ceiling)
    ensures EffectOf(h.run, event, ceiling).outcome != LiveAttempt
  {
    if EffectOf(h.run, event, ceiling).outcome == Done {
      RevokedBooked(h, After(h, event, ceiling));
      AckExpiringOwned(h, event, ceiling);
    }
  }

  lemma AckExpiringOwned(h: History, event: Event, ceiling: nat)
    requires Owned(h, ceiling) && event.AckExpiring?
    ensures Owned(After(h, event, ceiling), ceiling)
  {}

  lemma RetryingKeeps(h: History, event: Event, ceiling: nat)
    requires Inv(h, ceiling) && event.Retrying? && ceiling >= 1
    ensures Inv(After(h, event, ceiling), ceiling)
    ensures EffectOf(h.run, event, ceiling).outcome != LiveAttempt
  {
    RevokedBooked(h, After(h, event, ceiling));
    RetryingOwned(h, event, ceiling);
  }

  lemma RetryingOwned(h: History, event: Event, ceiling: nat)
    requires Owned(h, ceiling) && event.Retrying? && ceiling >= 1
    ensures Owned(After(h, event, ceiling), ceiling)
  {}

  predicate IsQuiet(event: Event) {
    event.LeaseExpiring? || event.LosingSight? || event.Cancelling? || event.Placing?
  }

  lemma QuietKeeps(h: History, event: Event, ceiling: nat)
    requires Inv(h, ceiling) && IsQuiet(event)
    ensures Inv(After(h, event, ceiling), ceiling)
    ensures EffectOf(h.run, event, ceiling).outcome != LiveAttempt
  {
    QuietOwned(h, event, ceiling);
    LedgerUntouched(h, After(h, event, ceiling));
  }

  lemma QuietOwned(h: History, event: Event, ceiling: nat)
    requires Owned(h, ceiling) && IsQuiet(event)
    ensures Owned(After(h, event, ceiling), ceiling)
  {
    QuietFenced(h, event, ceiling);
    QuietLives(h, event, ceiling);
  }

  lemma QuietFenced(h: History, event: Event, ceiling: nat)
    requires Fenced(h) && Lifecycle(h, ceiling) && NeverRefusedBy(h) && IsQuiet(event)
    ensures Fenced(After(h, event, ceiling)) && NeverRefusedBy(After(h, event, ceiling))
  {
    QuietStays(h, event, ceiling);
    var next := After(h, event, ceiling);
    assert Held(next) == Held(h);
  }

  /** None of these moves an ownership; placing gives a waiting run its first cluster. */
  lemma QuietStays(h: History, event: Event, ceiling: nat)
    requires IsQuiet(event)
    ensures var next := After(h, event, ceiling); var row, row' := h.run.row, next.run.row;
      && next.issued == h.issued && next.acked == h.acked && next.heard == h.heard && next.run.excluded == h.run.excluded
      && row'.epoch == row.epoch && (row'.status == Queued ==> row.status == Queued)
      && (row'.cluster == row.cluster
          || (row.status == Queued && row.cluster.None? && row'.cluster.Some? && row'.cluster.value !in h.run.excluded))
  {}

  lemma QuietLives(h: History, event: Event, ceiling: nat)
    requires Lifecycle(h, ceiling) && FollowsPhase(h) && IsQuiet(event)
    ensures Lifecycle(After(h, event, ceiling), ceiling) && FollowsPhase(After(h, event, ceiling))
  {}

  lemma AcceptedIsCurrent(h: History, event: Event)
    requires Fenced(h) && event.Observing? && SendsOwnEpoch(h, event)
    requires Apply(h.run.row.State(), event.obs, event.cluster).Accepted()
    ensures event.obs.epoch == h.run.row.epoch && event.obs.attempt >= h.run.row.attempt
    ensures Held(h) && Holder(h) == Holding(event.cluster, event.obs.epoch)
    ensures StoredStatus(event.obs.phase).Some?
  {
    IssuedNowIsHeld(h, Holding(event.cluster, event.obs.epoch));
  }

  lemma ObservingKeeps(h: History, event: Event, ceiling: nat)
    requires Inv(h, ceiling) && event.Observing? && SendsOwnEpoch(h, event)
    ensures Inv(After(h, event, ceiling), ceiling)
    ensures EffectOf(h.run, event, ceiling).outcome != LiveAttempt
  {
    if Apply(h.run.row.State(), event.obs, event.cluster).Accepted() {
      AcceptedIsCurrent(h, event);
      ObservingBooked(h, event, ceiling);
      ObservingOwned(h, event, ceiling);
    }
  }

  /** What an accepted observation leaves on the row. */
  lemma ObservedRow(run: Run, caller: ClusterId, obs: Observation, now: int, ttl: int)
    requires Apply(run.row.State(), obs, caller).Accepted()
    requires UpsertAttempt(run.ledger, Key(run.row.epoch, obs.attempt), obs, caller).Some?
    ensures var effect := Observe(run, caller, obs, now, ttl); var row := effect.run.row;
      && effect.outcome == Done && effect.run.excluded == run.excluded
      && effect.run.ledger == UpsertAttempt(run.ledger, Key(run.row.epoch, obs.attempt), obs, caller).value
      && row.epoch == run.row.epoch && row.cancelRequested == run.row.cancelRequested
      && row.ackDeadline == run.row.ackDeadline && row.ackExpiries == run.row.ackExpiries
      && row.attempt == obs.attempt && row.phase == Some(obs.phase)
      && (run.row.cluster.Some? ==> row.cluster == run.row.cluster)
      && (if Apply(run.row.State(), obs, caller).verdict == Advance || run.row.status == Unknown
          then Some(row.status) == StoredStatus(obs.phase)
          else run.row.State() == row.State() && run.row.status == row.status)
      && (row.usage == run.row.usage || row.usage == Total(Charges(effect.run.ledger)))
  {
    var row := if Apply(run.row.State(), obs, caller).verdict == Repeat then ClearUnknown(run.row, obs)
               else WriteObservation(run.row, obs, caller);
    assert row.attempt == obs.attempt && row.phase == Some(obs.phase);
  }

  lemma ObservingOwned(h: History, event: Event, ceiling: nat)
    requires Owned(h, ceiling) && event.Observing? && SendsOwnEpoch(h, event)
    requires Apply(h.run.row.State(), event.obs, event.cluster).Accepted()
    requires UpsertAttempt(h.run.ledger, Key(h.run.row.epoch, event.obs.attempt), event.obs, event.cluster).Some?
    ensures Owned(After(h, event, ceiling), ceiling)
  {
    AcceptedIsCurrent(h, event);
    ObservedRow(h.run, event.cluster, event.obs, event.now, event.ttl);
    var next := After(h, event, ceiling);
    assert next.run == Observe(h.run, event.cluster, event.obs, event.now, event.ttl).run;
    assert Held(next) && Holder(next) == Holder(h) == Holding(event.cluster, event.obs.epoch);
    var row := next.run.row;
    if IsNews(h, event) || h.run.row.status == Unknown {
      assert Some(row.status) == StoredStatus(event.obs.phase) && Holder(next) in next.acked + next.heard;
    } else {
      assert row.State() == h.run.row.State() && row.status == h.run.row.status && next.heard == h.heard;
    }
  }

  lemma ObservingBooked(h: History, event: Event, ceiling: nat)
    requires Booked(h) && Held(h) && event.Observing? && h.run.row.attempt >= 1
    requires event.obs.epoch == h.run.row.epoch && event.obs.attempt >= h.run.row.attempt
    requires Apply(h.run.row.State(), event.obs, event.cluster).Accepted()
    ensures UpsertAttempt(h.run.ledger, Key(h.run.row.epoch, event.obs.attempt), event.obs, event.cluster).Some?
    ensures EffectOf(h.run, event, ceiling).outcome == Done
    ensures Booked(After(h, event, ceiling))
  {
    var key := Key(h.run.row.epoch, event.obs.attempt);
    UpsertKeeps(h.run.row.usage, h.run.ledger, h.charged, Current(h), key, event.obs, event.cluster);
    ObservedRow(h.run, event.cluster, event.obs, event.now, event.ttl);
    BookedOnce(After(h, event, ceiling), key, h.run.row.usage);
  }

  lemma BookedOnce(h: History, current: Key, usage: Usage)
    requires Held(h) && Current(h) == current
    requires OneLiveAttempt(h.run.ledger, current, true) && ChargedOnce(usage, h.run.ledger, h.charged)
    requires h.run.row.usage == usage || h.run.row.usage == Total(Charges(h.run.ledger))
    ensures Booked(h)
  {}

  lemma CompletingKeeps(h: History, event: Event, ceiling: nat)
    requires Inv(h, ceiling) && event.Completing? && SendsOwnEpoch(h, event)
    ensures Inv(After(h, event, ceiling), ceiling)
    ensures EffectOf(h.run, event, ceiling).outcome != LiveAttempt
  {
    if event.epoch == h.run.row.epoch {
      var i :| 0 <= i < |h.issued| && h.issued[i].epoch == event.epoch;
      IssuedNowIsHeld(h, h.issued[i]);
      if Reported(h.run.ledger, Key(event.epoch, event.attempt)) {
        assert After(h, event, ceiling) == h;
      } else {
        CompletingBooked(h, event, ceiling);
        CompletingOwned(h, event, ceiling);
      }
    } else {
      assert After(h, event, ceiling) == h;
    }
  }

  lemma CompletingOwned(h: History, event: Event, ceiling: nat)
    requires Owned(h, ceiling) && event.Completing?
    ensures Owned(After(h, event, ceiling), ceiling)
  {
    var row := After(h, event, ceiling).run.row;
    assert row.State() == h.run.row.State() && row.status == h.run.row.status;
    assert row.ackDeadline == h.run.row.ackDeadline && row.leaseDeadline == h.run.row.leaseDeadline;
    assert row.ackExpiries == h.run.row.ackExpiries;
  }

  lemma CompletingBooked(h: History, event: Event, ceiling: nat)
    requires Booked(h) && Held(h) && h.run.row.cluster.Some?
    requires event.Completing? && event.epoch == h.run.row.epoch && event.attempt >= 1
    requires !Reported(h.run.ledger, Key(event.epoch, event.attempt))
    ensures Booked(After(h, event, ceiling))
  {
    var key := Key(event.epoch, event.attempt);
    assert key !in h.charged;
    RecordingKeeps(h.run.ledger, h.charged, Current(h), h.run.row.usage, key, event.report,
                   event.sender.Or(h.run.row.cluster).value);
    CompletedBooks(h.run, event.sender, event.epoch, event.attempt, event.report);
    BookedOnce(After(h, event, ceiling), Current(h), Total(Charges(After(h, event, ceiling).run.ledger)));
  }

  lemma CompletedBooks(run: Run, sender: Option<ClusterId>, epoch: nat, attempt: nat, report: CompletionReport)
    requires epoch == run.row.epoch && !Reported(run.ledger, Key(epoch, attempt)) && run.row.cluster.Some?
    ensures var next := Complete(run, sender, epoch, attempt, report).run;
      && next.ledger == RecordCompletion(run.ledger, Key(epoch, attempt), report, sender.Or(run.row.cluster).value)
      && next.row.usage == Total(Charges(next.ledger))
      && next.row.epoch == run.row.epoch && next.row.attempt == run.row.attempt
  {}

  /** A report that moves the run, or finds it again. */
  predicate IsNewsOrFound(h: History, event: Event)
    requires event.Observing?
  {
    Apply(h.run.row.State(), event.obs, event.cluster).Accepted() && (IsNews(h, event) || h.run.row.status == Unknown)
  }

  predicate KeptByReport(h: History, event: Event, next: History) {
    var row, row' := h.run.row, next.run.row;
    && next.issued == h.issued && next.acked == h.acked && next.run.excluded == h.run.excluded
    && row'.epoch == row.epoch && row'.cluster == row.cluster && row'.cancelRequested == row.cancelRequested
    && row'.ackExpiries == row.ackExpiries
    && (if event.Observing? && Held(h) && IsNewsOrFound(h, event)
        then row'.attempt == event.obs.attempt && row'.phase == Some(event.obs.phase)
             && Some(row'.status) == StoredStatus(event.obs.phase)
        else row'.State() == row.State() && row'.status == row.status)
  }

  /** An observation or a completion changes nothing of a run's ownership but its attempt and phase. */
  lemma ReportsKeepOwnership(h: History, event: Event, ceiling: nat)
    requires Inv(h, ceiling) && (event.Observing? || event.Completing?) && SendsOwnEpoch(h, event)
    ensures KeptByReport(h, event, After(h, event, ceiling))
  {
    if event.Observing? {
      if Apply(h.run.row.State(), event.obs, event.cluster).Accepted() {
        AcceptedIsCurrent(h, event);
        ObservingBooked(h, event, ceiling);
        ObservedRow(h.run, event.cluster, event.obs, event.now, event.ttl);
      }
    } else {
      CompletedRow(h.run, event.sender, event.epoch, event.attempt, event.report);
    }
  }

  lemma CompletedRow(run: Run, sender: Option<ClusterId>, epoch: nat, attempt: nat, report: CompletionReport)
    ensures var next := Complete(run, sender, epoch, attempt, report).run;
      && next.excluded == run.excluded && next.row.State() == run.row.State()
      && next.row.status == run.row.status && next.row.ackExpiries == run.row.ackExpiries
      && next.row.cancelRequested == run.row.cancelRequested
  {}

  /** Every operation of the store, on every run it can meet, keeps the invariant. */
  lemma StepKeepsInv(h: History, event: Event, ceiling: nat)
    requires Inv(h, ceiling) && SendsOwnEpoch(h, event) && ceiling >= 1
    ensures Inv(After(h, event, ceiling), ceiling)
    ensures EffectOf(h.run, event, ceiling).outcome != LiveAttempt
  {
    match event
    case Leasing(_, _, _, _) => LeasingKeeps(h, event, ceiling);
    case Acking(_, _, _) => AckingKeeps(h, event, ceiling);
    case Rejecting(_, _, _, _) => RejectingKeeps(h, event, ceiling);
    case AckExpiring(_) => AckExpiringKeeps(h, event, ceiling);
    case Observing(_, _, _, _) => ObservingKeeps(h, event, ceiling);
    case Completing(_, _, _, _) => CompletingKeeps(h, event, ceiling);
    case Retrying(_) => RetryingKeeps(h, event, ceiling);
    case _ => QuietKeeps(h, event, ceiling);
  }
}
