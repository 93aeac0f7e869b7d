// The backend, every cluster's controller, and the network between them.
//
// Messages may be lost, repeated and reordered without limit: whatever was sent
// stays available for delivery and need never be delivered. Lease answers are
// the exception, each is received at most once. An acknowledgement's answer
// reaches the AgentRun of the epoch it was for.
//
// A lease in hand is materialised, or refused; what was materialised is then
// acknowledged, or, by a check that comes after, deleted and refused, and may be
// reconciled and reported in between. A controller that dies with a lease in
// hand comes back to whatever it left, and acknowledges that.
module System {
  import opened Numbers
  import opened Wrappers
  import opened Phases
  import opened Report
  import opened RunSteps
  import opened Protocol
  import Traces
  import Controller
  import opened Attempts

  datatype Arrival = Arrival(from: Holding, obs: Observation)

  datatype World = World(
    h: History,                     // the backend's row, and what happened to it
    offers: set<Holding>,           // lease answers on their way
    handling: set<Holding>,         // leases materialised and not yet answered
    logs: map<Holding, Log>,        // the AgentRun an ownership became, over its whole life
    present: map<ClusterId, nat>,   // the epoch of the AgentRun a cluster holds now
    acks: set<Holding>,             // acknowledgements sent
    refusals: set<Holding>,         // negative acknowledgements sent
    left: set<Holding>,             // refused, and their AgentRun left behind
    confirms: set<Holding>,         // acknowledgements the backend accepted
    arrived: set<Arrival>)          // reports delivered

  datatype Move =
    | Inside(event: Event)
    | AckArrives(to: Holding, now: int, ttl: int)
    | RefusalArrives(to: Holding, code: string, message: Option<string>, eligible: seq<ClusterId>)
    | ReportArrives(to: Holding, obs: Observation, now: int, ttl: int)
    | Materialising(to: Holding, maxInfraRetries: Option<int>, agentTtl: Option<int>, now: int)
    | Superseding(to: Holding, now: int)
    | Refusing(to: Holding)
    | RefusingMaterialised(to: Holding, deleted: bool, now: int)
    | SendingAck(to: Holding)
    | Dying(to: Holding)
    | Resuming(to: Holding)
    | ConfirmArrives(to: Holding)
    | Living(to: Holding, step: Attempts.Step)
    | Vanishing(cluster: ClusterId)

  /** The backend's own events: everything no controller message carries. */
  predicate IsInside(event: Event) {
    !event.Acking? && !event.Rejecting? && !event.Observing?
  }

  predicate Holds(w: World, k: Holding) {
    k in w.logs && k.cluster in w.present && w.present[k.cluster] == k.epoch
  }

  /** What a restarted lease loop acknowledges again. */
  predicate Resumes(cr: Controller.Cr) {
    !cr.acknowledged && !cr.abandoned && cr.deletedAt.None? && !cr.status.Ended()
  }

  predicate Enabled(w: World, move: Move) {
    match move
    case Inside(event) => IsInside(event) && SendsOwnEpoch(w.h, event)
    case AckArrives(k, _, _) => k in w.acks
    case RefusalArrives(k, _, _, _) => k in w.refusals
    case ReportArrives(k, obs, _, _) => k in w.logs && obs in w.logs[k].sent
    case Materialising(k, _, _, _) => k in w.offers && k.cluster !in w.present
    case Superseding(k, _) => k in w.offers && k.cluster in w.present && w.present[k.cluster] < k.epoch
                              && Holding(k.cluster, w.present[k.cluster]) in w.logs
    case Refusing(k) => k in w.offers
    case RefusingMaterialised(k, _, _) => k in w.handling && k in w.logs
    case SendingAck(k) => k in w.handling
    case Dying(k) => k in w.handling
    case Resuming(k) => Holds(w, k) && k !in w.handling && Resumes(w.logs[k].cr)
    case ConfirmArrives(k) => k in w.confirms && Holds(w, k)
    case Living(k, step) => Holds(w, k) && !step.Confirming?
    case Vanishing(c) => true
  }

  /** What a move means to the backend's row, if anything. */
  function EventOf(move: Move): Option<Event> {
    match move
    case Inside(event) => Some(event)
    case AckArrives(k, now, ttl) => Some(Acking(k, now, ttl))
    case RefusalArrives(k, code, message, eligible) => Some(Rejecting(k, code, message, eligible))
    case ReportArrives(k, obs, now, ttl) => Some(Observing(k.cluster, obs, now, ttl))
    case _ => None
  }

  ghost function Backend(h: History, move: Move, ceiling: nat): History {
    if EventOf(move).Some? then Protocol.After(h, EventOf(move).value, ceiling) else h
  }

  ghost function Next(w: World, move: Move, config: Controller.Config, ceiling: nat): World
    requires Enabled(w, move)
  {
    var h := Backend(w.h, move, ceiling);
    match move
    case Inside(event) => w.(h := h, offers := w.offers + set k | k in h.issued && k !in w.h.issued)
    case AckArrives(k, _, _) => w.(h := h, confirms := w.confirms + h.acked * {k})
    case RefusalArrives(_, _, _, _) => w.(h := h)
    case ReportArrives(k, obs, _, _) => w.(h := h, arrived := w.arrived + {Arrival(k, obs)})
    case Materialising(k, max, agentTtl, now) =>
      w.(offers := w.offers - {k}, handling := w.handling + {k},
         logs := w.logs[k := Born(k.epoch, max, agentTtl, now)], present := w.present[k.cluster := k.epoch])
    case Superseding(k, now) =>
      var superseded := Holding(k.cluster, w.present[k.cluster]);
      w.(offers := w.offers - {k},
         logs := w.logs[superseded := w.logs[superseded].(cr := Controller.DeleteRun(w.logs[superseded].cr, now))])
    case Refusing(k) => w.(offers := w.offers - {k}, refusals := w.refusals + {k})
    case RefusingMaterialised(k, deleted, now) =>
      if !deleted then w.(handling := w.handling - {k}, refusals := w.refusals + {k}, left := w.left + {k})
      else w.(handling := w.handling - {k}, refusals := w.refusals + {k},
         logs := w.logs[k := w.logs[k].(cr := Controller.DeleteRun(w.logs[k].cr, now))])
    case SendingAck(k) => w.(handling := w.handling - {k}, acks := w.acks + {k})
    case Dying(k) => w.(handling := w.handling - {k})
    case Resuming(k) => w.(acks := w.acks + {k})
    case ConfirmArrives(k) => w.(logs := w.logs[k := Attempts.After(w.logs[k], Confirming, config)])
    case Living(k, step) => w.(logs := w.logs[k := Attempts.After(w.logs[k], step, config)])
    case Vanishing(c) => w.(present := w.present - {c})
  }

  ghost predicate AllEnabled(w: World, moves: seq<Move>, config: Controller.Config, ceiling: nat)
    decreases |moves|
  {
    moves != [] ==> Enabled(w, moves[0]) && AllEnabled(Next(w, moves[0], config, ceiling), moves[1..], config, ceiling)
  }

  ghost function Unfold(w: World, moves: seq<Move>, config: Controller.Config, ceiling: nat): World
    requires AllEnabled(w, moves, config, ceiling)
    decreases |moves|
  {
    if moves == [] then w else Unfold(Next(w, moves[0], config, ceiling), moves[1..], config, ceiling)
  }

  ghost function Beginning(cluster: Option<ClusterId>): World {
    World(Start(cluster), {}, {}, map[], map[], {}, {}, {}, {}, {})
  }

  // ---- the invariant ------------------------------------------------------------------

  /**
   * Every message goes back to a lease, and a lease was acknowledged or refused,
   * never both, unless its AgentRun was left behind by the refusal.
   */
  predicate Wired(w: World) {
    && (forall k | k in w.offers :: k in w.h.issued && k !in w.logs && k !in w.refusals)
    && (forall k | k in w.logs :: k in w.h.issued)
    && (forall k | k in w.refusals :: k in w.h.issued && k !in w.handling && (k in w.left || k !in w.acks))
    && (forall k | k in w.refusals && k in w.logs :: k in w.left || w.logs[k].cr.deletedAt.Some?)
    && (forall k | k in w.handling :: k in w.logs && k !in w.acks)
    && w.confirms <= w.h.acked && w.h.acked <= w.acks && w.acks <= w.logs.Keys
  }

  predicate Tracked(log: Log, k: Holding, confirms: set<Holding>) {
    Sound(log) && log.cr.epoch == k.epoch && (log.cr.acknowledged ==> k in confirms)
  }

  predicate Lives(w: World) {
    forall k | k in w.logs :: Tracked(w.logs[k], k, w.confirms)
  }

  predicate Sent(w: World) {
    forall a | a in w.arrived :: a.from in w.logs && a.obs in w.logs[a.from].sent
  }

  function Inherits(phase: Option<Phase>): Position { Position(1, RankOf(phase)) }

  /**
   * The row stands at the furthest of the phase the ownership inherited and the
   * reports that arrived from its holder, and in the phase that got it there.
   */
  predicate Agrees(row: Row, holder: Holding, inherited: Option<Phase>, arrived: set<Arrival>) {
    && (forall a | a in arrived && a.from == holder :: At(a.obs).AtMost(Stands(row.State())))
    && Inherits(inherited).AtMost(Stands(row.State()))
    && (Inherits(inherited) == Stands(row.State()) ==> row.phase == inherited)
    && (Inherits(inherited) != Stands(row.State()) ==>
          exists a | a in arrived :: a.from == holder && At(a.obs) == Stands(row.State()) && Some(a.obs.phase) == row.phase)
  }

  predicate Agreed(w: World) {
    Held(w.h) ==> Agrees(w.h.run.row, Holder(w.h), w.h.inherited, w.arrived)
  }

  predicate Connected(w: World) {
    Wired(w) && Lives(w) && Sent(w) && Agreed(w)
  }

  ghost predicate WorldInv(w: World, ceiling: nat) {
    Inv(w.h, ceiling) && Connected(w)
  }

  // ---- what the network cannot do -------------------------------------------------------

  /**
   * A refusal takes effect on an acknowledged lease only if it left its AgentRun
   * behind, for a restart to find and acknowledge: the controller that sent it
   * acknowledged nothing before, and deletes what it would resume.
   */
  lemma RefusalsAreNotLate(w: World, move: Move, ceiling: nat)
    requires WorldInv(w, ceiling) && move.RefusalArrives? && Enabled(w, move)
    ensures RefusesLate(w.h, EventOf(move).value) ==> move.to in w.left
  {}

  lemma MovesAreLegal(w: World, move: Move, ceiling: nat)
    requires WorldInv(w, ceiling) && Enabled(w, move)
    ensures EventOf(move).Some? ==> SendsOwnEpoch(w.h, EventOf(move).value)
  {
    if move.ReportArrives? {
      assert Tracked(w.logs[move.to], move.to, w.confirms);
      assert Behind(move.obs, w.logs[move.to].cr);
    }
  }

  // ---- every move keeps it ----------------------------------------------------------------

  /** A backend event of its own leaves the ownership as it was, ends it, or starts a new one. */
  lemma InsideMovesOwnership(h: History, event: Event, ceiling: nat)
    requires Inv(h, ceiling) && IsInside(event) && SendsOwnEpoch(h, event)
    ensures var next := Protocol.After(h, event, ceiling);
      && next.acked == h.acked
      && (next.issued == h.issued || (next.issued == h.issued + [Holding(event.cluster, h.run.row.epoch)] && !Held(h)))
      && (Held(next) && next.issued == h.issued ==> Held(h) && next.run.row.State() == h.run.row.State())
      && (next.issued == h.issued ==> next.inherited == h.inherited)
      && (next.issued != h.issued ==> next.run.row.phase == next.inherited && next.run.row.attempt == 1)
  {
    if event.Completing? {
      CompletedRow(h.run, event.sender, event.epoch, event.attempt, event.report);
    } else if event.Leasing? {
      LeasingMovesOwnership(h, event, ceiling);
    }
  }

  lemma LeasingMovesOwnership(h: History, event: Event, ceiling: nat)
    requires Inv(h, ceiling) && event.Leasing?
    ensures var next := Protocol.After(h, event, ceiling);
      && next.acked == h.acked
      && (if Leasable(h.run.row, event.cluster)
          then next.issued == h.issued + [Holding(event.cluster, h.run.row.epoch)] && !Held(h)
               && next.run.row.phase == next.inherited && next.run.row.attempt == 1
          else next == h)
  {
    if Leasable(h.run.row, event.cluster) { LeasingBooked(h, event, ceiling); }
  }

  /** The row changed hands or status, but no report moved it. */
  lemma RowMoved(w: World, h: History, confirms: set<Holding>)
    requires Connected(w) && h.issued == w.h.issued && h.inherited == w.h.inherited
    requires w.confirms <= confirms <= h.acked <= w.acks
    requires Held(h) ==> Held(w.h) && h.run.row.State() == w.h.run.row.State()
    ensures Connected(w.(h := h, confirms := confirms))
  {
    assert forall k | k in w.logs :: Tracked(w.logs[k], k, w.confirms) ==> Tracked(w.logs[k], k, confirms);
  }

  lemma InsideKeeps(w: World, move: Move, config: Controller.Config, ceiling: nat)
    requires WorldInv(w, ceiling) && Enabled(w, move) && move.Inside? && ceiling >= 1
    ensures WorldInv(Next(w, move, config, ceiling), ceiling)
  {
    MovesAreLegal(w, move, ceiling);
    StepKeepsInv(w.h, move.event, ceiling);
    InsideConnects(w, move, config, ceiling);
  }

  lemma InsideConnects(w: World, move: Move, config: Controller.Config, ceiling: nat)
    requires WorldInv(w, ceiling) && Enabled(w, move) && move.Inside?
    requires Fenced(Backend(w.h, move, ceiling))
    ensures Connected(Next(w, move, config, ceiling))
  {
    var h, offers := Backend(w.h, move, ceiling), Next(w, move, config, ceiling).offers;
    InsideMovesOwnership(w.h, move.event, ceiling);
    if h.issued == w.h.issued {
      assert offers == w.offers;
      RowMoved(w, h, w.confirms);
    } else {
      var holding := Holding(move.event.cluster, w.h.run.row.epoch);
      assert holding !in w.h.issued && h.issued[|w.h.issued|] == holding;
      assert offers == w.offers + {holding};
      LeaseIssued(w, h, holding);
    }
  }

  /** A new ownership has been heard of by nobody yet. */
  lemma LeaseIssued(w: World, h: History, holding: Holding)
    requires Connected(w) && h.issued == w.h.issued + [holding] && holding !in w.h.issued && h.acked == w.h.acked
    requires Held(h) ==> Holder(h) == holding && h.run.row.phase == h.inherited && h.run.row.attempt == 1
    ensures Connected(w.(h := h, offers := w.offers + {holding}))
  {}

  lemma AckArrivalKeeps(w: World, move: Move, config: Controller.Config, ceiling: nat)
    requires WorldInv(w, ceiling) && Enabled(w, move) && move.AckArrives? && ceiling >= 1
    ensures WorldInv(Next(w, move, config, ceiling), ceiling)
  {
    MovesAreLegal(w, move, ceiling);
    StepKeepsInv(w.h, EventOf(move).value, ceiling);
    AckConnects(w, move, config, ceiling);
  }

  lemma AckConnects(w: World, move: Move, config: Controller.Config, ceiling: nat)
    requires Connected(w) && Enabled(w, move) && move.AckArrives?
    ensures Connected(Next(w, move, config, ceiling))
  {
    var h := Backend(w.h, move, ceiling);
    AckIsQuiet(w.h, EventOf(move).value, ceiling);
    RowMoved(w, h, w.confirms + h.acked * {move.to});
  }

  lemma AckIsQuiet(h: History, event: Event, ceiling: nat)
    requires event.Acking?
    ensures var next := Protocol.After(h, event, ceiling);
      next.issued == h.issued && next.inherited == h.inherited && next.run.row.State() == h.run.row.State()
      && h.acked <= next.acked <= h.acked + {event.holder}
  {}

  lemma RefusalArrivalKeeps(w: World, move: Move, config: Controller.Config, ceiling: nat)
    requires WorldInv(w, ceiling) && Enabled(w, move) && move.RefusalArrives? && ceiling >= 1
    ensures WorldInv(Next(w, move, config, ceiling), ceiling)
  {
    MovesAreLegal(w, move, ceiling);
    StepKeepsInv(w.h, EventOf(move).value, ceiling);
    RefusalRevokes(w.h, EventOf(move).value, ceiling);
    RowMoved(w, Backend(w.h, move, ceiling), w.confirms);
  }

  lemma RefusalRevokes(h: History, event: Event, ceiling: nat)
    requires Fenced(h) && event.Rejecting?
    ensures var next := Protocol.After(h, event, ceiling);
      next.issued == h.issued && next.acked == h.acked && next.inherited == h.inherited
      && (Held(next) ==> next.run == h.run)
  {}

  lemma ReportArrivalKeeps(w: World, move: Move, config: Controller.Config, ceiling: nat)
    requires WorldInv(w, ceiling) && Enabled(w, move) && move.ReportArrives? && ceiling >= 1
    ensures WorldInv(Next(w, move, config, ceiling), ceiling)
  {
    var event := EventOf(move).value;
    MovesAreLegal(w, move, ceiling);
    StepKeepsInv(w.h, event, ceiling);
    ReportsKeepOwnership(w.h, event, ceiling);
    ReportOutcome(w.h, event, ceiling);
    assert Tracked(w.logs[move.to], move.to, w.confirms);
    assert Behind(move.obs, w.logs[move.to].cr);
    ReportConnects(w, Backend(w.h, move, ceiling), move.to, move.obs);
  }

  lemma ReportOutcome(h: History, event: Event, ceiling: nat)
    requires Inv(h, ceiling) && event.Observing? && SendsOwnEpoch(h, event)
    ensures var next := Protocol.After(h, event, ceiling).run.row;
      if Apply(h.run.row.State(), event.obs, event.cluster).Accepted()
      then next.attempt == event.obs.attempt && next.phase == Some(event.obs.phase)
      else next == h.run.row
  {
    if Apply(h.run.row.State(), event.obs, event.cluster).Accepted() {
      AcceptedIsCurrent(h, event);
      ObservingBooked(h, event, ceiling);
      ObservedRow(h.run, event.cluster, event.obs, event.now, event.ttl);
    }
  }

  lemma ReportConnects(w: World, h: History, k: Holding, obs: Observation)
    requires Connected(w) && Fenced(w.h) && k in w.logs && obs in w.logs[k].sent
    requires obs.epoch == k.epoch && obs.phase.Rank() > 0
    requires h.issued == w.h.issued && h.acked == w.h.acked && h.inherited == w.h.inherited
    requires h.run.row.epoch == w.h.run.row.epoch && w.h.run.row.attempt >= 1
    requires if Apply(w.h.run.row.State(), obs, k.cluster).Accepted()
             then h.run.row.attempt == obs.attempt && h.run.row.phase == Some(obs.phase)
             else h.run.row == w.h.run.row
    ensures Connected(w.(h := h, arrived := w.arrived + {Arrival(k, obs)}))
  {
    if Held(h) {
      assert Held(w.h) && Holder(h) == Holder(w.h) && k in w.h.issued;
      ReportAgrees(w.h, h, k, obs, w.arrived);
    }
  }

  /** A delivered report leaves the row at the furthest position delivered. */
  lemma ReportAgrees(h: History, next: History, k: Holding, obs: Observation, arrived: set<Arrival>)
    requires Fenced(h) && Held(h) && Agrees(h.run.row, Holder(h), h.inherited, arrived) && h.run.row.attempt >= 1
    requires k in h.issued && obs.epoch == k.epoch && obs.phase.Rank() > 0
    requires next.run.row.epoch == h.run.row.epoch
    requires if Apply(h.run.row.State(), obs, k.cluster).Accepted()
             then next.run.row.attempt == obs.attempt && next.run.row.phase == Some(obs.phase)
             else next.run.row.State() == h.run.row.State()
    ensures Agrees(next.run.row, Holder(h), h.inherited, arrived + {Arrival(k, obs)})
  {
    var all, row, row' := arrived + {Arrival(k, obs)}, h.run.row, next.run.row;
    if Apply(row.State(), obs, k.cluster).Accepted() {
      IssuedNowIsHeld(h, k);
      assert Arrival(k, obs) in all && At(obs) == Stands(row'.State());
      assert Stands(row.State()).AtMost(Stands(row'.State()));
    } else if k == Holder(h) {
      assert At(obs).AtMost(Stands(row.State()));
    }
  }

  lemma LogKeeps(w: World, k: Holding, log: Log)
    requires Connected(w) && k in w.logs && Tracked(log, k, w.confirms) && w.logs[k].sent <= log.sent
    requires w.logs[k].cr.deletedAt.Some? ==> log.cr.deletedAt.Some?
    ensures Connected(w.(logs := w.logs[k := log]))
  {}

  lemma LivingKeeps(w: World, move: Move, config: Controller.Config, ceiling: nat)
    requires WorldInv(w, ceiling) && Enabled(w, move) && (move.Living? || move.ConfirmArrives?)
    ensures WorldInv(Next(w, move, config, ceiling), ceiling)
  {
    var k, step := move.to, if move.Living? then move.step else Confirming;
    assert Tracked(w.logs[k], k, w.confirms);
    StepKeepsSound(w.logs[k], step, config);
    LifeOfOneStep(w.logs[k], step, config);
    LogKeeps(w, k, Attempts.After(w.logs[k], step, config));
  }

  lemma LifeOfOneStep(log: Log, step: Attempts.Step, config: Controller.Config)
    ensures var next := Attempts.After(log, step, config);
      && log.sent <= next.sent && next.cr.epoch == log.cr.epoch
      && (log.cr.deletedAt.Some? ==> next.cr.deletedAt.Some?)
      && (next.cr.acknowledged ==> log.cr.acknowledged || step.Confirming?)
  {
    if step.Reconciling? {
      PassKeepsSpec(log.cr, step.view, config);
      PassNeverConfirms(log.cr, step.view, config);
    }
  }

  lemma SupersedingKeeps(w: World, move: Move, config: Controller.Config, ceiling: nat)
    requires WorldInv(w, ceiling) && Enabled(w, move) && move.Superseding?
    ensures WorldInv(Next(w, move, config, ceiling), ceiling)
  {
    var k := Holding(move.to.cluster, w.present[move.to.cluster]);
    var log := w.logs[k];
    var next := log.(cr := Controller.DeleteRun(log.cr, move.now));
    assert Tracked(log, k, w.confirms);
    DeletedIsSound(log, move.now);
    LogKeeps(w, k, next);
  }

  lemma DeletedIsSound(log: Log, now: int)
    requires Sound(log)
    ensures Sound(log.(cr := Controller.DeleteRun(log.cr, now)))
  {
    assert forall o | o in log.sent :: Behind(o, log.cr) ==> Behind(o, Controller.DeleteRun(log.cr, now));
  }

  lemma MaterialisingConnects(w: World, k: Holding, log: Log)
    requires Connected(w) && k in w.offers && Tracked(log, k, w.confirms)
    ensures Connected(w.(offers := w.offers - {k}, handling := w.handling + {k}, logs := w.logs[k := log],
                         present := w.present[k.cluster := k.epoch]))
  {}

  lemma RefusingConnects(w: World, k: Holding)
    requires Connected(w) && k in w.offers
    ensures Connected(w.(offers := w.offers - {k}, refusals := w.refusals + {k}))
  {}

  /** What is deleted with its lease still unanswered may be refused. */
  lemma DeletedConnects(w: World, k: Holding)
    requires Connected(w) && k in w.handling && w.logs[k].cr.deletedAt.Some?
    ensures Connected(w.(handling := w.handling - {k}, refusals := w.refusals + {k}))
  {}

  lemma RefusingMaterialisedKeeps(w: World, k: Holding, now: int)
    requires Connected(w) && k in w.handling && k in w.logs
    ensures Connected(w.(handling := w.handling - {k}, refusals := w.refusals + {k},
                         logs := w.logs[k := w.logs[k].(cr := Controller.DeleteRun(w.logs[k].cr, now))]))
    ensures Connected(w.(handling := w.handling - {k}, refusals := w.refusals + {k}, left := w.left + {k}))
  {
    var log := w.logs[k].(cr := Controller.DeleteRun(w.logs[k].cr, now));
    assert Tracked(w.logs[k], k, w.confirms);
    DeletedIsSound(w.logs[k], now);
    LogKeeps(w, k, log);
    DeletedConnects(w.(logs := w.logs[k := log]), k);
    LeavingConnects(w, k);
  }

  lemma LeavingConnects(w: World, k: Holding)
    requires Connected(w) && k in w.handling
    ensures Connected(w.(handling := w.handling - {k}, refusals := w.refusals + {k}, left := w.left + {k}))
  {}

  lemma AnsweringConnects(w: World, k: Holding)
    requires Connected(w) && k in w.logs && (k in w.refusals ==> k in w.left)
    ensures Connected(w.(handling := w.handling - {k}, acks := w.acks + {k}))
    ensures k !in w.handling ==> Connected(w.(acks := w.acks + {k}))
  {
    if k !in w.handling { assert w.handling - {k} == w.handling; }
  }

  lemma DyingConnects(w: World, k: Holding)
    requires Connected(w)
    ensures Connected(w.(handling := w.handling - {k}))
  {}

  predicate IsDelivery(move: Move) {
    move.Materialising? || move.Refusing? || move.RefusingMaterialised? || move.SendingAck?
    || move.Dying? || move.Resuming? || move.Vanishing?
  }

  lemma DeliveryKeeps(w: World, move: Move, config: Controller.Config, ceiling: nat)
    requires WorldInv(w, ceiling) && Enabled(w, move) && IsDelivery(move)
    ensures WorldInv(Next(w, move, config, ceiling), ceiling)
  {
    DeliveryConnects(w, move, config, ceiling);
  }

  lemma DeliveryConnects(w: World, move: Move, config: Controller.Config, ceiling: nat)
    requires Connected(w) && Enabled(w, move) && IsDelivery(move)
    ensures Connected(Next(w, move, config, ceiling)) && Next(w, move, config, ceiling).h == w.h
  {
    match move
    case Materialising(k, max, agentTtl, now) => MaterialisingConnects(w, k, Born(k.epoch, max, agentTtl, now));
    case Refusing(k) => RefusingConnects(w, k);
    case RefusingMaterialised(k, _, now) => RefusingMaterialisedKeeps(w, k, now);
    case SendingAck(k) => AnsweringConnects(w, k);
    case Dying(k) => DyingConnects(w, k);
    case Resuming(k) => AnsweringConnects(w, k);
    case _ =>
  }

  lemma MoveKeeps(w: World, move: Move, config: Controller.Config, ceiling: nat)
    requires WorldInv(w, ceiling) && Enabled(w, move) && ceiling >= 1
    ensures WorldInv(Next(w, move, config, ceiling), ceiling)
  {
    match move
    case Inside(_) => InsideKeeps(w, move, config, ceiling);
    case AckArrives(_, _, _) => AckArrivalKeeps(w, move, config, ceiling);
    case RefusalArrives(_, _, _, _) => RefusalArrivalKeeps(w, move, config, ceiling);
    case ReportArrives(_, _, _, _) => ReportArrivalKeeps(w, move, config, ceiling);
    case Living(_, _) => LivingKeeps(w, move, config, ceiling);
    case ConfirmArrives(_) => LivingKeeps(w, move, config, ceiling);
    case Superseding(_, _) => SupersedingKeeps(w, move, config, ceiling);
    case _ => DeliveryKeeps(w, move, config, ceiling);
  }

  // ---- over whole runs of the system ---------------------------------------------------------

  lemma BeginningInv(cluster: Option<ClusterId>, ceiling: nat)
    requires ceiling >= 1
    ensures WorldInv(Beginning(cluster), ceiling)
  {
    StartInv(cluster, ceiling);
  }

  /** The backend's share of a run of the system. */
  function Events(moves: seq<Move>): seq<Event> {
    if moves == [] then []
    else (if EventOf(moves[0]).Some? then [EventOf(moves[0]).value] else []) + Events(moves[1..])
  }

  /** Those left behind whose refusal can still take effect. */
  function StillToRefuse(left: set<Holding>, epoch: nat): set<Holding> { set k | k in left && k.epoch >= epoch }

  /** Every reachable state keeps the invariant, and what was left behind stays known. */
  lemma {:induction false} ReachableInv(w: World, moves: seq<Move>, config: Controller.Config, ceiling: nat)
    requires WorldInv(w, ceiling) && AllEnabled(w, moves, config, ceiling) && ceiling >= 1
    ensures WorldInv(Unfold(w, moves, config, ceiling), ceiling)
    ensures w.left <= Unfold(w, moves, config, ceiling).left
    decreases |moves|
  {
    if moves != [] {
      MoveKeeps(w, moves[0], config, ceiling);
      LeftGrows(w, moves[0], config, ceiling);
      ReachableInv(Next(w, moves[0], config, ceiling), moves[1..], config, ceiling);
    }
  }

  lemma LeftGrows(w: World, move: Move, config: Controller.Config, ceiling: nat)
    requires Enabled(w, move)
    ensures w.left <= Next(w, move, config, ceiling).left
    ensures Next(w, move, config, ceiling).h == Backend(w.h, move, ceiling)
  {}

  /**
   * To the backend, a run of the system is one of the runs Traces speaks of,
   * with a late refusal at most for each AgentRun left behind.
   */
  lemma {:induction false} Projects(w: World, moves: seq<Move>, config: Controller.Config, ceiling: nat)
    requires WorldInv(w, ceiling) && AllEnabled(w, moves, config, ceiling) && ceiling >= 1
    ensures var final := Unfold(w, moves, config, ceiling);
      && Traces.AllLegal(w.h, Events(moves), ceiling)
      && Traces.Run(w.h, Events(moves), ceiling) == final.h
      && Traces.LateRefusals(w.h, Events(moves), ceiling) <= |StillToRefuse(final.left, w.h.run.row.epoch)|
    decreases |moves|
  {
    if moves != [] {
      var next := Next(w, moves[0], config, ceiling);
      MoveKeeps(w, moves[0], config, ceiling);
      Projects(next, moves[1..], config, ceiling);
      LeftGrows(w, moves[0], config, ceiling);
      ReachableInv(next, moves[1..], config, ceiling);
      ProjectsStep(w, moves, Unfold(w, moves, config, ceiling).left, ceiling);
    }
  }

  lemma ProjectsStep(w: World, moves: seq<Move>, left: set<Holding>, ceiling: nat)
    requires moves != [] && WorldInv(w, ceiling) && Enabled(w, moves[0]) && w.left <= left && ceiling >= 1
    requires Traces.AllLegal(Backend(w.h, moves[0], ceiling), Events(moves[1..]), ceiling)
    requires Traces.LateRefusals(Backend(w.h, moves[0], ceiling), Events(moves[1..]), ceiling)
          <= |StillToRefuse(left, Backend(w.h, moves[0], ceiling).run.row.epoch)|
    ensures Traces.AllLegal(w.h, Events(moves), ceiling)
    ensures Traces.LateRefusals(w.h, Events(moves), ceiling) <= |StillToRefuse(left, w.h.run.row.epoch)|
    ensures Traces.Run(w.h, Events(moves), ceiling)
         == Traces.Run(Backend(w.h, moves[0], ceiling), Events(moves[1..]), ceiling)
  {
    MovesAreLegal(w, moves[0], ceiling);
    ProjectsOne(w.h, moves, ceiling);
    FewerToRefuse(w, moves[0], left, ceiling);
  }

  /** A late refusal spends its holding: the epoch it names is over. */
  lemma FewerToRefuse(w: World, move: Move, left: set<Holding>, ceiling: nat)
    requires WorldInv(w, ceiling) && Enabled(w, move) && w.left <= left && ceiling >= 1
    ensures var before, after := w.h.run.row.epoch, Backend(w.h, move, ceiling).run.row.epoch;
      (if EventOf(move).Some? && RefusesLate(w.h, EventOf(move).value) then 1 else 0)
        + |StillToRefuse(left, after)| <= |StillToRefuse(left, before)|
  {
    EpochsRise(w, move, ceiling);
    var before, after := w.h.run.row.epoch, Backend(w.h, move, ceiling).run.row.epoch;
    if EventOf(move).Some? && RefusesLate(w.h, EventOf(move).value) {
      RefusalsAreNotLate(w, move, ceiling);
      LateRefusalRaises(w.h, EventOf(move).value, ceiling);
      SubsetSize(StillToRefuse(left, after), StillToRefuse(left, before) - {move.to});
    } else {
      SubsetSize(StillToRefuse(left, after), StillToRefuse(left, before));
    }
  }

  lemma EpochsRise(w: World, move: Move, ceiling: nat)
    requires WorldInv(w, ceiling) && Enabled(w, move)
    ensures w.h.run.row.epoch <= Backend(w.h, move, ceiling).run.row.epoch
  {
    MovesAreLegal(w, move, ceiling);
    if EventOf(move).Some? { Traces.StepMovesForward(w.h, EventOf(move).value, ceiling); }
  }

  lemma LateRefusalRaises(h: History, event: Event, ceiling: nat)
    requires RefusesLate(h, event)
    ensures event.holder.epoch == h.run.row.epoch < Protocol.After(h, event, ceiling).run.row.epoch
  {}

  lemma ProjectsOne(h: History, moves: seq<Move>, ceiling: nat)
    requires moves != [] && Traces.AllLegal(Backend(h, moves[0], ceiling), Events(moves[1..]), ceiling)
    requires EventOf(moves[0]).Some? ==> SendsOwnEpoch(h, EventOf(moves[0]).value)
    ensures Traces.AllLegal(h, Events(moves), ceiling)
    ensures Traces.LateRefusals(h, Events(moves), ceiling)
         == (if EventOf(moves[0]).Some? && RefusesLate(h, EventOf(moves[0]).value) then 1 else 0)
            + Traces.LateRefusals(Backend(h, moves[0], ceiling), Events(moves[1..]), ceiling)
    ensures Traces.Run(h, Events(moves), ceiling)
         == Traces.Run(Backend(h, moves[0], ceiling), Events(moves[1..]), ceiling)
  {
    if EventOf(moves[0]).Some? {
      assert Events(moves)[1..] == Events(moves[1..]);
    } else {
      assert Events(moves) == Events(moves[1..]);
    }
  }

  /** The ownerships whose controller ever created a Job. */
  function Executing(w: World): set<Holding> {
    set k | k in w.logs && w.logs[k].made != {}
  }

  /**
   * Single execution. Every Job any controller ever creates for the run belongs
   * to an ownership the backend confirmed, an ownership has at most one Job an
   * attempt and at most 1 + maxInfraRetries of them, and there is one such
   * ownership at most, plus one for each retry an operator asked for, and one for
   * each refusal that failed to delete its AgentRun.
   */
  lemma SingleExecution(cluster: Option<ClusterId>, moves: seq<Move>, config: Controller.Config, ceiling: nat)
    requires AllEnabled(Beginning(cluster), moves, config, ceiling) && ceiling >= 1
    ensures var w := Unfold(Beginning(cluster), moves, config, ceiling);
      && Executing(w) <= w.h.acked
      && |Executing(w)| <= |w.h.acked| <= 1 + Traces.Retries(Events(moves)) + |w.left|
      && (forall k | k in w.logs :: |w.logs[k].made| <= AttemptsAllowed(w.logs[k].cr))
  {
    BeginningInv(cluster, ceiling);
    ReachableInv(Beginning(cluster), moves, config, ceiling);
    Projects(Beginning(cluster), moves, config, ceiling);
    Traces.AcknowledgementsBounded(Start(cluster), None, Events(moves), ceiling);
    var w := Unfold(Beginning(cluster), moves, config, ceiling);
    JobsAreConfirmed(w);
    SubsetSize(Executing(w), w.h.acked);
    SubsetSize(StillToRefuse(w.left, Start(cluster).run.row.epoch), w.left);
  }

  lemma JobsAreConfirmed(w: World)
    requires Connected(w)
    ensures Executing(w) <= w.h.acked
    ensures forall k | k in w.logs :: |w.logs[k].made| <= AttemptsAllowed(w.logs[k].cr)
  {
    forall k | k in w.logs
      ensures |w.logs[k].made| <= AttemptsAllowed(w.logs[k].cr) && (w.logs[k].made != {} ==> k in w.h.acked)
    {
      assert Tracked(w.logs[k], k, w.confirms);
      CountUpTo(w.logs[k].made, w.logs[k].cr.status.attempt);
    }
  }

  /**
   * Without an operator's retry, and with every refused AgentRun deleted, one
   * cluster under one epoch runs every Job there is.
   */
  lemma OneClusterRuns(cluster: Option<ClusterId>, moves: seq<Move>, config: Controller.Config, ceiling: nat,
                       a: Holding, b: Holding)
    requires AllEnabled(Beginning(cluster), moves, config, ceiling) && ceiling >= 1
    requires Traces.NoRetry(Events(moves)) && Unfold(Beginning(cluster), moves, config, ceiling).left == {}
    requires a in Executing(Unfold(Beginning(cluster), moves, config, ceiling))
    requires b in Executing(Unfold(Beginning(cluster), moves, config, ceiling))
    ensures a == b
  {
    SingleExecution(cluster, moves, config, ceiling);
    NoRetries(Events(moves));
    if a != b {
      SubsetSize({a, b}, Executing(Unfold(Beginning(cluster), moves, config, ceiling)));
    }
  }

  lemma {:induction false} NoRetries(events: seq<Event>)
    requires Traces.NoRetry(events)
    ensures Traces.Retries(events) == 0
  {
    if events != [] {
      assert events[0] in events;
      NoRetries(events[1..]);
    }
  }

  /** The controller has told the backend where it stands, and that report got through. */
  predicate HeardLast(w: World, k: Holding) {
    && k in w.logs && w.logs[k].sent != [] && !w.logs[k].cr.abandoned
    && Arrival(k, w.logs[k].sent[|w.logs[k].sent| - 1]) in w.arrived
  }

  function Newest(w: World, k: Holding): Observation
    requires HeardLast(w, k)
  {
    w.logs[k].sent[|w.logs[k].sent| - 1]
  }

  /** The phase an ownership inherited is behind the holder's newest report, or says the same. */
  predicate InheritedIsBehind(inherited: Option<Phase>, newest: Observation) {
    Inherits(inherited).Below(At(newest)) || (Inherits(inherited) == At(newest) && inherited == Some(newest.phase))
  }

  /**
   * Controller and backend agree: in every reachable state, once the newest
   * report of the run's holder was delivered, whatever else was lost, repeated
   * or reordered, the row is at exactly the controller's attempt and phase, if
   * and only if the phase left over by an ownership refused before is not ahead
   * of it. A run that inherited no phase, or Pending, always agrees, and without
   * an inherited phase so does the status.
   */
  lemma NewestReportSettles(cluster: Option<ClusterId>, moves: seq<Move>, config: Controller.Config, ceiling: nat)
    requires AllEnabled(Beginning(cluster), moves, config, ceiling) && ceiling >= 1
    ensures var w := Unfold(Beginning(cluster), moves, config, ceiling);
      Held(w.h) && HeardLast(w, Holder(w.h)) ==>
        && (SamePlace(w.h.run.row, w.logs[Holder(w.h)].cr.status)
            <==> InheritedIsBehind(w.h.inherited, Newest(w, Holder(w.h))))
        && (w.h.inherited in {None, Some(Pending)} ==> InheritedIsBehind(w.h.inherited, Newest(w, Holder(w.h))))
        && (w.h.inherited.None? ==> Traces.StatusAgrees(w.h.run.row))
  {
    BeginningInv(cluster, ceiling);
    ReachableInv(Beginning(cluster), moves, config, ceiling);
    SettledOnceHeard(Unfold(Beginning(cluster), moves, config, ceiling), ceiling);
  }

  predicate SamePlace(row: Row, status: Controller.AgentStatus) {
    row.attempt == status.attempt && row.phase == status.phase
  }

  lemma SettledOnceHeard(w: World, ceiling: nat)
    requires WorldInv(w, ceiling)
    ensures Held(w.h) && HeardLast(w, Holder(w.h)) ==>
      && (SamePlace(w.h.run.row, w.logs[Holder(w.h)].cr.status)
          <==> InheritedIsBehind(w.h.inherited, Newest(w, Holder(w.h))))
      && (w.h.inherited in {None, Some(Pending)} ==> InheritedIsBehind(w.h.inherited, Newest(w, Holder(w.h))))
      && (w.h.inherited.None? ==> Traces.StatusAgrees(w.h.run.row))
  {
    if Held(w.h) && HeardLast(w, Holder(w.h)) {
      Settled(w);
      if w.h.inherited in {None, Some(Pending)} { NothingIsBehindPending(w); }
      StatusSettled(w.h, ceiling);
    }
  }

  lemma StatusSettled(h: History, ceiling: nat)
    requires Owned(h, ceiling) && Held(h)
    ensures h.inherited.None? ==> Traces.StatusAgrees(h.run.row)
  {
    Traces.StoredMeansAgrees(h.run.row);
  }

  lemma NothingIsBehindPending(w: World)
    requires Connected(w) && Held(w.h) && HeardLast(w, Holder(w.h))
    requires w.h.inherited in {None, Some(Pending)}
    ensures InheritedIsBehind(w.h.inherited, Newest(w, Holder(w.h)))
  {
    var log, newest := w.logs[Holder(w.h)], Newest(w, Holder(w.h));
    assert Tracked(log, Holder(w.h), w.confirms) && newest in log.sent && Behind(newest, log.cr);
    if At(newest) == Position(1, 10) { SameRankSamePhase(newest.phase, Pending); }
  }

  lemma Settled(w: World)
    requires Connected(w) && Held(w.h) && HeardLast(w, Holder(w.h))
    ensures SamePlace(w.h.run.row, w.logs[Holder(w.h)].cr.status)
      <==> InheritedIsBehind(w.h.inherited, Newest(w, Holder(w.h)))
  {
    var k, row := Holder(w.h), w.h.run.row;
    var log, newest := w.logs[k], Newest(w, k);
    assert Tracked(log, k, w.confirms);
    assert newest in log.sent && Behind(newest, log.cr);
    assert Arrival(k, newest) in w.arrived && At(newest).AtMost(Stands(row.State()));
    assert At(newest) == Here(log.cr.status) && Some(newest.phase) == log.cr.status.phase;
    if Inherits(w.h.inherited) != Stands(row.State()) {
      var a :| a in w.arrived && a.from == k && At(a.obs) == Stands(row.State()) && Some(a.obs.phase) == row.phase;
      assert Behind(a.obs, log.cr);
    }
    PlacedByPosition(row, log.cr.status, w.h.inherited, newest);
  }

  lemma PlacedByPosition(row: Row, status: Controller.AgentStatus, inherited: Option<Phase>, newest: Observation)
    requires At(newest) == Here(status) && Some(newest.phase) == status.phase
    requires At(newest).AtMost(Stands(row.State())) && Inherits(inherited).AtMost(Stands(row.State()))
    requires Inherits(inherited) == Stands(row.State()) ==> row.phase == inherited
    requires Inherits(inherited) != Stands(row.State()) ==> SamePlace(row, status)
    ensures SamePlace(row, status) <==> InheritedIsBehind(inherited, newest)
  {}

  // ---- and what it can do ---------------------------------------------------------------

  lemma {:induction false} OneMoreMove(w: World, moves: seq<Move>, move: Move, config: Controller.Config, ceiling: nat)
    requires AllEnabled(w, moves, config, ceiling) && Enabled(Unfold(w, moves, config, ceiling), move)
    ensures AllEnabled(w, moves + [move], config, ceiling)
    ensures Unfold(w, moves + [move], config, ceiling) == Next(Unfold(w, moves, config, ceiling), move, config, ceiling)
    decreases |moves|
  {
    if moves == [] {
      assert [] + [move] == [move] && [move][1..] == [];
    } else {
      assert (moves + [move])[1..] == moves[1..] + [move];
      OneMoreMove(Next(w, moves[0], config, ceiling), moves[1..], move, config, ceiling);
    }
  }

  /** Nothing there yet, and the secret is. */
  const EmptyView := Controller.View(None, None, 0, true, false, true, Controller.Created, 0, false)

  /** The container exited with 0. */
  const DoneView := Controller.View(
    Some(Controller.JobView(Some(0), false, None)),
    Some(Controller.PodView(false, Some(Controller.Terminated(0, 5, Unexplained)), Controller.PodSucceeded, Unexplained, None)),
    5, true, false, true, Controller.Created, 0, false)

  /** The run was handed out to k, which has it in hand. */
  predicate HandedOut(w: World, k: Holding) {
    && w.h.issued == [k] && w.h.acked == {} && k.epoch == 1 && w.offers == {k} && w.logs == map[] && w.present == map[]
    && w.acks == {} && w.handling == {} && w.refusals == {}
    && w.h.run.row.status == Leased && w.h.run.row.epoch == 1 && w.h.run.row.State() == Report.State(Some(k.cluster), 1, 1, None)
    && w.h.run.ledger.Keys == {Ledger.Key(1, 1)} && w.h.run.ledger[Ledger.Key(1, 1)].completion.None?
    && w.h.run.excluded == {}
  }

  lemma LeasesOut(c: ClusterId, config: Controller.Config, ceiling: nat)
    ensures var lease := Inside(Leasing(c, 0, 30, 60));
      Enabled(Beginning(Some(c)), lease) && HandedOut(Next(Beginning(Some(c)), lease, config, ceiling), Holding(c, 1))
  {
    var lease := Inside(Leasing(c, 0, 30, 60));
    var next := Next(Beginning(Some(c)), lease, config, ceiling);
    LeasedFirst(c, ceiling);
    assert next.h.issued == [Holding(c, 1)];
    assert next.offers == {Holding(c, 1)};
  }

  lemma LeasedFirst(c: ClusterId, ceiling: nat)
    ensures var effect := EffectOf(Admitted(Some(c)), Leasing(c, 0, 30, 60), ceiling); var run := effect.run;
      && effect.outcome == Done && run.row.status == Leased && run.row.State() == Report.State(Some(c), 1, 1, None)
      && run.ledger.Keys == {Ledger.Key(1, 1)} && run.ledger[Ledger.Key(1, 1)].completion.None? && run.excluded == {}
  {}

  /** k has the AgentRun, the backend knows, and so does k. */
  predicate UnderWay(w: World, k: Holding) {
    && w.h.issued == [k] && w.h.acked == {k} && k in w.logs && w.logs.Keys == {k} && Holds(w, k)
    && w.h.run.row.status == Dispatched && w.h.run.row.State() == Report.State(Some(k.cluster), 1, 1, None)
    && w.h.run.ledger.Keys == {Ledger.Key(1, 1)} && w.h.run.ledger[Ledger.Key(1, 1)].completion.None?
    && w.logs[k].cr.acknowledged && k.epoch == 1
  }

  /** A new AgentRun, confirmed. */
  function Ready(): Log { Born(1, None, None, 0).(cr := Controller.MarkAcknowledged(Born(1, None, None, 0).cr)) }

  /** The lease is materialised, and acknowledged. */
  lemma TakesUp(start: World, before: seq<Move>, k: Holding, config: Controller.Config, ceiling: nat)
    returns (moves: seq<Move>)
    requires AllEnabled(start, before, config, ceiling) && HandedOut(Unfold(start, before, config, ceiling), k)
    ensures AllEnabled(start, moves, config, ceiling)
    ensures var w := Unfold(start, moves, config, ceiling);
      && w.h == Unfold(start, before, config, ceiling).h && k in w.acks && Holds(w, k)
      && w.logs == map[k := Born(1, None, None, 0)]
  {
    moves := Then(start, before, Materialising(k, None, None, 0), config, ceiling);
    moves := Then(start, moves, SendingAck(k), config, ceiling);
  }

  lemma GetsConfirmed(start: World, before: seq<Move>, k: Holding, config: Controller.Config, ceiling: nat)
    returns (moves: seq<Move>)
    requires AllEnabled(start, before, config, ceiling) && HandedOut(Unfold(start, before, config, ceiling), k)
    ensures AllEnabled(start, moves, config, ceiling)
    ensures UnderWay(Unfold(start, moves, config, ceiling), k) && Unfold(start, moves, config, ceiling).logs[k] == Ready()
  {
    moves := TakesUp(start, before, k, config, ceiling);
    AckIsTaken(Unfold(start, moves, config, ceiling).h, k, ceiling);
    moves := Then(start, moves, AckArrives(k, 0, 60), config, ceiling);
    assert k in Unfold(start, moves, config, ceiling).confirms;
    moves := Then(start, moves, ConfirmArrives(k), config, ceiling);
  }

  lemma AckIsTaken(h: History, k: Holding, ceiling: nat)
    requires h.run.row.status == Leased && h.run.row.epoch == k.epoch && h.run.row.cluster == Some(k.cluster) && h.acked == {}
    ensures var next := Protocol.After(h, Acking(k, 0, 60), ceiling);
      && next.acked == {k} && next.issued == h.issued && next.run.ledger == h.run.ledger
      && next.run.row.status == Dispatched && next.run.row.State() == h.run.row.State()
  {}

  /** Two passes: one creates the Job, the next sees it done. */
  lemma Runs(log: Log, config: Controller.Config)
    requires log == Ready()
    ensures var made := Attempts.After(log, Reconciling(EmptyView), config);
      var done := Attempts.After(made, Reconciling(DoneView), config);
      && made.made == done.made == {1} && done.sent != []
      && var last := done.sent[|done.sent| - 1];
        last.epoch == 1 && last.attempt == 1 && last.phase == Phase.Succeeded && last.exitCode == Some(0)
  {
    var made := Attempts.After(log, Reconciling(EmptyView), config);
    MakesItsJob(log.cr, config);
    SeesItDone(made.cr, config);
  }

  lemma MakesItsJob(cr: Controller.Cr, config: Controller.Config)
    requires cr == Ready().cr
    ensures var pass := Controller.Reconcile(cr, EmptyView, config);
      && pass.made && pass.cr.epoch == 1 && pass.cr.cancel.None? && !pass.cr.abandoned && pass.cr.deletedAt.None?
      && pass.cr.status.attempt == 1 && pass.cr.status.phase == Some(Pending) && pass.cr.status.job
      && pass.cr.status.nextAttemptAt.None?
  {}

  lemma SeesItDone(cr: Controller.Cr, config: Controller.Config)
    requires cr.epoch == 1 && cr.cancel.None? && !cr.abandoned && cr.deletedAt.None?
    requires cr.status.attempt == 1 && cr.status.phase == Some(Pending) && cr.status.job && cr.status.nextAttemptAt.None?
    ensures var pass := Controller.Reconcile(cr, DoneView, config);
      && !pass.made && |pass.sent| == 1
      && pass.sent[0].epoch == 1 && pass.sent[0].attempt == 1 && pass.sent[0].phase == Phase.Succeeded
      && pass.sent[0].exitCode == Some(0)
  {
    var looked := Controller.Looked(cr, DoneView, config);
    assert looked.status.phase == Some(Phase.Succeeded) && looked.status.exitCode == Some(0);
    assert Controller.Acted(looked, DoneView, config).sent == [];
  }

  lemma SuccessIsTaken(h: History, k: Holding, obs: Observation, ceiling: nat)
    requires h.run.row.State() == Report.State(Some(k.cluster), 1, 1, None)
    requires h.run.ledger.Keys == {Ledger.Key(1, 1)} && h.run.ledger[Ledger.Key(1, 1)].completion.None?
    requires obs.epoch == 1 && obs.attempt == 1 && obs.phase == Phase.Succeeded && obs.exitCode == Some(0)
    ensures var row := Protocol.After(h, Observing(k.cluster, obs, 6, 60), ceiling).run.row;
      row.status == StatusSucceeded && row.exitCode == Some(0)
  {}

  /**
   * The protocol gets work done: a cluster that is alone with a new run, and of
   * whose messages none is lost, brings it to its end, with one execution.
   */
  lemma WorkGetsDone(c: ClusterId, config: Controller.Config, ceiling: nat)
    ensures exists moves | AllEnabled(Beginning(Some(c)), moves, config, ceiling) ::
      var w := Unfold(Beginning(Some(c)), moves, config, ceiling);
      w.h.run.row.status == StatusSucceeded && w.h.run.row.exitCode == Some(0) && Executing(w) == {Holding(c, 1)}
  {
    var k, w := Holding(c, 1), Beginning(Some(c));
    LeasesOut(c, config, ceiling);
    var moves := Then(w, [], Inside(Leasing(c, 0, 30, 60)), config, ceiling);
    moves := GetsConfirmed(w, moves, k, config, ceiling);
    moves := GetsDone(w, moves, k, config, ceiling);
  }

  lemma GetsDone(start: World, before: seq<Move>, k: Holding, config: Controller.Config, ceiling: nat)
    returns (moves: seq<Move>)
    requires AllEnabled(start, before, config, ceiling) && UnderWay(Unfold(start, before, config, ceiling), k)
    requires Unfold(start, before, config, ceiling).logs[k] == Ready()
    ensures AllEnabled(start, moves, config, ceiling)
    ensures var w := Unfold(start, moves, config, ceiling);
      w.h.run.row.status == StatusSucceeded && w.h.run.row.exitCode == Some(0) && Executing(w) == {k}
  {
    var obs;
    moves, obs := RunsItsJob(start, before, k, config, ceiling);
    SuccessIsTaken(Unfold(start, moves, config, ceiling).h, k, obs, ceiling);
    moves := Then(start, moves, ReportArrives(k, obs, 6, 60), config, ceiling);
  }

  lemma RunsItsJob(start: World, before: seq<Move>, k: Holding, config: Controller.Config, ceiling: nat)
    returns (moves: seq<Move>, obs: Observation)
    requires AllEnabled(start, before, config, ceiling) && UnderWay(Unfold(start, before, config, ceiling), k)
    requires Unfold(start, before, config, ceiling).logs[k] == Ready()
    ensures AllEnabled(start, moves, config, ceiling)
    ensures var w := Unfold(start, moves, config, ceiling);
      && w.h == Unfold(start, before, config, ceiling).h && k in w.logs && obs in w.logs[k].sent && Executing(w) == {k}
      && obs.epoch == 1 && obs.attempt == 1 && obs.phase == Phase.Succeeded && obs.exitCode == Some(0)
  {
    Runs(Ready(), config);
    moves := Passes(start, before, k, EmptyView, config, ceiling);
    moves := Passes(start, moves, k, DoneView, config, ceiling);
    var w := Unfold(start, moves, config, ceiling);
    assert w.logs.Keys == {k} && w.logs[k].made == {1};
    obs := w.logs[k].sent[|w.logs[k].sent| - 1];
  }

  /** One pass over the one AgentRun there is. */
  lemma Passes(start: World, before: seq<Move>, k: Holding, view: Controller.View, config: Controller.Config, ceiling: nat)
    returns (moves: seq<Move>)
    requires AllEnabled(start, before, config, ceiling)
    requires var w := Unfold(start, before, config, ceiling); k in w.logs && w.logs.Keys == {k} && Holds(w, k)
    ensures AllEnabled(start, moves, config, ceiling)
    ensures var w, w' := Unfold(start, before, config, ceiling), Unfold(start, moves, config, ceiling);
      && w'.h == w.h && w'.logs.Keys == {k} && Holds(w', k) && k in w.logs
      && w'.logs[k] == Attempts.After(w.logs[k], Reconciling(view), config)
  {
    moves := Then(start, before, Living(k, Reconciling(view)), config, ceiling);
  }

  /** And a run one cluster refuses goes to the next. */
  lemma RefusedGoesElsewhere(c: ClusterId, d: ClusterId, config: Controller.Config, ceiling: nat)
    requires c != d
    ensures exists moves | AllEnabled(Beginning(Some(c)), moves, config, ceiling) ::
      var row := Unfold(Beginning(Some(c)), moves, config, ceiling).h.run.row;
      row.status == Queued && row.cluster == Some(d) && row.epoch == 2
  {
    var k, w := Holding(c, 1), Beginning(Some(c));
    LeasesOut(c, config, ceiling);
    var moves := Then(w, [], Inside(Leasing(c, 0, 30, 60)), config, ceiling);
    moves := Then(w, moves, Refusing(k), config, ceiling);
    RefusalIsTaken(Unfold(w, moves, config, ceiling).h, k, d, ceiling);
    moves := Then(w, moves, RefusalArrives(k, "", None, [d]), config, ceiling);
  }

  lemma RefusalIsTaken(h: History, k: Holding, d: ClusterId, ceiling: nat)
    requires h.run.row.State() == Report.State(Some(k.cluster), 1, 1, None) && k.epoch == 1
    requires h.run.excluded == {} && d != k.cluster
    ensures var row := Protocol.After(h, Rejecting(k, "", None, [d]), ceiling).run.row;
      row.status == Queued && row.cluster == Some(d) && row.epoch == 2
  {
    assert PickCluster([d], {k.cluster}) == Some(d);
  }

  lemma Then(w: World, moves: seq<Move>, move: Move, config: Controller.Config, ceiling: nat) returns (next: seq<Move>)
    requires AllEnabled(w, moves, config, ceiling) && Enabled(Unfold(w, moves, config, ceiling), move)
    ensures AllEnabled(w, next, config, ceiling)
    ensures Unfold(w, next, config, ceiling) == Next(Unfold(w, moves, config, ceiling), move, config, ceiling)
  {
    OneMoreMove(w, moves, move, config, ceiling);
    next := moves + [move];
  }
}
