// What the two deadlines of a run measure, over whole runs of the system.
//
// The deadlines are columns that many operations write. Here they are read back
// as times: when the run was handed out, and when its holder was last heard.
module Deadlines {
  import opened Wrappers
  import opened Phases
  import opened Report
  import opened RunSteps
  import opened Protocol
  import Traces
  import Effects

  /** The timings a control plane hands out with every lease and report. */
  datatype Timings = Timings(ackTimeout: int, ttl: int)

  predicate Uses(event: Event, timings: Timings) {
    match event
    case Leasing(_, _, ackTimeout, ttl) => ackTimeout == timings.ackTimeout && ttl == timings.ttl
    case Acking(_, _, ttl) => ttl == timings.ttl
    case Observing(_, _, _, ttl) => ttl == timings.ttl
    case _ => true
  }

  /** When the run was handed out last, and when its holder last had something to say of it. */
  datatype Contact = Contact(issued: int, heard: int)

  /**
   * Handing the run out is a contact, and so are its confirmation, the first
   * time, and every report accepted that does not end it.
   */
  ghost function Contacted(h: History, event: Event, since: Contact): Contact {
    match event
    case Leasing(c, now, _, _) => if Effects.Waits(h.run.row, c) then Contact(now, now) else since
    case Acking(holder, now, _) =>
      if h.run.row.status == Leased && holder.epoch == h.run.row.epoch && Some(holder.cluster) == h.run.row.cluster
      then since.(heard := now) else since
    case Observing(c, obs, now, _) =>
      if Apply(h.run.row.State(), obs, c).Accepted() && !Effects.IsEnding(obs.phase) then since.(heard := now) else since
    case _ => since
  }

  ghost function LastContact(h: History, events: seq<Event>, since: Contact, ceiling: nat): Contact
    decreases |events|
  {
    if events == [] then since
    else LastContact(After(h, events[0], ceiling), events[1..], Contacted(h, events[0], since), ceiling)
  }

  /** The deadlines of a run a cluster has are these times and the timings, and nothing else. */
  predicate Dated(h: History, since: Contact, timings: Timings) {
    && (Held(h) ==> h.run.row.leaseDeadline == Some(since.heard + timings.ttl))
    && (h.run.row.status == Leased ==> h.run.row.ackDeadline == Some(since.issued + timings.ackTimeout))
  }

  lemma StepIsDated(h: History, event: Event, since: Contact, timings: Timings, ceiling: nat)
    requires Inv(h, ceiling) && SendsOwnEpoch(h, event) && ceiling >= 1
    requires Dated(h, since, timings) && Uses(event, timings) && timings.ttl > 0
    ensures Dated(After(h, event, ceiling), Contacted(h, event, since), timings)
  {
    match event
    case Leasing(_, _, _, _) =>
      LeasingKeeps(h, event, ceiling);
      LeaseIsDated(h, event, since, timings, ceiling);
    case Observing(_, _, _, _) => ReportIsDated(h, event, since, timings, ceiling);
    case Completing(c, epoch, attempt, report) =>
      Effects.CompletionOfOne(h.run, c, epoch, attempt, report);
      CompletionIsDated(h, event, since, timings, ceiling);
    case _ => OtherIsDated(h, event, since, timings, ceiling);
  }

  lemma LeaseIsDated(h: History, event: Event, since: Contact, timings: Timings, ceiling: nat)
    requires event.Leasing? && Dated(h, since, timings) && Uses(event, timings)
    requires EffectOf(h.run, event, ceiling).outcome == (if Leasable(h.run.row, event.cluster) then Done else NotDue)
    ensures Dated(After(h, event, ceiling), Contacted(h, event, since), timings)
  {
    if Leasable(h.run.row, event.cluster) {
      LeaseDates(h, event, ceiling);
    } else {
      NotLeased(h, event, ceiling);
    }
  }

  lemma LeaseDates(h: History, event: Event, ceiling: nat)
    requires event.Leasing? && Leasable(h.run.row, event.cluster) && EffectOf(h.run, event, ceiling).outcome == Done
    ensures var row := After(h, event, ceiling).run.row;
      row.leaseDeadline == Some(event.now + event.ttl) && row.ackDeadline == Some(event.now + event.ackTimeout)
    ensures Effects.Waits(h.run.row, event.cluster)
  {}

  lemma NotLeased(h: History, event: Event, ceiling: nat)
    requires event.Leasing? && !Leasable(h.run.row, event.cluster)
    ensures After(h, event, ceiling) == h && !Effects.Waits(h.run.row, event.cluster)
  {}

  lemma ReportIsDated(h: History, event: Event, since: Contact, timings: Timings, ceiling: nat)
    requires Inv(h, ceiling) && SendsOwnEpoch(h, event) && event.Observing?
    requires Dated(h, since, timings) && Uses(event, timings) && timings.ttl > 0
    ensures Dated(After(h, event, ceiling), Contacted(h, event, since), timings)
  {
    Effects.ReportOfOne(h.run, event.cluster, event.obs, event.now, event.ttl);
    if Apply(h.run.row.State(), event.obs, event.cluster).Accepted() {
      AcceptedIsCurrent(h, event);
      ObservingBooked(h, event, ceiling);
      StoredSays(event.obs.phase, Leased);
      MovedIsDated(h, After(h, event, ceiling), event, since, timings);
    }
  }

  lemma MovedIsDated(h: History, next: History, event: Event, since: Contact, timings: Timings)
    requires event.Observing? && Dated(h, since, timings) && Uses(event, timings) && timings.ttl > 0 && Held(h)
    requires next.issued == h.issued && Apply(h.run.row.State(), event.obs, event.cluster).Accepted()
    requires Effects.Moved(h.run.row, next.run.row, event.cluster, event.obs, event.now, event.ttl)
    requires event.obs.phase.Rank() > 0
    ensures Dated(next, Contacted(h, event, since), timings)
  {}

  lemma CompletionIsDated(h: History, event: Event, since: Contact, timings: Timings, ceiling: nat)
    requires event.Completing? && Dated(h, since, timings)
    ensures Dated(After(h, event, ceiling), since, timings)
  {
    CompletedRow(h.run, event.sender, event.epoch, event.attempt, event.report);
    Effects.CompletionOfOne(h.run, event.sender, event.epoch, event.attempt, event.report);
  }

  lemma OtherIsDated(h: History, event: Event, since: Contact, timings: Timings, ceiling: nat)
    requires Owned(h, ceiling) && SendsOwnEpoch(h, event) && Dated(h, since, timings) && Uses(event, timings)
    requires !event.Leasing? && !event.Observing? && !event.Completing?
    ensures Dated(After(h, event, ceiling), Contacted(h, event, since), timings)
  {}

  lemma {:induction false} AlwaysDated(h: History, events: seq<Event>, since: Contact, timings: Timings, ceiling: nat)
    requires Inv(h, ceiling) && Traces.AllLegal(h, events, ceiling) && ceiling >= 1
    requires Dated(h, since, timings) && timings.ttl > 0 && forall e | e in events :: Uses(e, timings)
    ensures Dated(Traces.Run(h, events, ceiling), LastContact(h, events, since, ceiling), timings)
    ensures Inv(Traces.Run(h, events, ceiling), ceiling)
    decreases |events|
  {
    if events != [] {
      assert events[0] in events;
      StepKeepsInv(h, events[0], ceiling);
      StepIsDated(h, events[0], since, timings, ceiling);
      AlwaysDated(After(h, events[0], ceiling), events[1..], Contacted(h, events[0], since), timings, ceiling);
    }
  }

  /**
   * After any run of the system: the scanner takes a run away from its cluster
   * exactly when it was handed out longer than the acknowledgement timeout ago
   * and nobody confirmed it or reported on it; and a run that is going on goes
   * out of sight exactly when its holder was last heard longer than a lease ago.
   */
  lemma DeadlinesMeasureSilence(cluster: Option<ClusterId>, events: seq<Event>, timings: Timings, now: int, ceiling: nat)
    requires Traces.AllLegal(Start(cluster), events, ceiling) && ceiling >= 1
    requires timings.ttl > 0 && forall e | e in events :: Uses(e, timings)
    ensures var h := Traces.Run(Start(cluster), events, ceiling);
      var last := LastContact(Start(cluster), events, Contact(0, 0), ceiling);
      && (After(h, AckExpiring(now), ceiling).run.row.epoch > h.run.row.epoch
          <==> Held(h) && Holder(h) !in h.acked + h.heard && now - last.issued > timings.ackTimeout)
      && (After(h, LeaseExpiring(now), ceiling).run.row.status == Unknown
          <==> h.run.row.status == Unknown
               || (h.run.row.status in {Dispatched, StatusStarting, StatusRunning} && now - last.heard > timings.ttl))
  {
    StartInv(cluster, ceiling);
    AlwaysDated(Start(cluster), events, Contact(0, 0), timings, ceiling);
    var h := Traces.Run(Start(cluster), events, ceiling);
    Effects.AckExpiryOfOne(h.run, ceiling, now);
    Effects.LeaseExpiryOfOne(h.run, now);
  }
}
