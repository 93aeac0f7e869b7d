// The order reports arrive in does not decide a run's state.
//
// Everything here is about one ownership: reports under one epoch from its
// holder, delivered in any order, any number of times.
module DeliveryOrder {
  import opened Wrappers
  import opened Phases
  import opened Report

  /** The row after a whole sequence of deliveries. */
  function Fold(state: State, reports: seq<Observation>, holder: ClusterId): State
    decreases |reports|
  {
    if reports == [] then state else Fold(Next(state, reports[0], holder), reports[1..], holder)
  }

  /** Reports of this ownership in phases this build knows, on a row it may write. */
  predicate Owned(state: State, reports: seq<Observation>, holder: ClusterId) {
    && (state.cluster.Some? ==> state.cluster.value == holder)
    && forall o :: o in reports ==> o.epoch == state.epoch && o.phase.Rank() > 0
  }

  function Max(a: Position, b: Position): Position { if a.AtMost(b) then b else a }

  /** The furthest position among the row and the reports. */
  function Furthest(state: State, reports: seq<Observation>): Position {
    if reports == [] then Stands(state) else Max(At(reports[0]), Furthest(state, reports[1..]))
  }

  lemma {:induction false} FurthestBounds(state: State, reports: seq<Observation>)
    ensures Stands(state).AtMost(Furthest(state, reports))
    ensures forall o :: o in reports ==> At(o).AtMost(Furthest(state, reports))
    ensures Furthest(state, reports) == Stands(state) || exists o :: o in reports && At(o) == Furthest(state, reports)
  {
    if reports != [] {
      FurthestBounds(state, reports[1..]);
      assert forall o :: o in reports ==> o == reports[0] || o in reports[1..];
    }
  }

  /** Furthest is the one position that bounds everything and is attained. */
  lemma FurthestUnique(state: State, reports: seq<Observation>, p: Position)
    requires Stands(state).AtMost(p) && forall o :: o in reports ==> At(o).AtMost(p)
    requires p == Stands(state) || exists o :: o in reports && At(o) == p
    ensures p == Furthest(state, reports)
  {
    FurthestBounds(state, reports);
  }

  /** A first delivery only moves the start of the fold. */
  lemma FurthestAfter(state: State, reports: seq<Observation>, holder: ClusterId)
    requires reports != [] && Owned(state, reports, holder)
    ensures Furthest(Next(state, reports[0], holder), reports[1..]) == Furthest(state, reports)
  {
    var next, rest := Next(state, reports[0], holder), reports[1..];
    FurthestBounds(next, rest);
    FurthestBounds(state, reports);
    var p := Furthest(next, rest);
    assert forall o :: o in reports ==> o == reports[0] || o in rest;
    assert Stands(state).AtMost(Stands(next)) && At(reports[0]).AtMost(Stands(next));
    assert Stands(next) == Stands(state) || Stands(next) == At(reports[0]);
    assert reports[0] in reports;
    FurthestUnique(state, reports, p);
  }

  /**
   * Whatever arrives and in whatever order, the row ends at the furthest
   * position reported, and at that position the first phase delivered stands.
   */
  lemma {:induction false} FoldReachesFurthest(state: State, reports: seq<Observation>, holder: ClusterId)
    requires Owned(state, reports, holder)
    ensures var final := Fold(state, reports, holder);
      && Stands(final) == Furthest(state, reports)
      && final.epoch == state.epoch
      && (Stands(state) == Stands(final) ==> final.phase == state.phase)
      && (Stands(state) != Stands(final) ==>
            exists i: nat :: IsFirstAt(reports, i, Stands(final)) && final.phase == Some(reports[i].phase))
    decreases |reports|
  {
    if reports != [] {
      var next := Next(state, reports[0], holder);
      FurthestAfter(state, reports, holder);
      FoldReachesFurthest(next, reports[1..], holder);
      var final := Fold(state, reports, holder);
      FurthestBounds(next, reports[1..]);
      if Stands(next) != Stands(final) {
        var i: nat :| IsFirstAt(reports[1..], i, Stands(final)) && final.phase == Some(reports[1..][i].phase);
        assert At(reports[0]).AtMost(Stands(next));
        assert IsFirstAt(reports, i + 1, Stands(final));
      } else if Stands(state) != Stands(final) {
        assert IsFirstAt(reports, 0, Stands(final));
      }
    }
  }

  /** reports[i] is the first delivery that stands at p. */
  predicate IsFirstAt(reports: seq<Observation>, i: nat, p: Position) {
    && i < |reports|
    && At(reports[i]) == p
    && forall j | 0 <= j < i :: At(reports[j]) != p
  }

  /** Everything reported at the furthest position, by the row or by a report, is one phase. */
  ghost predicate OneOutcome(state: State, reports: seq<Observation>) {
    var p := Furthest(state, reports);
    Stands(state) == p
    || forall a, b :: a in reports && b in reports && At(a) == p && At(b) == p ==> a.phase == b.phase
  }

  ghost predicate SameReports(a: seq<Observation>, b: seq<Observation>) {
    forall o :: o in a <==> o in b
  }

  ghost predicate OrderIndependent(state: State, reports: seq<Observation>, holder: ClusterId) {
    forall other :: SameReports(reports, other) ==>
      Fold(state, other, holder) == Fold(state, reports, holder)
  }

  lemma {:induction false} FoldCluster(state: State, reports: seq<Observation>, holder: ClusterId)
    requires Owned(state, reports, holder)
    ensures Fold(state, reports, holder).cluster ==
            if Stands(Fold(state, reports, holder)) == Stands(state) then state.cluster else Some(holder)
    decreases |reports|
  {
    if reports != [] {
      var next := Next(state, reports[0], holder);
      FoldCluster(next, reports[1..], holder);
      FoldReachesFurthest(next, reports[1..], holder);
      FurthestBounds(next, reports[1..]);
    }
  }

  /** Two deliveries of the same reports agree when the furthest position has one outcome. */
  lemma SameReportsSameRun(state: State, a: seq<Observation>, b: seq<Observation>, holder: ClusterId)
    requires Owned(state, a, holder) && SameReports(a, b) && OneOutcome(state, a)
    ensures Fold(state, a, holder) == Fold(state, b, holder)
  {
    FurthestBounds(state, a);
    FurthestBounds(state, b);
    FurthestUnique(state, b, Furthest(state, a));
    FoldReachesFurthest(state, a, holder);
    FoldReachesFurthest(state, b, holder);
    FoldCluster(state, a, holder);
    FoldCluster(state, b, holder);
  }

  /**
   * Delivery order, duplication and repetition cannot change the outcome exactly
   * when the furthest position was reported with a single phase.
   */
  lemma OrderIndependentIffOneOutcome(state: State, reports: seq<Observation>, holder: ClusterId)
    requires Owned(state, reports, holder)
    ensures OrderIndependent(state, reports, holder) <==> OneOutcome(state, reports)
  {
    if OneOutcome(state, reports) {
      forall other | SameReports(reports, other)
        ensures Fold(state, other, holder) == Fold(state, reports, holder)
      {
        SameReportsSameRun(state, reports, other, holder);
      }
    } else {
      var p := Furthest(state, reports);
      var a, b :| a in reports && b in reports && At(a) == p && At(b) == p && a.phase != b.phase;
      ContradictingEndings(state, reports, a, b, holder);
    }
  }

  /** Two phases reported at the furthest position: which one stands is a matter of order. */
  lemma ContradictingEndings(
    state: State, reports: seq<Observation>, a: Observation, b: Observation, holder: ClusterId)
    requires Owned(state, reports, holder) && a in reports && b in reports
    requires At(a) == At(b) == Furthest(state, reports) != Stands(state) && a.phase != b.phase
    ensures !OrderIndependent(state, reports, holder)
  {
    FirstDeliveredStands(state, reports, a, holder);
    FirstDeliveredStands(state, reports, b, holder);
    var aFirst, bFirst := [a] + reports, [b] + reports;
    assert SameReports(reports, aFirst) && SameReports(reports, bFirst);
    assert Fold(state, aFirst, holder).phase != Fold(state, bFirst, holder).phase;
  }

  /** Delivering a furthest report ahead of the rest makes its phase the run's. */
  lemma FirstDeliveredStands(state: State, reports: seq<Observation>, o: Observation, holder: ClusterId)
    requires Owned(state, reports, holder) && o in reports
    requires At(o) == Furthest(state, reports) != Stands(state)
    ensures Fold(state, [o] + reports, holder).phase == Some(o.phase)
  {
    FurthestBounds(state, reports);
    var all := [o] + reports;
    assert all[1..] == reports;
    FurthestUnique(state, all, At(o));
    FoldReachesFurthest(state, all, holder);
    assert IsFirstAt(all, 0, At(o));
  }
}
