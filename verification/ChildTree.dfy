// How large the tree below one submitted run can get.
//
// Admissions of children interleave: each is a depth check, then a transaction
// that locks the parent's row, counts its children and inserts one more.
module ChildTree {
  import opened Numbers
  import opened Wrappers
  import opened Phases

  datatype Node = Node(parent: Option<RunId>, depth: nat)

  type Runs = map<RunId, Node>

  /** A child's admission under way. */
  datatype Admission = Checked(parent: RunId) | Locked(parent: RunId) | Counted(parent: RunId, started: nat)

  datatype State = State(runs: Runs, open: map<nat, Admission>, locks: map<RunId, nat>)

  datatype Limits = Limits(children: nat, depth: nat)

  datatype Step =
    | SubmitRoot(run: RunId)
    | Check(id: nat, parent: RunId)
    | Lock(id: nat)
    | Count(id: nat)
    | InsertChild(id: nat, run: RunId)
    | GiveUp(id: nat)

  function Children(runs: Runs, parents: set<RunId>): set<RunId> {
    set r | r in runs && runs[r].parent.Some? && runs[r].parent.value in parents
  }

  /** locking is the SELECT … FOR UPDATE before the count. */
  predicate Enabled(s: State, step: Step, limits: Limits, locking: bool) {
    match step
    case SubmitRoot(run) => run !in s.runs
    case Check(id, parent) => id !in s.open && parent in s.runs && s.runs[parent].depth + 1 <= limits.depth
    case Lock(id) => locking && id in s.open && s.open[id].Checked? && s.open[id].parent !in s.locks
    case Count(id) => id in s.open && if locking then s.open[id].Locked? else s.open[id].Checked?
    case InsertChild(id, run) => id in s.open && s.open[id].Counted? && s.open[id].parent in s.runs && run !in s.runs
    case GiveUp(id) => id in s.open
  }

  function Released(s: State, id: nat): State
    requires id in s.open
  {
    s.(open := s.open - {id}, locks := map p | p in s.locks && s.locks[p] != id :: s.locks[p])
  }

  function Next(s: State, step: Step, limits: Limits, locking: bool): State
    requires Enabled(s, step, limits, locking)
  {
    match step
    case SubmitRoot(run) => s.(runs := s.runs[run := Node(None, 0)])
    case Check(id, parent) => s.(open := s.open[id := Checked(parent)])
    case Lock(id) => s.(open := s.open[id := Locked(s.open[id].parent)], locks := s.locks[s.open[id].parent := id])
    case Count(id) =>
      s.(open := s.open[id := Counted(s.open[id].parent, |Children(s.runs, {s.open[id].parent})|)])
    case InsertChild(id, run) =>
      var parent := s.open[id].parent;
      if s.open[id].started >= limits.children then Released(s, id)
      else Released(s, id).(runs := s.runs[run := Node(Some(parent), s.runs[parent].depth + 1)])
    case GiveUp(id) => Released(s, id)
  }

  const Empty := State(map[], map[], map[])

  // ---- the invariant --------------------------------------------------------------

  predicate WellParented(runs: Runs, limits: Limits) {
    forall r {:trigger NodeOk(runs, r, limits)} | r in runs :: NodeOk(runs, r, limits)
  }

  predicate NodeOk(runs: Runs, r: RunId, limits: Limits)
    requires r in runs
  {
    && runs[r].depth <= limits.depth
    && (runs[r].parent.Some? ==>
          runs[r].parent.value in runs && runs[r].depth == runs[runs[r].parent.value].depth + 1)
  }

  predicate OpenOk(s: State, a: Admission, limits: Limits) {
    a.parent in s.runs && s.runs[a.parent].depth + 1 <= limits.depth
  }

  /** Whoever has locked or counted holds the parent's lock, and counted right. */
  predicate HoldsLock(s: State, id: nat)
    requires id in s.open
  {
    s.open[id].Checked?
    || (s.open[id].parent in s.locks && s.locks[s.open[id].parent] == id
        && (s.open[id].Counted? ==> s.open[id].started == |Children(s.runs, {s.open[id].parent})|))
  }

  predicate FanOutBounded(runs: Runs, limits: Limits) {
    forall r {:trigger Children(runs, {r})} | r in runs :: |Children(runs, {r})| <= limits.children
  }

  predicate Inv(s: State, limits: Limits) {
    && WellParented(s.runs, limits) && FanOutBounded(s.runs, limits)
    && (forall id | id in s.open :: OpenOk(s, s.open[id], limits) && HoldsLock(s, id))
  }

  predicate AllEnabled(s: State, steps: seq<Step>, limits: Limits, locking: bool)
    decreases |steps|
  {
    steps != [] ==>
      && Enabled(s, steps[0], limits, locking)
      && AllEnabled(Next(s, steps[0], limits, locking), steps[1..], limits, locking)
  }

  function Run(s: State, steps: seq<Step>, limits: Limits, locking: bool): State
    requires AllEnabled(s, steps, limits, locking)
    decreases |steps|
  {
    if steps == [] then s else Run(Next(s, steps[0], limits, locking), steps[1..], limits, locking)
  }

  lemma ChildAdded(runs: Runs, run: RunId, node: Node, r: RunId)
    requires run !in runs
    ensures Children(runs[run := node], {r}) == Children(runs, {r}) + if node.parent == Some(r) then {run} else {}
    ensures |Children(runs[run := node], {r})| == |Children(runs, {r})| + if node.parent == Some(r) then 1 else 0
  {
    assert Children(runs[run := node], {r}) == Children(runs, {r}) + if node.parent == Some(r) then {run} else {};
  }

  /** A run no one has a parent in yet has no children. */
  lemma NewRunIsChildless(runs: Runs, run: RunId, limits: Limits)
    requires WellParented(runs, limits) && run !in runs
    ensures Children(runs, {run}) == {}
  {
    forall r | r in runs ensures runs[r].parent != Some(run) { assert NodeOk(runs, r, limits); }
  }

  lemma StepKeepsInv(s: State, step: Step, limits: Limits)
    requires Inv(s, limits) && Enabled(s, step, limits, true)
    ensures Inv(Next(s, step, limits, true), limits)
  {
    match step
    case SubmitRoot(run) =>
      NodeAdded(s.runs, run, Node(None, 0), limits);
      AddingKeeps(s, run, Node(None, 0), limits);
    case InsertChild(id, run) => InsertKeeps(s, id, run, limits);
    case GiveUp(id) => ReleaseKeeps(s, id, limits);
    case _ => TransactionKeeps(s, step, limits);
  }

  lemma TransactionKeeps(s: State, step: Step, limits: Limits)
    requires Inv(s, limits) && Enabled(s, step, limits, true) && (step.Check? || step.Lock? || step.Count?)
    ensures Inv(Next(s, step, limits, true), limits)
  {
    var next := Next(s, step, limits, true);
    forall id | id in next.open ensures OpenOk(next, next.open[id], limits) && HoldsLock(next, id) {
      if id in s.open { assert OpenOk(s, s.open[id], limits) && HoldsLock(s, id); }
    }
  }

  lemma ReleaseKeeps(s: State, id: nat, limits: Limits)
    requires Inv(s, limits) && id in s.open
    ensures Inv(Released(s, id), limits)
  {
    forall other | other in s.open && other != id ensures HoldsLock(Released(s, id), other) {
      assert HoldsLock(s, other);
    }
  }

  lemma AddingKeeps(s: State, run: RunId, node: Node, limits: Limits)
    requires Inv(s, limits) && run !in s.runs && WellParented(s.runs[run := node], limits)
    requires node.parent.Some? ==> |Children(s.runs, {node.parent.value})| < limits.children
    requires forall id | id in s.open :: s.open[id].Counted? ==> node.parent != Some(s.open[id].parent)
    ensures Inv(s.(runs := s.runs[run := node]), limits)
  {
    var next := s.(runs := s.runs[run := node]);
    NewRunIsChildless(s.runs, run, limits);
    forall r | r in next.runs ensures |Children(next.runs, {r})| <= limits.children { ChildAdded(s.runs, run, node, r); }
    forall id | id in s.open ensures OpenOk(next, s.open[id], limits) && HoldsLock(next, id) {
      assert OpenOk(s, s.open[id], limits) && HoldsLock(s, id);
      ChildAdded(s.runs, run, node, s.open[id].parent);
    }
  }

  lemma InsertKeeps(s: State, id: nat, run: RunId, limits: Limits)
    requires Inv(s, limits) && Enabled(s, InsertChild(id, run), limits, true)
    ensures Inv(Next(s, InsertChild(id, run), limits, true), limits)
  {
    ReleaseKeeps(s, id, limits);
    assert OpenOk(s, s.open[id], limits) && HoldsLock(s, id);
    if s.open[id].started < limits.children {
      OthersWait(s, id, limits);
      NodeAdded(s.runs, run, Node(Some(s.open[id].parent), s.runs[s.open[id].parent].depth + 1), limits);
      ChildKeeps(Released(s, id), s.open[id].parent, run, limits);
    }
  }

  /**
   * A child is admitted exactly when its parent has room for one more: an
   * admission that counted under the lock inserts as long as there are fewer
   * children than allowed, and one is let in at all unless it would be too deep.
   */
  lemma AdmittedIffThereIsRoom(s: State, id: nat, run: RunId, limits: Limits)
    requires Inv(s, limits) && Enabled(s, InsertChild(id, run), limits, true)
    ensures var parent := s.open[id].parent; var next := Next(s, InsertChild(id, run), limits, true);
      && (run in next.runs <==> |Children(s.runs, {parent})| < limits.children)
      && (run in next.runs ==> next.runs == s.runs[run := Node(Some(parent), s.runs[parent].depth + 1)])
      && (run !in next.runs ==> next.runs == s.runs)
      && id !in next.open && (forall p | p in next.locks :: next.locks[p] != id)
  {
    assert HoldsLock(s, id);
  }

  lemma CheckedUnlessTooDeep(s: State, id: nat, parent: RunId, limits: Limits, locking: bool)
    requires id !in s.open && parent in s.runs
    ensures Enabled(s, Check(id, parent), limits, locking) <==> s.runs[parent].depth < limits.depth
  {}

  /** Nobody else about, an admission runs to its end, and the child is in as long as there is room for it. */
  lemma AdmissionGoesThrough(s: State, id: nat, parent: RunId, run: RunId, limits: Limits)
    requires id !in s.open && parent in s.runs && parent !in s.locks && run !in s.runs && s.runs[parent].depth < limits.depth
    ensures AllEnabled(s, [Check(id, parent), Lock(id), Count(id), InsertChild(id, run)], limits, true)
    ensures var next := Run(s, [Check(id, parent), Lock(id), Count(id), InsertChild(id, run)], limits, true);
      (run in next.runs <==> |Children(s.runs, {parent})| < limits.children) && id !in next.open
  {
    var check, lock, count, insert := Check(id, parent), Lock(id), Count(id), InsertChild(id, run);
    var s1 := Next(s, check, limits, true);
    var s2 := Next(s1, lock, limits, true);
    var s3 := Next(s2, count, limits, true);
    StepFirst(s3, insert, [], limits, true);
    StepFirst(s2, count, [insert] + [], limits, true);
    StepFirst(s1, lock, [count] + ([insert] + []), limits, true);
    StepFirst(s, check, [lock] + ([count] + ([insert] + [])), limits, true);
    assert [check, lock, count, insert] == [check] + ([lock] + ([count] + ([insert] + [])));
  }

  lemma StepFirst(s: State, step: Step, rest: seq<Step>, limits: Limits, locking: bool)
    requires Enabled(s, step, limits, locking) && AllEnabled(Next(s, step, limits, locking), rest, limits, locking)
    ensures AllEnabled(s, [step] + rest, limits, locking)
    ensures Run(s, [step] + rest, limits, locking) == Run(Next(s, step, limits, locking), rest, limits, locking)
  {
    assert ([step] + rest)[1..] == rest;
  }

  lemma NodeAdded(runs: Runs, run: RunId, node: Node, limits: Limits)
    requires WellParented(runs, limits) && run !in runs && node.depth <= limits.depth
    requires node.parent.Some? ==> node.parent.value in runs && node.depth == runs[node.parent.value].depth + 1
    ensures WellParented(runs[run := node], limits)
  {
    forall r | r in runs ensures NodeOk(runs[run := node], r, limits) { assert NodeOk(runs, r, limits); }
  }

  lemma ChildKeeps(s: State, parent: RunId, run: RunId, limits: Limits)
    requires Inv(s, limits) && parent in s.runs && run !in s.runs
    requires WellParented(s.runs[run := Node(Some(parent), s.runs[parent].depth + 1)], limits)
    requires |Children(s.runs, {parent})| < limits.children
    requires forall id | id in s.open :: s.open[id].Counted? ==> s.open[id].parent != parent
    ensures Inv(s.(runs := s.runs[run := Node(Some(parent), s.runs[parent].depth + 1)]), limits)
  {
    AddingKeeps(s, run, Node(Some(parent), s.runs[parent].depth + 1), limits);
  }

  /** Nobody else has counted the children of a locked parent. */
  lemma OthersWait(s: State, id: nat, limits: Limits)
    requires Inv(s, limits) && id in s.open && s.open[id].Counted?
    ensures forall other | other in s.open && other != id && s.open[other].Counted? ::
      s.open[other].parent != s.open[id].parent
  {
    assert HoldsLock(s, id);
    forall other | other in s.open && other != id && s.open[other].Counted?
      ensures s.open[other].parent != s.open[id].parent
    {
      assert HoldsLock(s, other);
    }
  }

  lemma {:induction false} InvAlways(s: State, steps: seq<Step>, limits: Limits)
    requires Inv(s, limits) && AllEnabled(s, steps, limits, true)
    ensures Inv(Run(s, steps, limits, true), limits)
    decreases |steps|
  {
    if steps != [] {
      StepKeepsInv(s, steps[0], limits);
      InvAlways(Next(s, steps[0], limits, true), steps[1..], limits);
    }
  }

  // ---- counting the tree -------------------------------------------------------------

  /** b + b^2 + … + b^d. */
  function Geometric(b: nat, d: nat): nat { if d == 0 then 0 else Pow(b, d) + Geometric(b, d - 1) }

  /** The runs n parents below the root. */
  function Generation(runs: Runs, root: RunId, n: nat): set<RunId> {
    if n == 0 then {root} else Children(runs, Generation(runs, root, n - 1))
  }

  function Upto(runs: Runs, root: RunId, n: nat): set<RunId> {
    if n == 0 then {} else Generation(runs, root, n) + Upto(runs, root, n - 1)
  }

  lemma {:induction false} FamilySize(runs: Runs, parents: set<RunId>, limits: Limits)
    requires FanOutBounded(runs, limits) && parents <= runs.Keys
    ensures |Children(runs, parents)| <= limits.children * |parents|
    decreases |parents|
  {
    if parents == {} {
      assert Children(runs, parents) == {};
    } else {
      var p :| p in parents;
      var rest := parents - {p};
      FamilySize(runs, rest, limits);
      assert Children(runs, parents) == Children(runs, {p}) + Children(runs, rest);
      UnionSize(Children(runs, {p}), Children(runs, rest));
      OneMore(limits.children, |rest|);
      assert |parents| == |rest| + 1;
    }
  }

  lemma OneMore(a: nat, b: nat)
    ensures a + a * b == a * (b + 1)
  {}

  lemma {:induction false} GenerationInRuns(runs: Runs, root: RunId, n: nat)
    requires root in runs
    ensures Generation(runs, root, n) <= runs.Keys
  {
    if n > 0 { GenerationInRuns(runs, root, n - 1); }
  }

  lemma {:induction false} GenerationSize(runs: Runs, root: RunId, n: nat, limits: Limits)
    requires FanOutBounded(runs, limits) && root in runs
    ensures |Generation(runs, root, n)| <= Pow(limits.children, n)
  {
    if n > 0 {
      GenerationInRuns(runs, root, n - 1);
      GenerationSize(runs, root, n - 1, limits);
      FamilySize(runs, Generation(runs, root, n - 1), limits);
      Monotone(limits.children, |Generation(runs, root, n - 1)|, Pow(limits.children, n - 1));
    }
  }

  lemma Monotone(a: nat, b: nat, c: nat)
    requires b <= c
    ensures a * b <= a * c
  {}

  lemma {:induction false} UptoSize(runs: Runs, root: RunId, n: nat, limits: Limits)
    requires FanOutBounded(runs, limits) && root in runs
    ensures |Upto(runs, root, n)| <= Geometric(limits.children, n)
  {
    if n > 0 {
      UptoSize(runs, root, n - 1, limits);
      OneMoreGeneration(runs, root, n, limits, Geometric(limits.children, n - 1));
    }
  }

  lemma OneMoreGeneration(runs: Runs, root: RunId, n: nat, limits: Limits, sum: nat)
    requires FanOutBounded(runs, limits) && root in runs && n > 0 && |Upto(runs, root, n - 1)| <= sum
    ensures |Upto(runs, root, n)| <= Pow(limits.children, n) + sum
  {
    GenerationSize(runs, root, n, limits);
    AddSizes(Generation(runs, root, n), Upto(runs, root, n - 1), Pow(limits.children, n), sum);
  }

  lemma AddSizes(a: set<RunId>, b: set<RunId>, m: nat, n: nat)
    requires |a| <= m && |b| <= n
    ensures |a + b| <= m + n
  {
    UnionSize(a, b);
  }

  /** Some chain of parents leads from the run to the root. */
  predicate Below(runs: Runs, r: RunId, root: RunId, limits: Limits)
    requires WellParented(runs, limits) && r in runs
    decreases runs[r].depth
  {
    assert NodeOk(runs, r, limits);
    runs[r].parent.Some? && (runs[r].parent.value == root || Below(runs, runs[r].parent.value, root, limits))
  }

  function Descendants(runs: Runs, root: RunId, limits: Limits): set<RunId>
    requires WellParented(runs, limits)
  {
    set r | r in runs && Below(runs, r, root, limits)
  }

  lemma {:induction false} BelowIsInAGeneration(runs: Runs, r: RunId, root: RunId, limits: Limits)
    requires WellParented(runs, limits) && r in runs && root in runs && Below(runs, r, root, limits)
    ensures runs[root].depth < runs[r].depth && r in Generation(runs, root, runs[r].depth - runs[root].depth)
    decreases runs[r].depth
  {
    assert NodeOk(runs, r, limits);
    var p := runs[r].parent.value;
    if p != root {
      BelowIsInAGeneration(runs, p, root, limits);
    }
  }

  lemma {:induction false} UptoHolds(runs: Runs, root: RunId, n: nat, m: nat, r: RunId)
    requires 1 <= m <= n && r in Generation(runs, root, m)
    ensures r in Upto(runs, root, n)
  {
    if m < n { UptoHolds(runs, root, n - 1, m, r); }
  }

  /**
   * In every interleaving of admissions a run has at most B children, nothing is
   * deeper than D, and a submitted run has at most B + B^2 + … + B^D descendants.
   */
  lemma TreeIsBounded(steps: seq<Step>, limits: Limits, root: RunId)
    requires AllEnabled(Empty, steps, limits, true) && root in Run(Empty, steps, limits, true).runs
    ensures var runs := Run(Empty, steps, limits, true).runs;
      && WellParented(runs, limits)
      && |Children(runs, {root})| <= limits.children && runs[root].depth <= limits.depth
      && |Descendants(runs, root, limits)| <= Geometric(limits.children, limits.depth)
  {
    InvAlways(Empty, steps, limits);
    assert NodeOk(Run(Empty, steps, limits, true).runs, root, limits);
    DescendantsAreFew(Run(Empty, steps, limits, true).runs, root, limits);
  }

  lemma DescendantsAreFew(runs: Runs, root: RunId, limits: Limits)
    requires WellParented(runs, limits) && FanOutBounded(runs, limits) && root in runs
    ensures |Descendants(runs, root, limits)| <= Geometric(limits.children, limits.depth)
  {
    BelowIsUpto(runs, root, limits);
    UptoSize(runs, root, limits.depth, limits);
    SubsetSize(Descendants(runs, root, limits), Upto(runs, root, limits.depth));
  }

  lemma BelowIsUpto(runs: Runs, root: RunId, limits: Limits)
    requires WellParented(runs, limits) && root in runs
    ensures Descendants(runs, root, limits) <= Upto(runs, root, limits.depth)
  {
    forall r | r in runs && Below(runs, r, root, limits) ensures r in Upto(runs, root, limits.depth) {
      assert NodeOk(runs, r, limits);
      BelowIsInAGeneration(runs, r, root, limits);
      UptoHolds(runs, root, limits.depth, runs[r].depth - runs[root].depth, r);
    }
  }

  const Racing := [SubmitRoot(0), Check(1, 0), Check(2, 0), Count(1), Count(2)]
  const Passing := [InsertChild(1, 1), InsertChild(2, 2)]

  /** Without the lock two admissions count the same children, and both pass. */
  lemma CountingWithoutTheLockOverruns(depth: nat)
    requires depth >= 1
    ensures AllEnabled(Empty, Racing + Passing, Limits(1, depth), false)
    ensures !FanOutBounded(Run(Empty, Racing + Passing, Limits(1, depth), false).runs, Limits(1, depth))
  {
    var limits, steps := Limits(1, depth), Racing + Passing;
    var s1 := Next(Empty, steps[0], limits, false);
    var s2 := Next(s1, steps[1], limits, false);
    var s3 := Next(s2, steps[2], limits, false);
    assert Children(s3.runs, {0}) == {};
    var s4 := Next(s3, steps[3], limits, false);
    var s5 := Next(s4, steps[4], limits, false);
    var final := BothPass(s5, limits);
    assert steps[5..] == Passing;
    Chained(s4, steps[4..], limits, final);
    Chained(s3, steps[3..], limits, final);
    Chained(s2, steps[2..], limits, final);
    Chained(s1, steps[1..], limits, final);
    Chained(Empty, steps, limits, final);
  }

  lemma BothPass(s: State, limits: Limits) returns (final: State)
    requires s.runs == map[0 := Node(None, 0)] && 1 in s.open && 2 in s.open
    requires s.open[1] == s.open[2] == Counted(0, 0) && limits.children == 1
    ensures AllEnabled(s, Passing, limits, false) && Run(s, Passing, limits, false) == final
    ensures !FanOutBounded(final.runs, limits)
  {
    var s1 := Next(s, Passing[0], limits, false);
    final := Next(s1, Passing[1], limits, false);
    assert Children(final.runs, {0}) == {1, 2};
    Chained(s1, Passing[1..], limits, final);
    Chained(s, Passing, limits, final);
  }

  lemma Chained(s: State, steps: seq<Step>, limits: Limits, final: State)
    requires steps != [] && Enabled(s, steps[0], limits, false)
    requires AllEnabled(Next(s, steps[0], limits, false), steps[1..], limits, false)
    requires Run(Next(s, steps[0], limits, false), steps[1..], limits, false) == final
    ensures AllEnabled(s, steps, limits, false) && Run(s, steps, limits, false) == final
  {}
}
