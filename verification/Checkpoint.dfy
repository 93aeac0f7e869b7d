// The checkpoint column: which entrypoint phases are done, as a list in the contract's order.
module Checkpoint {
  import opened Phases
  import opened ArrayLiteral

  /** The phases of a set from one position on, in the contract's execution order. */
  function InOrder(done: set<RuntimePhase>, from: nat): seq<RuntimePhase>
    requires from <= 19
    decreases 19 - from
  {
    if from == 19 then []
    else if from in done then [from] + InOrder(done, from + 1) else InOrder(done, from + 1)
  }

  function SetOf(phases: seq<RuntimePhase>): set<RuntimePhase> { set p | p in phases }

  function NormalForm(phases: seq<RuntimePhase>): seq<RuntimePhase> { InOrder(SetOf(phases), 0) }

  predicate Increasing(list: seq<RuntimePhase>) { forall i, j | 0 <= i < j < |list| :: list[i] < list[j] }

  lemma {:induction false} InOrderIsSorted(done: set<RuntimePhase>, from: nat)
    requires from <= 19
    ensures Increasing(InOrder(done, from))
    ensures SetOf(InOrder(done, from)) == set p | p in done && p >= from
    decreases 19 - from
  {
    if from < 19 {
      InOrderIsSorted(done, from + 1);
      var rest := InOrder(done, from + 1);
      forall i | 0 <= i < |rest| ensures rest[i] > from {
        assert rest[i] in SetOf(rest);
      }
      var list := InOrder(done, from);
      assert list == if from in done then [from] + rest else rest;
      forall p: RuntimePhase ensures p in list <==> p in done && p >= from {
        assert p in rest <==> p in SetOf(rest);
      }
    }
  }

  /** There is one increasing list of a set. */
  lemma {:induction false} SortedIsUnique(a: seq<RuntimePhase>, b: seq<RuntimePhase>)
    requires Increasing(a) && Increasing(b) && SetOf(a) == SetOf(b)
    ensures a == b
    decreases |a|
  {
    assert a == [] || a[0] in SetOf(a);
    assert b == [] || b[0] in SetOf(b);
    if a != [] && b != [] {
      var j :| 0 <= j < |b| && b[j] == a[0];
      var i :| 0 <= i < |a| && a[i] == b[0];
      assert a[0] == b[0];
      WithoutFirst(a);
      WithoutFirst(b);
      SortedIsUnique(a[1..], b[1..]);
    }
  }

  lemma WithoutFirst(list: seq<RuntimePhase>)
    requires Increasing(list) && list != []
    ensures SetOf(list[1..]) == SetOf(list) - {list[0]}
  {
    forall p | p in SetOf(list) - {list[0]} ensures p in list[1..] {
      var i :| 0 <= i < |list| && list[i] == p;
      assert list[1..][i - 1] == p;
    }
  }

  /** The normal form is duplicate-free, in contract order, and one for every list of the same phases. */
  lemma NormalFormIsCanonical(a: seq<RuntimePhase>, b: seq<RuntimePhase>)
    ensures Increasing(NormalForm(a)) && SetOf(NormalForm(a)) == SetOf(a)
    ensures NormalForm(a) == NormalForm(b) <==> SetOf(a) == SetOf(b)
  {
    InOrderIsSorted(SetOf(a), 0);
    InOrderIsSorted(SetOf(b), 0);
  }

  lemma SetOfBoth(a: seq<RuntimePhase>, b: seq<RuntimePhase>)
    ensures SetOf(a + b) == SetOf(a) + SetOf(b)
  {}

  /** Checkpoints add up to the same list in whatever order, and however often, they arrive. */
  lemma UnionIgnoresOrder(a: seq<RuntimePhase>, b: seq<RuntimePhase>)
    ensures NormalForm(a + b) == NormalForm(b + a) == NormalForm(a + b + a)
    ensures NormalForm(NormalForm(a) + b) == NormalForm(a + b)
  {
    SetOfBoth(a, b);
    SetOfBoth(b, a);
    SetOfBoth(a + b, a);
    SetOfBoth(NormalForm(a), b);
    NormalFormIsCanonical(a, b);
    assert SetOf(a + b) == SetOf(b + a) == SetOf(a + b + a) == SetOf(NormalForm(a) + b);
  }

  // ---- by name ------------------------------------------------------------------------

  /** The names of the phases, in the contract's order. */
  predicate Names(names: seq<Bytes>) {
    |names| == 19 && forall i, j | 0 <= i < j < 19 :: names[i] != names[j]
  }

  function NamesOf(phases: seq<RuntimePhase>, names: seq<Bytes>): seq<Bytes>
    requires |names| == 19
  {
    if phases == [] then [] else [names[phases[0]]] + NamesOf(phases[1..], names)
  }

  function Recognised(got: seq<Bytes>, names: seq<Bytes>): set<RuntimePhase>
    requires |names| == 19
  {
    set p: RuntimePhase | 0 <= p < 19 && names[p] in got
  }

  method RuntimePhaseArray(phases: seq<RuntimePhase>, names: seq<Bytes>) returns (literal: Bytes)
    requires Names(names)
    ensures literal == Literal(NamesOf(NormalForm(phases), names))
  {
    var seen: set<RuntimePhase> := {};
    for i := 0 to |phases|
      invariant seen == SetOf(phases[..i])
    {
      seen := seen + {phases[i]};
      assert phases[..i + 1] == phases[..i] + [phases[i]];
    }
    assert phases[..|phases|] == phases;
    var out := Listed(seen, names);
    literal := TextArray(out);
  }

  method Listed(seen: set<RuntimePhase>, names: seq<Bytes>) returns (out: seq<Bytes>)
    requires |names| == 19
    ensures out == NamesOf(InOrder(seen, 0), names)
  {
    out := [];
    for p := 0 to 19
      invariant out + NamesOf(InOrder(seen, p), names) == NamesOf(InOrder(seen, 0), names)
    {
      if p in seen {
        assert InOrder(seen, p)[1..] == InOrder(seen, p + 1);
        out := out + [names[p]];
      }
    }
  }

  /** A name this build does not know is dropped; what is left comes in the contract's order, once each. */
  method RuntimePhases(got: seq<Bytes>, names: seq<Bytes>) returns (out: seq<RuntimePhase>)
    requires Names(names)
    ensures out == InOrder(Recognised(got, names), 0)
  {
    out := [];
    ghost var done := Recognised(got, names);
    for p := 0 to 19
      invariant out + InOrder(done, p) == InOrder(done, 0)
    {
      var found := Contains(got, names[p]);
      assert found <==> p in done;
      if found {
        out := out + [p];
      }
    }
  }

  method Contains(got: seq<Bytes>, name: Bytes) returns (found: bool)
    ensures found == (name in got)
  {
    for i := 0 to |got|
      invariant name !in got[..i]
    {
      if got[i] == name { return true; }
    }
    return false;
  }

  lemma {:induction false} NamedOnce(phases: seq<RuntimePhase>, names: seq<Bytes>, p: RuntimePhase)
    requires Names(names)
    ensures names[p] in NamesOf(phases, names) <==> p in phases
  {
    if phases != [] {
      NamedOnce(phases[1..], names, p);
    }
  }

  /**
   * A column that holds the names of some phases, in any order, repeated, and
   * among names since forgotten, reads back as the normal form of those phases.
   */
  lemma CheckpointRoundTrips(phases: seq<RuntimePhase>, names: seq<Bytes>, stored: seq<Bytes>)
    requires Names(names) && forall p: RuntimePhase | 0 <= p < 19 :: names[p] in stored <==> names[p] in NamesOf(phases, names)
    ensures InOrder(Recognised(stored, names), 0) == NormalForm(phases)
  {
    forall p: RuntimePhase ensures p in Recognised(stored, names) <==> p in SetOf(phases) {
      NamedOnce(phases, names, p);
    }
    assert Recognised(stored, names) == SetOf(phases);
  }
}
