// Powers and cardinalities, as several parts of the model count with them.
module Numbers {

  function Min(a: nat, b: nat): nat { if a < b then a else b }

  function Pow(base: nat, e: nat): nat { if e == 0 then 1 else base * Pow(base, e - 1) }

  lemma {:induction false} PowAdds(base: nat, a: nat, b: nat)
    ensures Pow(base, a + b) == Pow(base, a) * Pow(base, b)
  {
    if b > 0 {
      PowAdds(base, a, b - 1);
      Regroup(base, Pow(base, a), Pow(base, b - 1));
    }
  }

  lemma Regroup(x: nat, y: nat, z: nat)
    ensures x * (y * z) == y * (x * z)
  {}

  lemma {:induction false} PowGrows(base: nat, a: nat, b: nat)
    requires base >= 1 && a <= b
    ensures 1 <= Pow(base, a) <= Pow(base, b)
    decreases b
  {
    if b > 0 {
      if a < b { PowGrows(base, a, b - 1); } else { PowGrows(base, b - 1, b - 1); }
      Multiplied(base, Pow(base, b - 1));
    }
  }

  lemma Multiplied(x: nat, y: nat)
    requires x >= 1
    ensures y <= x * y
  {}

  lemma SubsetSize<T>(a: set<T>, b: set<T>)
    requires a <= b
    ensures |a| <= |b|
    ensures |a| == |b| ==> a == b
  {
    assert b == a + (b - a);
  }

  lemma UnionSize<T>(a: set<T>, b: set<T>)
    ensures |a + b| <= |a| + |b|
  {
    assert a + b == a + (b - a);
  }
}
