/**
  Ratio checks by pairing, and random linear combinations of points. A point stands for its
  discrete logarithm; a check that holds for every choice of randomness is the element-wise check.
 */
module Pairing {
  import opened Field

  type Scalar = nat
  type G1 = nat
  type G2 = nat

  /** Every logarithm is a field element. */
  ghost predicate AllIn(p: nat, points: seq<nat>) {
    forall i :: 0 <= i < |points| ==> points[i] < p
  }

  /** e(a, d) == e(b, c): the pairs (a, b) and (c, d) have the same ratio. */
  predicate SameRatio(p: nat, a: G1, b: G1, c: G2, d: G2)
    requires 0 < p
  {
    Mul(p, a, d) == Mul(p, b, c)
  }

  /** With a nonzero base, a common ratio is a scalar that maps each first element to the second. */
  lemma RatioScalar(p: nat, a: G1, b: G1, c: G2, d: G2)
    requires Prime(p) && b < p && 0 < c < p && d < p
    ensures var k := Mul(p, d, Inv(p, c));
      && d == Mul(p, k, c)
      && (SameRatio(p, a, b, c, d) <==> b == Mul(p, k, a))
  {
    hide Mul, Inv, Prime;
    var k := Mul(p, d, Inv(p, c));
    MulDiv(p, d, c);
    MulCommutes(p, a, d);
    MulAssociates(p, k, c, a);
    MulCommutes(p, c, a);
    MulAssociates(p, k, a, c);
    if SameRatio(p, a, b, c, d) {
      Cancel(p, b, Mul(p, k, a), c);
    }
  }

  /** The sum of exponent times base. */
  ghost function Dot(p: nat, exponents: seq<Scalar>, bases: seq<nat>): (r: nat)
    requires 0 < p && |exponents| == |bases|
    ensures r < p
  {
    var last := |bases| - 1;
    if last < 0 then 0
    else Add(p, Dot(p, exponents[..last], bases[..last]), Mul(p, exponents[last], bases[last]))
  }

  /** The same ratio for every pair of elements. */
  ghost predicate SameRatios(p: nat, a: seq<G1>, b: seq<G1>, c: G2, d: G2)
    requires 0 < p && |a| == |b|
  {
    forall i :: 0 <= i < |a| ==> SameRatio(p, a[i], b[i], c, d)
  }

  /** The pair that merges two vectors, weighed with the same randomness, has their common ratio. */
  lemma {:induction false} MergedRatio(p: nat, r: seq<Scalar>, a: seq<G1>, b: seq<G1>, c: G2, d: G2)
    requires 0 < p && |r| == |a| == |b| && SameRatios(p, a, b, c, d)
    ensures SameRatio(p, Dot(p, r, a), Dot(p, r, b), c, d)
  {
    hide Mul, Add;
    var last := |a| - 1;
    if last < 0 {
      MulZero(p, c);
      MulZero(p, d);
    } else {
      MergedRatio(p, r[..last], a[..last], b[..last], c, d);
      assert SameRatio(p, a[last], b[last], c, d);
      DotStep(p, r, a, d);
      DotStep(p, r, b, c);
    }
  }

  /** Scaling a sum scales its last term and the sum before it. */
  lemma DotStep(p: nat, r: seq<Scalar>, a: seq<nat>, d: nat)
    requires 0 < p && |r| == |a| > 0
    ensures var last := |a| - 1;
      Mul(p, Dot(p, r, a), d) == Add(p, Mul(p, Dot(p, r[..last], a[..last]), d), Mul(p, r[last], Mul(p, a[last], d)))
  {
    hide Mul, Add;
    var last := |a| - 1;
    var x, y := Dot(p, r[..last], a[..last]), Mul(p, r[last], a[last]);
    MulCommutes(p, Add(p, x, y), d);
    Distributes(p, d, x, y);
    MulCommutes(p, d, x);
    MulCommutes(p, d, y);
    MulAssociates(p, r[last], a[last], d);
  }

  /** All randomness but one coordinate zero. */
  function Unit(n: nat, i: nat): (e: seq<Scalar>)
    requires i < n
    ensures |e| == n
  {
    seq(n, j => if j == i then 1 else 0)
  }

  lemma {:induction false} DotZero(p: nat, r: seq<Scalar>, a: seq<nat>)
    requires 0 < p && |r| == |a| && forall i :: 0 <= i < |r| ==> r[i] == 0
    ensures Dot(p, r, a) == 0
  {
    hide Mul, Add;
    var last := |a| - 1;
    if last >= 0 {
      DotZero(p, r[..last], a[..last]);
      MulZero(p, a[last]);
      AddLaws(p, 0, 0, 0);
    }
  }

  lemma {:induction false} DotUnit(p: nat, a: seq<nat>, i: nat)
    requires 1 < p && AllIn(p, a) && i < |a|
    ensures Dot(p, Unit(|a|, i), a) == a[i]
  {
    hide Mul, Add;
    var last := |a| - 1;
    var r := Unit(|a|, i);
    MulUnit(p, a[last]);
    MulZero(p, a[last]);
    if i == last {
      DotZero(p, r[..last], a[..last]);
      AddLaws(p, a[last], 0, 0);
    } else {
      assert r[..last] == Unit(last, i);
      DotUnit(p, a[..last], i);
      AddLaws(p, a[i], 0, 0);
    }
  }

  /** The merged check under every randomness is the check of every element. */
  ghost predicate MergesAlways(p: nat, a: seq<G1>, b: seq<G1>, c: G2, d: G2)
    requires 0 < p && |a| == |b|
  {
    forall r: seq<Scalar> :: |r| == |a| && AllIn(p, r) ==> SameRatio(p, Dot(p, r, a), Dot(p, r, b), c, d)
  }

  lemma MergeIffElementwise(p: nat, a: seq<G1>, b: seq<G1>, c: G2, d: G2)
    requires 1 < p && |a| == |b| && AllIn(p, a) && AllIn(p, b)
    ensures MergesAlways(p, a, b, c, d) <==> SameRatios(p, a, b, c, d)
  {
    hide Mul, Add;
    if MergesAlways(p, a, b, c, d) {
      forall i | 0 <= i < |a| ensures SameRatio(p, a[i], b[i], c, d) {
        var r := Unit(|a|, i);
        assert AllIn(p, r);
        DotUnit(p, a, i);
        DotUnit(p, b, i);
        assert SameRatio(p, Dot(p, r, a), Dot(p, r, b), c, d);
      }
    }
    if SameRatios(p, a, b, c, d) {
      forall r: seq<Scalar> | |r| == |a| ensures SameRatio(p, Dot(p, r, a), Dot(p, r, b), c, d) {
        MergedRatio(p, r, a, b, c, d);
      }
    }
  }
}
