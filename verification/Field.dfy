/**
  The field of integers modulo a prime. Points of a pairing-friendly group are represented by
  their discrete logarithms in this field: adding points adds logarithms, multiplying a point by
  a scalar multiplies, and pairing two points multiplies their logarithms.
 */
module Field {
  import opened Arith

  predicate Prime(p: nat) {
    2 <= p && forall d :: 2 <= d < p ==> p % d != 0
  }

  function Add(p: nat, a: int, b: int): (r: nat)
    requires 0 < p
    ensures r < p
  {
    (a + b) % p
  }

  function Mul(p: nat, a: int, b: int): (r: nat)
    requires 0 < p
    ensures r < p
  {
    (a * b) % p
  }

  function Neg(p: nat, a: int): (r: nat)
    requires 0 < p
    ensures r < p
  {
    (-a) % p
  }

  function Pow(p: nat, a: int, n: nat): (r: nat)
    requires 1 < p
    ensures r < p
  {
    if n == 0 then 1 else Mul(p, a, Pow(p, a, n - 1))
  }

  // ----- congruences

  lemma AddMultiple(p: nat, a: int, k: int)
    requires 0 < p
    ensures (a + k * p) % p == a % p
  {
    var q, r := a / p + k, a % p;
    assert a + k * p == q * p + r;
    DivUnique(a + k * p, p, q, r);
  }

  /** Equal up to a multiple of `p` means equal remainders. */
  lemma Congruent(p: nat, a: int, b: int, k: int)
    requires 0 < p && a == b + k * p
    ensures a % p == b % p
  {
    AddMultiple(p, b, k);
  }

  lemma Decompose(p: nat, a: int) returns (k: int)
    requires 0 < p
    ensures a % p == a + k * p
  {
    k := -(a / p);
  }

  lemma MulMod(p: nat, a: int, b: int)
    requires 0 < p
    ensures Mul(p, a % p, b) == Mul(p, a, b)
  {
    var k := Decompose(p, a);
    assert (a % p) * b == a * b + (k * b) * p;
    Congruent(p, (a % p) * b, a * b, k * b);
  }

  lemma AddMod(p: nat, a: int, b: int)
    requires 0 < p
    ensures Add(p, a % p, b) == Add(p, a, b)
  {
    var k := Decompose(p, a);
    Congruent(p, a % p + b, a + b, k);
  }

  // ----- ring laws

  lemma MulCommutes(p: nat, a: int, b: int)
    requires 0 < p
    ensures Mul(p, a, b) == Mul(p, b, a)
  {
    assert a * b == b * a;
  }

  lemma MulAssociates(p: nat, a: int, b: int, c: int)
    requires 0 < p
    ensures Mul(p, Mul(p, a, b), c) == Mul(p, a, Mul(p, b, c))
  {
    MulMod(p, a * b, c);
    MulMod(p, b * c, a);
    assert (a * b) * c == (b * c) * a;
    MulCommutes(p, Mul(p, b, c), a);
  }

  lemma MulUnit(p: nat, a: nat)
    requires a < p && 1 < p
    ensures Mul(p, 1, a) == a == Mul(p, a, 1)
  {
    DivUnique(a, p, 0, a);
  }

  lemma MulZero(p: nat, a: int)
    requires 0 < p
    ensures Mul(p, 0, a) == 0 == Mul(p, a, 0)
  {
    DivUnique(0, p, 0, 0);
  }

  lemma AddLaws(p: nat, a: nat, b: nat, c: nat)
    requires a < p
    ensures Add(p, a, b) == Add(p, b, a)
    ensures Add(p, Add(p, a, b), c) == Add(p, a, Add(p, b, c))
    ensures Add(p, 0, a) == a == Add(p, a, 0)
    ensures Add(p, a, Neg(p, a)) == 0
  {
    AddMod(p, a + b, c);
    AddMod(p, b + c, a);
    DivUnique(a, p, 0, a);
    AddMod(p, 0 - a, a);
    DivUnique(0, p, 0, 0);
  }

  lemma Distributes(p: nat, a: int, b: int, c: int)
    requires 0 < p
    ensures Mul(p, a, Add(p, b, c)) == Add(p, Mul(p, a, b), Mul(p, a, c))
  {
    assert Mul(p, b + c, a) == Add(p, a * b, a * c) by {
      assert (b + c) * a == a * b + a * c;
    }
    MulMod(p, b + c, a);
    MulCommutes(p, a, Add(p, b, c));
    AddProducts(p, a * b, a * c);
  }

  lemma AddProducts(p: nat, x: int, y: int)
    requires 0 < p
    ensures Add(p, x % p, y % p) == Add(p, x, y)
  {
    AddMod(p, x, y % p);
    AddMod(p, y, x);
  }

  // ----- inverses

  /** Coefficients of a greatest common divisor. */
  datatype Bezout = Bezout(g: nat, x: int, y: int)

  function Euclid(a: nat, b: nat): Bezout
    decreases b
  {
    if b == 0 then Bezout(a, 1, 0)
    else
      var r := Euclid(b, a % b);
      Bezout(r.g, r.y, r.x - (a / b) * r.y)
  }

  predicate Divides(d: nat, a: nat) {
    d != 0 && a % d == 0
  }

  lemma DividesSum(d: nat, a: nat, b: nat, k: int)
    requires Divides(d, b) && Divides(d, a)
    requires 0 <= a + k * b
    ensures Divides(d, a + k * b)
  {
    var m := k * (b / d);
    assert b == d * (b / d);
    assert k * b == m * d;
    Congruent(d, a + k * b, a, m);
  }

  lemma {:induction false} EuclidDivides(a: nat, b: nat)
    requires 0 < a
    ensures Divides(Euclid(a, b).g, a) && Divides(Euclid(a, b).g, b)
    decreases b
  {
    if b == 0 {
      DivUnique(a, a, 1, 0);
      DivUnique(0, a, 0, 0);
    } else {
      EuclidDivides(b, a % b);
      assert a == a % b + (a / b) * b;
      DividesSum(Euclid(a, b).g, a % b, b, a / b);
    }
  }

  lemma {:induction false} EuclidCombines(a: nat, b: nat)
    ensures var r := Euclid(a, b); a * r.x + b * r.y == r.g
    decreases b
  {
    if b != 0 {
      EuclidCombines(b, a % b);
      var r := Euclid(b, a % b);
      BezoutStep(a, b, a / b, a % b, r.x, r.y);
    }
  }

  lemma BezoutStep(a: int, b: int, q: int, rem: int, x: int, y: int)
    requires a == q * b + rem
    ensures a * y + b * (x - q * y) == b * x + rem * y
  {
    assert a * y == q * b * y + rem * y;
    assert b * (x - q * y) == b * x - b * (q * y);
    assert b * (q * y) == q * b * y;
  }

  /** The inverse of a nonzero element. */
  function Inv(p: nat, a: nat): (r: nat)
    requires Prime(p)
    ensures r < p
  {
    Euclid(p, a).y % p
  }

  lemma PrimeHasNoDivisors(p: nat, d: nat)
    requires Prime(p) && Divides(d, p) && d < p
    ensures d == 1
  {
  }

  lemma DivisorIsSmall(d: nat, a: nat)
    requires Divides(d, a) && 0 < a
    ensures d <= a
  {
    if a < d {
      DivUnique(a, d, 0, a);
    }
  }

  lemma MulInverse(p: nat, a: nat)
    requires Prime(p) && 0 < a < p
    ensures Mul(p, a, Inv(p, a)) == 1 == Mul(p, Inv(p, a), a)
    ensures 0 < Inv(p, a)
  {
    var r := Euclid(p, a);
    EuclidDivides(p, a);
    EuclidCombines(p, a);
    DivisorIsSmall(r.g, a);
    PrimeHasNoDivisors(p, r.g);
    hide Prime, Euclid;
    MulMod(p, r.y, a);
    BezoutUnit(p, a, r.x, r.y);
    hide Mul;
    MulCommutes(p, a, Inv(p, a));
    MulZero(p, a);
  }

  lemma BezoutUnit(p: nat, a: nat, x: int, y: int)
    requires 1 < p && p * x + a * y == 1
    ensures Mul(p, y, a) == 1
  {
    assert y * a == 1 + (-x) * p;
    Congruent(p, y * a, 1, -x);
    DivUnique(1, p, 0, 1);
  }

  lemma MulSwap(p: nat, a: nat, b: nat, c: nat)
    requires 0 < p
    ensures Mul(p, a, Mul(p, b, c)) == Mul(p, b, Mul(p, a, c))
  {
    MulAssociates(p, a, b, c);
    MulAssociates(p, b, a, c);
    MulCommutes(p, a, b);
  }

  /** Multiplying and then dividing by a nonzero element changes nothing. */
  lemma MulDiv(p: nat, a: nat, c: nat)
    requires Prime(p) && a < p && 0 < c < p
    ensures Mul(p, Mul(p, a, c), Inv(p, c)) == a == Mul(p, Mul(p, a, Inv(p, c)), c)
  {
    hide Mul, Inv, Prime;
    MulInverse(p, c);
    MulAssociates(p, a, c, Inv(p, c));
    MulAssociates(p, a, Inv(p, c), c);
    MulUnit(p, a);
  }

  lemma Cancel(p: nat, a: nat, b: nat, c: nat)
    requires Prime(p) && a < p && b < p && 0 < c < p
    requires Mul(p, a, c) == Mul(p, b, c)
    ensures a == b
  {
    hide Mul, Inv;
    MulDiv(p, a, c);
    MulDiv(p, b, c);
  }

  lemma MulNonzero(p: nat, a: nat, b: nat)
    requires Prime(p) && 0 < a < p && 0 < b < p
    ensures 0 < Mul(p, a, b)
  {
    hide Mul, Inv;
    MulZero(p, b);
    if Mul(p, a, b) == 0 {
      Cancel(p, a, 0, b);
    }
  }

  lemma {:induction false} PowAdd(p: nat, a: nat, m: nat, n: nat)
    requires 1 < p
    ensures Pow(p, a, m + n) == Mul(p, Pow(p, a, m), Pow(p, a, n))
  {
    hide Mul;
    if m == 0 {
      MulUnit(p, Pow(p, a, n));
    } else {
      PowAdd(p, a, m - 1, n);
      MulAssociates(p, a, Pow(p, a, m - 1), Pow(p, a, n));
    }
  }

  lemma {:induction false} PowMul(p: nat, a: nat, b: nat, n: nat)
    requires 1 < p
    ensures Pow(p, Mul(p, a, b), n) == Mul(p, Pow(p, a, n), Pow(p, b, n))
  {
    hide Mul;
    if n == 0 {
      MulUnit(p, 1);
    } else {
      PowMul(p, a, b, n - 1);
      MulPairs(p, a, b, Pow(p, a, n - 1), Pow(p, b, n - 1));
    }
  }

  /** (a b)(c d) = (a c)(b d) */
  lemma MulPairs(p: nat, a: nat, b: nat, c: nat, d: nat)
    requires 0 < p
    ensures Mul(p, Mul(p, a, b), Mul(p, c, d)) == Mul(p, Mul(p, a, c), Mul(p, b, d))
  {
    hide Mul;
    MulAssociates(p, a, b, Mul(p, c, d));
    MulSwap(p, b, c, d);
    MulAssociates(p, a, c, Mul(p, b, d));
  }
}
