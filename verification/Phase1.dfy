/**
  Phase 1 contributions: every element of the accumulator is raised to a power of the secret tau,
  with the secrets alpha and beta as extra factors, batch by batch with overlapping batches.
  Contributions compose to one with the product of the secrets.
 */
module Phase1 {
  import opened Arith
  import opened Field
  import opened Pairing
  import opened Multiexp

  datatype Key = Key(tau: Scalar, alpha: Scalar, beta: Scalar)

  function Product(p: nat, k: Key, l: Key): Key
    requires 0 < p
  {
    Key(Mul(p, k.tau, l.tau), Mul(p, k.alpha, l.alpha), Mul(p, k.beta, l.beta))
  }

  // ----- exponents

  /** tau to the power n, times a coefficient. */
  function Exponent(p: nat, tau: Scalar, n: nat, coeff: Scalar): (r: nat)
    requires 1 < p
    ensures r < p
  {
    Mul(p, Pow(p, tau, n), coeff)
  }

  /** Elements raised to consecutive powers, the first of them the power `lo`. */
  function Raised(p: nat, points: seq<nat>, tau: Scalar, coeff: Scalar, lo: nat): (r: seq<nat>)
    requires 1 < p
    ensures |r| == |points| && AllIn(p, r)
    ensures forall i :: 0 <= i < |points| ==> r[i] == Mul(p, points[i], Exponent(p, tau, lo + i, coeff))
  {
    seq(|points|, i requires 0 <= i < |points| => Mul(p, points[i], Exponent(p, tau, lo + i, coeff)))
  }

  lemma ExponentComposes(p: nat, tau: Scalar, tau': Scalar, n: nat, c: Scalar, c': Scalar)
    requires 1 < p
    ensures Mul(p, Exponent(p, tau, n, c), Exponent(p, tau', n, c')) == Exponent(p, Mul(p, tau, tau'), n, Mul(p, c, c'))
  {
    hide Mul;
    PowMul(p, tau, tau', n);
    MulPairs(p, Pow(p, tau, n), c, Pow(p, tau', n), c');
  }

  lemma RaisedComposes(p: nat, points: seq<nat>, tau: Scalar, tau': Scalar, c: Scalar, c': Scalar, lo: nat)
    requires 1 < p
    ensures Raised(p, Raised(p, points, tau, c, lo), tau', c', lo) == Raised(p, points, Mul(p, tau, tau'), Mul(p, c, c'), lo)
  {
    hide Mul, Exponent;
    forall i | 0 <= i < |points|
      ensures Raised(p, Raised(p, points, tau, c, lo), tau', c', lo)[i] ==
        Raised(p, points, Mul(p, tau, tau'), Mul(p, c, c'), lo)[i]
    {
      MulAssociates(p, points[i], Exponent(p, tau, lo + i, c), Exponent(p, tau', lo + i, c'));
      ExponentComposes(p, tau, tau', lo + i, c, c');
    }
  }

  // ----- Groth16

  datatype Accumulator = Accumulator(tauG1: seq<G1>, tauG2: seq<G2>, alphaG1: seq<G1>, betaG1: seq<G1>, betaG2: G2)

  /** The part of the accumulator whose first power is `lo`, after a contribution. */
  function Groth16(p: nat, acc: Accumulator, key: Key, lo: nat): Accumulator
    requires 1 < p
  {
    Accumulator(Raised(p, acc.tauG1, key.tau, 1, lo), Raised(p, acc.tauG2, key.tau, 1, lo),
                Raised(p, acc.alphaG1, key.tau, key.alpha, lo), Raised(p, acc.betaG1, key.tau, key.beta, lo),
                Mul(p, acc.betaG2, key.beta))
  }

  /** Two Groth16 contributions are one with the product key. */
  lemma Groth16Composes(p: nat, acc: Accumulator, key: Key, key': Key, lo: nat)
    requires 1 < p
    ensures Groth16(p, Groth16(p, acc, key, lo), key', lo) == Groth16(p, acc, Product(p, key, key'), lo)
  {
    hide Mul, Raised;
    MulUnit(p, 1);
    RaisedComposes(p, acc.tauG1, key.tau, key'.tau, 1, 1, lo);
    RaisedComposes(p, acc.tauG2, key.tau, key'.tau, 1, 1, lo);
    RaisedComposes(p, acc.alphaG1, key.tau, key'.tau, key.alpha, key'.alpha, lo);
    RaisedComposes(p, acc.betaG1, key.tau, key'.tau, key.beta, key'.beta, lo);
    MulAssociates(p, acc.betaG2, key.beta, key'.beta);
  }

  // ----- Marlin

  /** The powers that the degree bounds need: the length of the powers, plus one, minus a power of two. */
  function DegreeBound(length: nat, i: nat): nat
    requires Pow2(i) <= length + 1
  {
    length + 1 - Pow2(i)
  }

  /** All degree bounds up to the logarithm of the size exist. */
  ghost predicate Bounded(length: nat, log: nat) {
    forall i :: 0 <= i < log ==> Pow2(i) <= length + 1
  }

  /** The exponent of element `i` in G2: 1, tau, then the inverses of the degree-bound powers. */
  ghost function MarlinG2Exponent(p: nat, tau: Scalar, length: nat, log: nat, i: nat): (r: nat)
    requires Prime(p) && Bounded(length, log) && i < log + 2
    ensures r < p
  {
    if i < 2 then Pow(p, tau, i) else Inv(p, Pow(p, tau, DegreeBound(length, i - 2)))
  }

  /** The exponent of element `i` with alpha: tau^0..tau^2, then triples from each degree bound on. */
  ghost function MarlinAlphaExponent(p: nat, key: Key, length: nat, log: nat, i: nat): (r: nat)
    requires 1 < p && Bounded(length, log) && i < 3 + 3 * log
    ensures r < p
  {
    if i < 3 then Exponent(p, key.tau, i, key.alpha)
    else Exponent(p, key.tau, DegreeBound(length, (i - 3) / 3) + (i - 3) % 3, key.alpha)
  }

  datatype MarlinAccumulator = MarlinAccumulator(tauG1: seq<G1>, tauG2: seq<G2>, alphaG1: seq<G1>)

  /** The first chunk carries the elements of the degree bounds, the others only powers of tau. */
  ghost predicate MarlinShape(acc: MarlinAccumulator, length: nat, log: nat, first: bool) {
    && (first ==> Bounded(length, log) && |acc.tauG2| == log + 2 && |acc.alphaG1| == 3 + 3 * log)
    && (!first ==> acc.tauG2 == [] && acc.alphaG1 == [])
  }

  ghost function Marlin(p: nat, acc: MarlinAccumulator, key: Key, lo: nat, length: nat, log: nat, first: bool): (r: MarlinAccumulator)
    requires Prime(p) && MarlinShape(acc, length, log, first)
    ensures MarlinShape(r, length, log, first)
  {
    var tauG1 := Raised(p, acc.tauG1, key.tau, 1, lo);
    if first then
      MarlinAccumulator(tauG1, MarlinG2(p, acc.tauG2, key.tau, length, log), MarlinAlpha(p, acc.alphaG1, key, length, log))
    else
      MarlinAccumulator(tauG1, [], [])
  }

  ghost function MarlinG2(p: nat, points: seq<G2>, tau: Scalar, length: nat, log: nat): (r: seq<G2>)
    requires Prime(p) && Bounded(length, log) && |points| == log + 2
    ensures |r| == |points|
    ensures forall i :: 0 <= i < |r| ==> r[i] == Mul(p, points[i], MarlinG2Exponent(p, tau, length, log, i))
  {
    seq(|points|, i requires 0 <= i < |points| => Mul(p, points[i], MarlinG2Exponent(p, tau, length, log, i)))
  }

  ghost function MarlinAlpha(p: nat, points: seq<G1>, key: Key, length: nat, log: nat): (r: seq<G1>)
    requires 1 < p && Bounded(length, log) && |points| == 3 + 3 * log
    ensures |r| == |points|
    ensures forall i :: 0 <= i < |r| ==> r[i] == Mul(p, points[i], MarlinAlphaExponent(p, key, length, log, i))
  {
    seq(|points|, i requires 0 <= i < |points| => Mul(p, points[i], MarlinAlphaExponent(p, key, length, log, i)))
  }

  /** The inverse of a product; zero has the inverse zero here, as in a batch inversion that skips zeros. */
  lemma InverseOfProduct(p: nat, a: nat, b: nat)
    requires Prime(p) && a < p && b < p
    ensures Inv(p, Mul(p, a, b)) == Mul(p, Inv(p, a), Inv(p, b))
  {
    InverseOfZero(p);
    hide Mul, Inv, Prime;
    if a == 0 || b == 0 {
      MulZero(p, a);
      MulZero(p, b);
      MulZero(p, Inv(p, a));
      MulZero(p, Inv(p, b));
    } else {
      var c := Mul(p, a, b);
      MulNonzero(p, a, b);
      MulInverse(p, a);
      MulInverse(p, b);
      MulInverse(p, c);
      MulPairs(p, a, b, Inv(p, a), Inv(p, b));
      MulUnit(p, 1);
      MulCommutes(p, c, Mul(p, Inv(p, a), Inv(p, b)));
      Cancel(p, Inv(p, c), Mul(p, Inv(p, a), Inv(p, b)), c);
    }
  }

  lemma InverseOfZero(p: nat)
    requires Prime(p)
    ensures Inv(p, 0) == 0
  {
    DivUnique(0, p, 0, 0);
    hide Prime;
  }

  lemma MarlinG2Composes(p: nat, tau: Scalar, tau': Scalar, length: nat, log: nat, i: nat)
    requires Prime(p) && Bounded(length, log) && i < log + 2
    ensures Mul(p, MarlinG2Exponent(p, tau, length, log, i), MarlinG2Exponent(p, tau', length, log, i)) ==
      MarlinG2Exponent(p, Mul(p, tau, tau'), length, log, i)
  {
    assert 1 < p;
    hide Mul, Inv, Prime, Pow, Pow2;
    if i < 2 {
      PowMul(p, tau, tau', i);
    } else {
      var d := DegreeBound(length, i - 2);
      PowMul(p, tau, tau', d);
      InverseOfProduct(p, Pow(p, tau, d), Pow(p, tau', d));
    }
  }

  lemma MarlinAlphaComposes(p: nat, key: Key, key': Key, length: nat, log: nat, i: nat)
    requires 1 < p && Bounded(length, log) && i < 3 + 3 * log
    ensures Mul(p, MarlinAlphaExponent(p, key, length, log, i), MarlinAlphaExponent(p, key', length, log, i)) ==
      MarlinAlphaExponent(p, Product(p, key, key'), length, log, i)
  {
    hide Mul, Exponent, Pow2;
    var n := if i < 3 then i else DegreeBound(length, (i - 3) / 3) + (i - 3) % 3;
    ExponentComposes(p, key.tau, key'.tau, n, key.alpha, key'.alpha);
  }

  /** Two Marlin contributions are one with the product key, the inverse elements in G2 included. */
  lemma MarlinComposes(p: nat, acc: MarlinAccumulator, key: Key, key': Key, lo: nat, length: nat, log: nat, first: bool)
    requires Prime(p) && MarlinShape(acc, length, log, first)
    ensures Marlin(p, Marlin(p, acc, key, lo, length, log, first), key', lo, length, log, first) ==
      Marlin(p, acc, Product(p, key, key'), lo, length, log, first)
  {
    assert 1 < p;
    hide Mul, Raised, MarlinG2Exponent, MarlinAlphaExponent, Prime, Pow2, Bounded;
    var one := Marlin(p, acc, key, lo, length, log, first);
    var two := Marlin(p, one, key', lo, length, log, first);
    var both := Marlin(p, acc, Product(p, key, key'), lo, length, log, first);
    MulUnit(p, 1);
    RaisedComposes(p, acc.tauG1, key.tau, key'.tau, 1, 1, lo);
    if first {
      forall i | 0 <= i < |acc.tauG2| ensures two.tauG2[i] == both.tauG2[i] {
        MarlinG2Composes(p, key.tau, key'.tau, length, log, i);
        MulAssociates(p, acc.tauG2[i], MarlinG2Exponent(p, key.tau, length, log, i), MarlinG2Exponent(p, key'.tau, length, log, i));
      }
      forall i | 0 <= i < |acc.alphaG1| ensures two.alphaG1[i] == both.alphaG1[i] {
        MarlinAlphaComposes(p, key, key', length, log, i);
        MulAssociates(p, acc.alphaG1[i], MarlinAlphaExponent(p, key, length, log, i), MarlinAlphaExponent(p, key', length, log, i));
      }
      assert two.tauG2 == both.tauG2 && two.alphaG1 == both.alphaG1;
    }
  }

  // ----- runs of contributions

  const ONE := Key(1, 1, 1)

  /** The product of all keys of a run. */
  ghost function Total(p: nat, keys: seq<Key>): Key
    requires 1 < p
  {
    if keys == [] then ONE else Product(p, Total(p, keys[..|keys| - 1]), keys[|keys| - 1])
  }

  ghost function Groth16Run(p: nat, acc: Accumulator, keys: seq<Key>, lo: nat): Accumulator
    requires 1 < p
  {
    if keys == [] then acc else Groth16(p, Groth16Run(p, acc, keys[..|keys| - 1], lo), keys[|keys| - 1], lo)
  }

  ghost function MarlinRun(p: nat, acc: MarlinAccumulator, keys: seq<Key>, lo: nat, length: nat, log: nat, first: bool)
    : (r: MarlinAccumulator)
    requires Prime(p) && MarlinShape(acc, length, log, first)
    ensures MarlinShape(r, length, log, first)
  {
    if keys == [] then acc
    else Marlin(p, MarlinRun(p, acc, keys[..|keys| - 1], lo, length, log, first), keys[|keys| - 1], lo, length, log, first)
  }

  ghost predicate AccumulatorIn(p: nat, acc: Accumulator) {
    AllIn(p, acc.tauG1) && AllIn(p, acc.tauG2) && AllIn(p, acc.alphaG1) && AllIn(p, acc.betaG1) && acc.betaG2 < p
  }

  lemma {:induction false} PowOfOne(p: nat, n: nat)
    requires 1 < p
    ensures Pow(p, 1, n) == 1
  {
    if n > 0 {
      PowOfOne(p, n - 1);
      MulUnit(p, 1);
    }
  }

  /** Raising by one changes nothing. */
  lemma RaisedByOne(p: nat, points: seq<nat>, lo: nat)
    requires 1 < p && AllIn(p, points)
    ensures Raised(p, points, 1, 1, lo) == points
  {
    hide Mul;
    forall i | 0 <= i < |points| ensures Raised(p, points, 1, 1, lo)[i] == points[i] {
      PowOfOne(p, lo + i);
      MulUnit(p, 1);
      MulUnit(p, points[i]);
    }
  }

  /** A whole Groth16 run is one contribution with the product of all keys. */
  lemma {:induction false} Groth16RunComposes(p: nat, acc: Accumulator, keys: seq<Key>, lo: nat)
    requires 1 < p && AccumulatorIn(p, acc)
    ensures Groth16Run(p, acc, keys, lo) == Groth16(p, acc, Total(p, keys), lo)
  {
    hide Mul, Raised;
    if keys == [] {
      RaisedByOne(p, acc.tauG1, lo);
      RaisedByOne(p, acc.tauG2, lo);
      RaisedByOne(p, acc.alphaG1, lo);
      RaisedByOne(p, acc.betaG1, lo);
      MulUnit(p, acc.betaG2);
    } else {
      var last := |keys| - 1;
      Groth16RunComposes(p, acc, keys[..last], lo);
      Groth16Composes(p, acc, Total(p, keys[..last]), keys[last], lo);
    }
  }

  /** The accumulator before any contribution: the generator everywhere. */
  function Blank(g1: nat, others: nat): (acc: Accumulator)
    ensures |acc.tauG1| == g1 && |acc.tauG2| == |acc.alphaG1| == |acc.betaG1| == others
  {
    Accumulator(seq(g1, _ => 1), seq(others, _ => 1), seq(others, _ => 1), seq(others, _ => 1), 1)
  }

  /**
    Any run from the blank accumulator holds the powers of the product of all taus, with the
    products of all alphas and betas as factors.
   */
  lemma Groth16Powers(p: nat, g1: nat, others: nat, keys: seq<Key>, lo: nat)
    requires 1 < p
    ensures var acc, key := Groth16Run(p, Blank(g1, others), keys, lo), Total(p, keys);
      && |acc.tauG1| == g1 && (forall i :: 0 <= i < g1 ==> acc.tauG1[i] == Pow(p, key.tau, lo + i))
      && |acc.tauG2| == others && (forall i :: 0 <= i < others ==> acc.tauG2[i] == Pow(p, key.tau, lo + i))
      && |acc.alphaG1| == others && (forall i :: 0 <= i < others ==> acc.alphaG1[i] == Mul(p, Pow(p, key.tau, lo + i), key.alpha))
      && |acc.betaG1| == others && (forall i :: 0 <= i < others ==> acc.betaG1[i] == Mul(p, Pow(p, key.tau, lo + i), key.beta))
      && acc.betaG2 == Mul(p, 1, key.beta)
  {
    var blank := Blank(g1, others);
    hide Mul;
    Groth16RunComposes(p, blank, keys, lo);
    var acc, key := Groth16(p, blank, Total(p, keys), lo), Total(p, keys);
    OnesRaised(p, blank.tauG1, key.tau, 1, lo);
    OnesRaised(p, blank.tauG2, key.tau, 1, lo);
    OnesRaised(p, blank.alphaG1, key.tau, key.alpha, lo);
    OnesRaised(p, blank.betaG1, key.tau, key.beta, lo);
    hide Raised, Groth16Run, Total;
    forall i | 0 <= i < g1 ensures acc.tauG1[i] == Pow(p, key.tau, lo + i) { MulUnit(p, Pow(p, key.tau, lo + i)); }
    forall i | 0 <= i < others ensures acc.tauG2[i] == Pow(p, key.tau, lo + i) { MulUnit(p, Pow(p, key.tau, lo + i)); }
  }

  lemma OnesRaised(p: nat, points: seq<nat>, tau: Scalar, coeff: Scalar, lo: nat)
    requires 1 < p && forall i :: 0 <= i < |points| ==> points[i] == 1
    ensures forall i :: 0 <= i < |points| ==> Raised(p, points, tau, coeff, lo)[i] == Mul(p, Pow(p, tau, lo + i), coeff)
  {
    hide Mul;
    forall i | 0 <= i < |points| ensures Raised(p, points, tau, coeff, lo)[i] == Mul(p, Pow(p, tau, lo + i), coeff) {
      MulUnit(p, Exponent(p, tau, lo + i, coeff));
    }
  }

  ghost predicate MarlinIn(p: nat, acc: MarlinAccumulator) {
    AllIn(p, acc.tauG1) && AllIn(p, acc.tauG2) && AllIn(p, acc.alphaG1)
  }

  /** A whole Marlin run is one contribution with the product of all keys. */
  lemma {:induction false} MarlinRunComposes(p: nat, acc: MarlinAccumulator, keys: seq<Key>,
                                             lo: nat, length: nat, log: nat, first: bool)
    requires Prime(p) && MarlinShape(acc, length, log, first) && MarlinIn(p, acc)
    ensures MarlinRun(p, acc, keys, lo, length, log, first) == Marlin(p, acc, Total(p, keys), lo, length, log, first)
  {
    assert 1 < p;
    hide Mul, Marlin, Prime, MarlinShape;
    if keys == [] {
      MarlinByOne(p, acc, lo, length, log, first);
    } else {
      var last := |keys| - 1;
      MarlinRunComposes(p, acc, keys[..last], lo, length, log, first);
      MarlinComposes(p, acc, Total(p, keys[..last]), keys[last], lo, length, log, first);
    }
  }

  lemma MarlinByOne(p: nat, acc: MarlinAccumulator, lo: nat, length: nat, log: nat, first: bool)
    requires Prime(p) && MarlinShape(acc, length, log, first) && MarlinIn(p, acc)
    ensures Marlin(p, acc, ONE, lo, length, log, first) == acc
  {
    assert 1 < p;
    InverseOfOne(p);
    hide Mul, Inv, Prime, Pow, Pow2, Raised;
    RaisedByOne(p, acc.tauG1, lo);
    if first {
      var one := Marlin(p, acc, ONE, lo, length, log, first);
      forall i | 0 <= i < |acc.tauG2| ensures one.tauG2[i] == acc.tauG2[i] {
        PowOfOne(p, if i < 2 then i else DegreeBound(length, i - 2));
        MulUnit(p, acc.tauG2[i]);
      }
      forall i | 0 <= i < |acc.alphaG1| ensures one.alphaG1[i] == acc.alphaG1[i] {
        PowOfOne(p, if i < 3 then i else DegreeBound(length, (i - 3) / 3) + (i - 3) % 3);
        MulUnit(p, 1);
        MulUnit(p, acc.alphaG1[i]);
      }
      assert one.tauG2 == acc.tauG2 && one.alphaG1 == acc.alphaG1;
    }
  }

  lemma InverseOfOne(p: nat)
    requires Prime(p)
    ensures Inv(p, 1) == 1
  {
    MulInverse(p, 1);
    MulUnit(p, Inv(p, 1));
  }

  /** The Marlin part before any contribution: the generator everywhere. */
  function BlankMarlin(n: nat, log: nat, first: bool): (acc: MarlinAccumulator)
    ensures |acc.tauG1| == n && |acc.tauG2| == (if first then log + 2 else 0) && |acc.alphaG1| == (if first then 3 + 3 * log else 0)
  {
    if first then MarlinAccumulator(seq(n, _ => 1), seq(log + 2, _ => 1), seq(3 + 3 * log, _ => 1))
    else MarlinAccumulator(seq(n, _ => 1), [], [])
  }

  ghost predicate NonzeroTaus(p: nat, keys: seq<Key>)
    requires 0 < p
  {
    forall i :: 0 <= i < |keys| ==> 0 < keys[i].tau < p
  }

  lemma {:induction false} TotalNonzero(p: nat, keys: seq<Key>)
    requires Prime(p) && NonzeroTaus(p, keys)
    ensures 0 < Total(p, keys).tau < p && Total(p, keys).alpha < p
  {
    assert 1 < p;
    hide Prime, Mul;
    if keys != [] {
      var last := |keys| - 1;
      TotalNonzero(p, keys[..last]);
      MulNonzero(p, Total(p, keys[..last]).tau, keys[last].tau);
    }
  }

  lemma {:induction false} PowNonzero(p: nat, a: nat, n: nat)
    requires Prime(p) && 0 < a < p
    ensures Pow(p, a, n) != 0
  {
    assert 1 < p;
    hide Prime, Mul;
    if n > 0 {
      PowNonzero(p, a, n - 1);
      MulNonzero(p, a, Pow(p, a, n - 1));
    }
  }

  /** An inverse element times the whole power is the power of two that its degree bound leaves out. */
  lemma DegreeElement(p: nat, t: Scalar, length: nat, i: nat)
    requires Prime(p) && 0 < t < p && Pow2(i) <= length + 1
    ensures Mul(p, Inv(p, Pow(p, t, DegreeBound(length, i))), Pow(p, t, length + 1)) == Pow(p, t, Pow2(i))
  {
    assert 1 < p;
    var d := DegreeBound(length, i);
    assert d + Pow2(i) == length + 1;
    hide Prime, Mul, Inv, Pow, Pow2, DegreeBound;
    var x, rest := Pow(p, t, d), Pow(p, t, Pow2(i));
    PowAdd(p, t, d, Pow2(i));
    PowNonzero(p, t, d);
    MulInverse(p, x);
    MulCommutes(p, x, Inv(p, x));
    MulAssociates(p, Inv(p, x), x, rest);
    MulUnit(p, rest);
  }

  /** An element with alpha, times the power of two that its degree bound leaves out. */
  lemma AlphaElement(p: nat, t: Scalar, a: Scalar, length: nat, i: nat, j: nat)
    requires 1 < p && Pow2(i) <= length + 1
    ensures Mul(p, Exponent(p, t, DegreeBound(length, i) + j, a), Pow(p, t, Pow2(i))) == Mul(p, a, Pow(p, t, length + 1 + j))
  {
    var d := DegreeBound(length, i);
    assert d + j + Pow2(i) == length + 1 + j;
    hide Mul, Pow, Pow2, DegreeBound;
    var x, y := Pow(p, t, d + j), Pow(p, t, Pow2(i));
    PowAdd(p, t, d + j, Pow2(i));
    MulCommutes(p, x, a);
    MulAssociates(p, a, x, y);
  }

  /** Element `j` of the triple of degree bound `i`: a t^(length + 1 + j) over t^(2^i). */
  ghost predicate AlphaBound(p: nat, points: seq<G1>, t: Scalar, a: Scalar, length: nat, i: nat, j: nat)
    requires 1 < p && 3 + (3 * i + j) < |points|
  {
    Mul(p, points[3 + (3 * i + j)], Pow(p, t, Pow2(i))) == Mul(p, a, Pow(p, t, length + 1 + j))
  }

  /**
    Any run of nonzero taus from the blank part, with t and a the products of all taus and alphas:
    the powers of t; 1, t, and t to a power of two less length + 1 in G2; and a times t to the
    powers 0, 1, 2 and to length + 1 less a power of two, and one and two more.
   */
  lemma MarlinPowers(p: nat, n: nat, keys: seq<Key>, lo: nat, length: nat, log: nat, first: bool)
    requires Prime(p) && NonzeroTaus(p, keys) && (first ==> Bounded(length, log))
    ensures MarlinShape(BlankMarlin(n, log, first), length, log, first)
    ensures var acc := MarlinRun(p, BlankMarlin(n, log, first), keys, lo, length, log, first);
      var t, a := Total(p, keys).tau, Total(p, keys).alpha;
      && |acc.tauG1| == n && (forall i :: 0 <= i < n ==> acc.tauG1[i] == Pow(p, t, lo + i))
      && (first ==>
            && |acc.tauG2| == log + 2 && acc.tauG2[0] == 1 && acc.tauG2[1] == t
            && (forall i :: 0 <= i < log ==> Mul(p, acc.tauG2[2 + i], Pow(p, t, length + 1)) == Pow(p, t, Pow2(i)))
            && |acc.alphaG1| == 3 + 3 * log
            && (forall i :: 0 <= i < 3 ==> acc.alphaG1[i] == Mul(p, a, Pow(p, t, i)))
            && (forall i, j :: 0 <= i < log && 0 <= j < 3 ==> AlphaBound(p, acc.alphaG1, t, a, length, i, j)))
  {
    assert 1 < p;
    var blank, key := BlankMarlin(n, log, first), Total(p, keys);
    hide Prime, Mul, Inv, Pow, Pow2, Total, NonzeroTaus, DegreeBound, Bounded;
    TotalNonzero(p, keys);
    MarlinRunComposes(p, blank, keys, lo, length, log, first);
    var acc := Marlin(p, blank, key, lo, length, log, first);
    PowersRaised(p, blank.tauG1, key.tau, lo);
    if first {
      assert acc.tauG2 == MarlinG2(p, blank.tauG2, key.tau, length, log);
      assert acc.alphaG1 == MarlinAlpha(p, blank.alphaG1, key, length, log);
      hide Marlin, MarlinRun, Raised;
      MarlinG2Is(p, key.tau, length, log);
      MarlinAlphaIs(p, key, length, log);
    }
  }

  lemma PowersRaised(p: nat, ones: seq<nat>, t: Scalar, lo: nat)
    requires 1 < p && forall i :: 0 <= i < |ones| ==> ones[i] == 1
    ensures forall i :: 0 <= i < |ones| ==> Raised(p, ones, t, 1, lo)[i] == Pow(p, t, lo + i)
  {
    hide Mul, Pow;
    OnesRaised(p, ones, t, 1, lo);
    forall i | 0 <= i < |ones| ensures Raised(p, ones, t, 1, lo)[i] == Pow(p, t, lo + i) {
      MulUnit(p, Pow(p, t, lo + i));
    }
  }

  lemma MarlinG2Is(p: nat, t: Scalar, length: nat, log: nat)
    requires Prime(p) && Bounded(length, log) && 0 < t < p
    ensures var points := MarlinG2(p, seq(log + 2, _ => 1), t, length, log);
      && points[0] == 1 && points[1] == t
      && forall i :: 0 <= i < log ==> Mul(p, points[2 + i], Pow(p, t, length + 1)) == Pow(p, t, Pow2(i))
  {
    assert 1 < p;
    var points := MarlinG2(p, seq(log + 2, _ => 1), t, length, log);
    FirstPowers(p, t);
    hide Prime, Mul, Inv, Pow, Pow2, DegreeBound;
    forall i | 0 <= i < log + 2 ensures points[i] == MarlinG2Exponent(p, t, length, log, i) {
      MulUnit(p, MarlinG2Exponent(p, t, length, log, i));
    }
    forall i | 0 <= i < log ensures Mul(p, points[2 + i], Pow(p, t, length + 1)) == Pow(p, t, Pow2(i)) {
      assert points[2 + i] == Inv(p, Pow(p, t, DegreeBound(length, i)));
      DegreeElement(p, t, length, i);
    }
  }

  lemma FirstPowers(p: nat, t: Scalar)
    requires 1 < p && t < p
    ensures Pow(p, t, 0) == 1 && Pow(p, t, 1) == t
  {
    MulUnit(p, t);
    hide Mul;
  }

  lemma MarlinAlphaIs(p: nat, key: Key, length: nat, log: nat)
    requires 1 < p && Bounded(length, log)
    ensures var points := MarlinAlpha(p, seq(3 + 3 * log, _ => 1), key, length, log);
      && (forall i :: 0 <= i < 3 ==> points[i] == Mul(p, key.alpha, Pow(p, key.tau, i)))
      && forall i, j :: 0 <= i < log && 0 <= j < 3 ==> AlphaBound(p, points, key.tau, key.alpha, length, i, j)
  {
    var points := MarlinAlpha(p, seq(3 + 3 * log, _ => 1), key, length, log);
    hide Mul, Pow, Pow2, DegreeBound;
    forall i | 0 <= i < 3 + 3 * log ensures points[i] == MarlinAlphaExponent(p, key, length, log, i) {
      MulUnit(p, MarlinAlphaExponent(p, key, length, log, i));
    }
    forall i | 0 <= i < 3 ensures points[i] == Mul(p, key.alpha, Pow(p, key.tau, i)) {
      MulCommutes(p, Pow(p, key.tau, i), key.alpha);
    }
    forall i, j | 0 <= i < log && 0 <= j < 3 ensures AlphaBound(p, points, key.tau, key.alpha, length, i, j) {
      DivUnique(3 * i + j, 3, i, j);
      assert points[3 + (3 * i + j)] == Exponent(p, key.tau, DegreeBound(length, i) + j, key.alpha);
      AlphaElement(p, key.tau, key.alpha, length, i, j);
    }
  }
}
