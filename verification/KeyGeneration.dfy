/**
  Fresh phase 2 parameters: the circuit's polynomials evaluated at the coefficients that phase 1
  prepared, by parallel sums, and what stays true of the resulting key through any contributions.
 */
module KeyGeneration {
  import opened Wrappers
  import opened Arith
  import opened Field
  import opened Pairing
  import opened Phase2
  import opened Contributions

  datatype Index = Public(i: nat) | Private(i: nat)

  type Row = seq<(Scalar, Index)>

  datatype Assembly = Assembly(inputs: nat, at: seq<Row>, bt: seq<Row>, ct: seq<Row>)

  datatype Coefficients = Coefficients(
    alphaG1: G1,
    betaG1: G1,
    betaG2: G2,
    coeffsG1: seq<G1>,
    coeffsG2: seq<G2>,
    alphaCoeffsG1: seq<G1>,
    betaCoeffsG1: seq<G1>,
    hG1: seq<G1>)

  // ----- sums

  /** The sequential sum. */
  function Sum(p: nat, terms: seq<nat>): (r: nat)
    requires 0 < p
    ensures r < p
  {
    if terms == [] then 0 else Add(p, Sum(p, terms[..|terms| - 1]), terms[|terms| - 1])
  }

  /** How a parallel fold cuts its input; each piece is folded on its own and the results are added. */
  datatype Grouping = Whole | Cut(at: nat, left: Grouping, right: Grouping)

  function ParallelSum(p: nat, terms: seq<nat>, grouping: Grouping): (r: nat)
    requires 0 < p
    ensures r < p
    decreases grouping
  {
    match grouping
    case Whole => Sum(p, terms)
    case Cut(at, left, right) =>
      var k := Min(at, |terms|);
      Add(p, ParallelSum(p, terms[..k], left), ParallelSum(p, terms[k..], right))
  }

  lemma {:induction false} SumConcat(p: nat, a: seq<nat>, b: seq<nat>)
    requires 0 < p
    ensures Sum(p, a + b) == Add(p, Sum(p, a), Sum(p, b))
  {
    hide Add;
    if b == [] {
      assert a + b == a;
      AddLaws(p, Sum(p, a), 0, 0);
    } else {
      var last := |b| - 1;
      assert (a + b)[..|a + b| - 1] == a + b[..last];
      SumConcat(p, a, b[..last]);
      AddLaws(p, Sum(p, a), Sum(p, b[..last]), b[last]);
    }
  }

  /** Addition of points is associative, so the grouping does not matter. */
  lemma {:induction false} GroupingIrrelevant(p: nat, terms: seq<nat>, grouping: Grouping)
    requires 0 < p
    ensures ParallelSum(p, terms, grouping) == Sum(p, terms)
    decreases grouping
  {
    match grouping
    case Whole =>
    case Cut(at, left, right) =>
      var k := Min(at, |terms|);
      GroupingIrrelevant(p, terms[..k], left);
      GroupingIrrelevant(p, terms[k..], right);
      SumConcat(p, terms[..k], terms[k..]);
      assert terms[..k] + terms[k..] == terms;
  }

  lemma {:induction false} SumScaled(p: nat, terms: seq<nat>, k: Scalar)
    requires 0 < p
    ensures Sum(p, Scaled(p, terms, k)) == Mul(p, Sum(p, terms), k)
  {
    hide Add, Mul;
    if terms == [] {
      MulZero(p, k);
    } else {
      var last := |terms| - 1;
      SumScaled(p, terms[..last], k);
      assert Scaled(p, terms, k)[..last] == Scaled(p, terms[..last], k);
      var x, y := Sum(p, terms[..last]), terms[last];
      Distributes(p, k, x, y);
      MulCommutes(p, k, Add(p, x, y));
      MulCommutes(p, k, x);
      MulCommutes(p, k, y);
    }
  }

  // ----- evaluation of the circuit

  /** Private variables come after the public ones. */
  function Place(index: Index, inputs: nat): nat {
    match index
    case Public(i) => i
    case Private(i) => inputs + i
  }

  predicate Fits(row: Row, inputs: nat, n: nat) {
    forall i :: 0 <= i < |row| ==> Place(row[i].1, inputs) < n
  }

  function Terms(p: nat, row: Row, coeffs: seq<nat>, inputs: nat): (r: seq<nat>)
    requires 0 < p && Fits(row, inputs, |coeffs|)
    ensures |r| == |row|
  {
    seq(|row|, i requires 0 <= i < |row| => Mul(p, coeffs[Place(row[i].1, inputs)], row[i].0))
  }

  function DotProduct(p: nat, row: Row, coeffs: seq<nat>, inputs: nat, grouping: Grouping): (r: nat)
    requires 0 < p && Fits(row, inputs, |coeffs|)
    ensures r < p
  {
    ParallelSum(p, Terms(p, row, coeffs, inputs), grouping)
  }

  /** The value of a row at the coefficients. */
  function Value(p: nat, row: Row, coeffs: seq<nat>, inputs: nat): (r: nat)
    requires 0 < p && Fits(row, inputs, |coeffs|)
    ensures r < p
  {
    Sum(p, Terms(p, row, coeffs, inputs))
  }

  lemma ValueScaled(p: nat, row: Row, coeffs: seq<nat>, inputs: nat, k: Scalar)
    requires 0 < p && Fits(row, inputs, |coeffs|)
    ensures Value(p, row, Scaled(p, coeffs, k), inputs) == Mul(p, Value(p, row, coeffs, inputs), k)
  {
    hide Mul;
    var terms, scaled := Terms(p, row, coeffs, inputs), Terms(p, row, Scaled(p, coeffs, k), inputs);
    forall i | 0 <= i < |row| ensures scaled[i] == Mul(p, terms[i], k) {
      var c, e := coeffs[Place(row[i].1, inputs)], row[i].0;
      MulAssociates(p, c, k, e);
      MulCommutes(p, k, e);
      MulAssociates(p, c, e, k);
    }
    assert scaled == Scaled(p, terms, k);
    SumScaled(p, terms, k);
  }

  predicate RowsFit(rows: seq<Row>, inputs: nat, n: nat) {
    forall i :: 0 <= i < |rows| ==> Fits(rows[i], inputs, n)
  }

  /** The number of variables for which all three polynomials are given. */
  function Variables(q: Assembly): nat {
    Min(|q.at|, Min(|q.bt|, |q.ct|))
  }

  /** No row reaches beyond its coefficients, and there are at least as many variables as inputs. */
  predicate Evaluable(q: Assembly, c: Coefficients) {
    var n := Variables(q);
    && RowsFit(q.at, q.inputs, |c.coeffsG1|)
    && RowsFit(q.bt, q.inputs, |c.coeffsG1|) && RowsFit(q.bt, q.inputs, |c.coeffsG2|)
    && RowsFit(q.at[..n], q.inputs, |c.betaCoeffsG1|)
    && RowsFit(q.bt[..n], q.inputs, |c.alphaCoeffsG1|)
    && RowsFit(q.ct[..n], q.inputs, |c.coeffsG1|)
    && q.inputs <= n
  }

  /** How the sums are cut: one grouping per vector and row. */
  type Schedule = (nat, nat) -> Grouping

  function DotProducts(p: nat, rows: seq<Row>, coeffs: seq<nat>, inputs: nat, schedule: Schedule, v: nat): (r: seq<nat>)
    requires 0 < p && RowsFit(rows, inputs, |coeffs|)
    ensures |r| == |rows|
  {
    seq<nat>(|rows|, i requires 0 <= i < |rows| => DotProduct(p, rows[i], coeffs, inputs, schedule(v, i)))
  }

  /** beta A + alpha B + C for every variable. */
  function Extended(p: nat, q: Assembly, c: Coefficients, schedule: Schedule): (r: seq<nat>)
    requires 0 < p && Evaluable(q, c)
    ensures |r| == Variables(q)
  {
    var n := Variables(q);
    assert forall i :: 0 <= i < n ==> q.at[..n][i] == q.at[i] && q.bt[..n][i] == q.bt[i] && q.ct[..n][i] == q.ct[i];
    seq<nat>(n, i requires 0 <= i < n =>
      Add(p, Add(p, DotProduct(p, q.at[i], c.betaCoeffsG1, q.inputs, schedule(3, i)),
                 DotProduct(p, q.bt[i], c.alphaCoeffsG1, q.inputs, schedule(4, i))),
          DotProduct(p, q.ct[i], c.coeffsG1, q.inputs, schedule(5, i))))
  }

  function NewKeyMaterial(p: nat, q: Assembly, c: Coefficients, schedule: Schedule): ProvingKey
    requires 0 < p && Evaluable(q, c)
  {
    var ext := Extended(p, q, c, schedule);
    ProvingKey(
      VerifyingKey(c.alphaG1, c.betaG2, 1, 1, ext[..q.inputs]),
      c.betaG1, 1,
      DotProducts(p, q.at, c.coeffsG1, q.inputs, schedule, 0),
      DotProducts(p, q.bt, c.coeffsG1, q.inputs, schedule, 1),
      DotProducts(p, q.bt, c.coeffsG2, q.inputs, schedule, 2),
      c.hG1, ext[q.inputs..])
  }

  /** Creating the parameters: a row out of range panics, an unconstrained variable is an error. */
  function NewParams(p: nat, hashKey: ProvingKey -> Hash, q: Assembly, c: Coefficients, schedule: Schedule): Verdict<Params>
    requires 0 < p
  {
    if !Evaluable(q, c) then Panicked
    else
      var key := NewKeyMaterial(p, q, c, schedule);
      if 0 in key.lQuery then Rejected(UnconstrainedVariable)
      else Accepted(Params(key, hashKey(key), []))
  }

  lemma DotProductsAre(p: nat, rows: seq<Row>, coeffs: seq<nat>, inputs: nat, schedule: Schedule, v: nat, i: nat)
    requires 0 < p && RowsFit(rows, inputs, |coeffs|) && i < |rows|
    ensures DotProducts(p, rows, coeffs, inputs, schedule, v)[i] == Value(p, rows[i], coeffs, inputs)
  {
    GroupingIrrelevant(p, Terms(p, rows[i], coeffs, inputs), schedule(v, i));
  }

  /** However the parallel sums are cut, the parameters come out the same. */
  lemma ScheduleIrrelevant(p: nat, hashKey: ProvingKey -> Hash, q: Assembly, c: Coefficients, one: Schedule, other: Schedule)
    requires 0 < p
    ensures NewParams(p, hashKey, q, c, one) == NewParams(p, hashKey, q, c, other)
  {
    if Evaluable(q, c) {
      VectorsAgree(p, q.at, c.coeffsG1, q.inputs, one, other, 0);
      VectorsAgree(p, q.bt, c.coeffsG1, q.inputs, one, other, 1);
      VectorsAgree(p, q.bt, c.coeffsG2, q.inputs, one, other, 2);
      ExtendedAgrees(p, q, c, one, other);
      assert NewKeyMaterial(p, q, c, one) == NewKeyMaterial(p, q, c, other);
    }
  }

  lemma VectorsAgree(p: nat, rows: seq<Row>, coeffs: seq<nat>, inputs: nat, one: Schedule, other: Schedule, v: nat)
    requires 0 < p && RowsFit(rows, inputs, |coeffs|)
    ensures DotProducts(p, rows, coeffs, inputs, one, v) == DotProducts(p, rows, coeffs, inputs, other, v)
  {
    forall i | 0 <= i < |rows|
      ensures DotProducts(p, rows, coeffs, inputs, one, v)[i] == DotProducts(p, rows, coeffs, inputs, other, v)[i]
    {
      DotProductsAre(p, rows, coeffs, inputs, one, v, i);
      DotProductsAre(p, rows, coeffs, inputs, other, v, i);
    }
  }

  lemma ExtendedIs(p: nat, q: Assembly, c: Coefficients, schedule: Schedule, i: nat)
    requires 0 < p && Evaluable(q, c) && i < Variables(q)
    ensures Fits(q.at[i], q.inputs, |c.betaCoeffsG1|) && Fits(q.bt[i], q.inputs, |c.alphaCoeffsG1|)
    ensures Fits(q.ct[i], q.inputs, |c.coeffsG1|)
    ensures Extended(p, q, c, schedule)[i] ==
      Add(p, Add(p, Value(p, q.at[i], c.betaCoeffsG1, q.inputs), Value(p, q.bt[i], c.alphaCoeffsG1, q.inputs)),
          Value(p, q.ct[i], c.coeffsG1, q.inputs))
  {
    var n := Variables(q);
    assert q.at[..n][i] == q.at[i] && q.bt[..n][i] == q.bt[i] && q.ct[..n][i] == q.ct[i];
    hide Add;
    GroupingIrrelevant(p, Terms(p, q.at[i], c.betaCoeffsG1, q.inputs), schedule(3, i));
    GroupingIrrelevant(p, Terms(p, q.bt[i], c.alphaCoeffsG1, q.inputs), schedule(4, i));
    GroupingIrrelevant(p, Terms(p, q.ct[i], c.coeffsG1, q.inputs), schedule(5, i));
    hide Terms, Sum, ParallelSum;
  }

  lemma ExtendedAgrees(p: nat, q: Assembly, c: Coefficients, one: Schedule, other: Schedule)
    requires 0 < p && Evaluable(q, c)
    ensures Extended(p, q, c, one) == Extended(p, q, c, other)
  {
    hide Evaluable, Add, Value;
    forall i | 0 <= i < Variables(q) ensures Extended(p, q, c, one)[i] == Extended(p, q, c, other)[i] {
      ExtendedIs(p, q, c, one, i);
      ExtendedIs(p, q, c, other, i);
    }
  }

  // ----- the H query

  /** tau^(i + degree) - tau^i for i below degree - 1, from the powers of tau. */
  function HQuery(p: nat, powers: seq<G1>, degree: nat): (r: seq<G1>)
    requires 0 < p && 0 < degree && 2 * degree - 1 <= |powers|
    ensures |r| == degree - 1
  {
    seq(degree - 1, i requires 0 <= i < degree - 1 => Add(p, powers[i + degree], Neg(p, powers[i])))
  }

  function Powers(p: nat, tau: Scalar, n: nat): (r: seq<G1>)
    requires 1 < p
    ensures |r| == n
  {
    seq(n, i requires 0 <= i < n => Pow(p, tau, i))
  }

  lemma NegIsProduct(p: nat, a: nat)
    requires 1 < p && a < p
    ensures Neg(p, a) == Mul(p, a, Neg(p, 1))
  {
    MulMod(p, -1, a);
    assert (-1) * a == 0 - a;
    MulCommutes(p, a, Neg(p, 1));
  }

  /** Each entry is tau^i times tau^degree - 1. */
  lemma HQueryIs(p: nat, tau: Scalar, n: nat, degree: nat, i: nat)
    requires 1 < p && 0 < degree && 2 * degree - 1 <= n && i < degree - 1
    ensures HQuery(p, Powers(p, tau, n), degree)[i] == Mul(p, Pow(p, tau, i), Add(p, Pow(p, tau, degree), Neg(p, 1)))
  {
    hide Mul, Add, Neg, Pow;
    PowAdd(p, tau, i, degree);
    NegIsProduct(p, Pow(p, tau, i));
    Distributes(p, Pow(p, tau, i), Pow(p, tau, degree), Neg(p, 1));
  }

  // ----- the circuit at the coefficients, variable by variable

  /** The coefficient of a variable; the private variables have their own list. */
  function CoefficientOf(index: Index, public: seq<nat>, private: seq<nat>): Option<nat> {
    match index
    case Public(i) =>
      if i < |public| then Some(public[i])
      else if i - |public| < |private| then Some(private[i - |public|])
      else None
    case Private(i) => if i < |private| then Some(private[i]) else None
  }

  /** Every variable of the row has a coefficient. */
  ghost predicate Known(row: Row, public: seq<nat>, private: seq<nat>) {
    forall i :: 0 <= i < |row| ==> CoefficientOf(row[i].1, public, private).Some?
  }

  /** The integer sum of scalar times coefficient. */
  ghost function RowSum(row: Row, public: seq<nat>, private: seq<nat>): nat
    requires Known(row, public, private)
  {
    if row == [] then 0
    else
      var last := |row| - 1;
      assert forall i :: 0 <= i < last ==> row[..last][i] == row[i];
      RowSum(row[..last], public, private) + row[last].0 * CoefficientOf(row[last].1, public, private).value
  }

  /** The coefficients are those of the public variables, then those of the private ones. */
  ghost predicate Parted(coeffs: seq<nat>, inputs: nat, public: seq<nat>, private: seq<nat>) {
    coeffs == public + private && (|public| == inputs || (|public| < inputs && private == []))
  }

  lemma PlaceIs(index: Index, coeffs: seq<nat>, inputs: nat, public: seq<nat>, private: seq<nat>)
    requires Parted(coeffs, inputs, public, private)
    ensures Place(index, inputs) < |coeffs| <==> CoefficientOf(index, public, private).Some?
    ensures Place(index, inputs) < |coeffs| ==>
      coeffs[Place(index, inputs)] == CoefficientOf(index, public, private).value
  {
  }

  lemma FitsKnown(row: Row, coeffs: seq<nat>, inputs: nat, public: seq<nat>, private: seq<nat>)
    requires Parted(coeffs, inputs, public, private)
    ensures Fits(row, inputs, |coeffs|) <==> Known(row, public, private)
  {
    forall i | 0 <= i < |row|
      ensures Place(row[i].1, inputs) < |coeffs| <==> CoefficientOf(row[i].1, public, private).Some?
    {
      PlaceIs(row[i].1, coeffs, inputs, public, private);
    }
    hide Place, CoefficientOf, Parted;
  }

  /** The value of a row is the sum of its scalars times their variables' coefficients. */
  lemma {:induction false} ValueIs(p: nat, row: Row, coeffs: seq<nat>, inputs: nat, public: seq<nat>, private: seq<nat>)
    requires 0 < p && Fits(row, inputs, |coeffs|) && Parted(coeffs, inputs, public, private)
    ensures Known(row, public, private)
    ensures Value(p, row, coeffs, inputs) == RowSum(row, public, private) % p
  {
    FitsKnown(row, coeffs, inputs, public, private);
    if row == [] {
      DivUnique(0, p, 0, 0);
    } else {
      var last := |row| - 1;
      assert row[..last] + [row[last]] == row;
      ValueIs(p, row[..last], coeffs, inputs, public, private);
      assert Terms(p, row, coeffs, inputs)[..last] == Terms(p, row[..last], coeffs, inputs);
      PlaceIs(row[last].1, coeffs, inputs, public, private);
      hide Place, CoefficientOf, Parted, Fits, Mul, Add, Terms;
      var c, e := coeffs[Place(row[last].1, inputs)], row[last].0;
      MulCommutes(p, c, e);
      ProductAdds(p, RowSum(row[..last], public, private), e, c);
    }
  }

  lemma ProductAdds(p: nat, sum: nat, e: nat, c: nat)
    requires 0 < p
    ensures Add(p, sum % p, Mul(p, e, c)) == (sum + e * c) % p
  {
    AddProducts(p, sum, e * c);
  }

  // ----- well-formed keys

  /** Coefficients as phase 1 prepares them for the secrets alpha, beta and tau. */
  ghost predicate Prepared(p: nat, c: Coefficients, alpha: Scalar, beta: Scalar, tau: Scalar, powers: nat, degree: nat)
    requires 1 < p
  {
    && c.alphaG1 == alpha < p && c.betaG1 == beta < p && c.betaG2 == beta
    && AllIn(p, c.coeffsG1)
    && c.coeffsG2 == c.coeffsG1
    && c.alphaCoeffsG1 == Scaled(p, c.coeffsG1, alpha)
    && c.betaCoeffsG1 == Scaled(p, c.coeffsG1, beta)
    && 0 < degree && 2 * degree - 1 <= powers
    && c.hG1 == HQuery(p, Powers(p, tau, powers), degree)
  }

  /** beta A + alpha B + C of variable `i`, with A, B and C its rows in the three polynomials. */
  ghost function Combined(p: nat, q: Assembly, public: seq<nat>, private: seq<nat>, alpha: Scalar, beta: Scalar, i: nat): nat
    requires 0 < p && i < Variables(q)
    requires Known(q.at[i], public, private) && Known(q.bt[i], public, private) && Known(q.ct[i], public, private)
  {
    (beta * RowSum(q.at[i], public, private) + alpha * RowSum(q.bt[i], public, private) + RowSum(q.ct[i], public, private)) % p
  }

  lemma CombinedIs(p: nat, a: nat, b: nat, c: nat, alpha: Scalar, beta: Scalar)
    requires 0 < p
    ensures Add(p, Add(p, Mul(p, a % p, beta), Mul(p, b % p, alpha)), c % p) == (beta * a + alpha * b + c) % p
  {
    MulMod(p, a, beta);
    MulMod(p, b, alpha);
    assert a * beta == beta * a && b * alpha == alpha * b;
    AddProducts(p, beta * a, alpha * b);
    AddProducts(p, beta * a + alpha * b, c);
  }

  lemma RowsKnown(q: Assembly, c: Coefficients, public: seq<nat>, private: seq<nat>, i: nat)
    requires Evaluable(q, c) && Parted(c.coeffsG1, q.inputs, public, private)
    ensures i < |q.at| ==> Known(q.at[i], public, private)
    ensures i < |q.bt| ==> Known(q.bt[i], public, private)
    ensures i < Variables(q) ==> Known(q.ct[i], public, private)
  {
    assert i < Variables(q) ==> q.ct[..Variables(q)][i] == q.ct[i];
    hide Fits, Known, Parted;
    if i < |q.at| { FitsKnown(q.at[i], c.coeffsG1, q.inputs, public, private); }
    if i < |q.bt| { FitsKnown(q.bt[i], c.coeffsG1, q.inputs, public, private); }
    if i < Variables(q) { FitsKnown(q.ct[i], c.coeffsG1, q.inputs, public, private); }
  }

  lemma ExtendedCombines(p: nat, q: Assembly, c: Coefficients, schedule: Schedule,
                         alpha: Scalar, beta: Scalar, tau: Scalar, powers: nat, degree: nat,
                         public: seq<nat>, private: seq<nat>, i: nat)
    requires 1 < p && Evaluable(q, c) && Prepared(p, c, alpha, beta, tau, powers, degree)
    requires Parted(c.coeffsG1, q.inputs, public, private) && i < Variables(q)
    ensures Known(q.at[i], public, private) && Known(q.bt[i], public, private) && Known(q.ct[i], public, private)
    ensures Extended(p, q, c, schedule)[i] == Combined(p, q, public, private, alpha, beta, i)
  {
    hide Known, Parted, RowSum, Value, Mul, Add, Extended, HQuery, Powers;
    RowsKnown(q, c, public, private, i);
    ExtendedIs(p, q, c, schedule, i);
    ValueIs(p, q.at[i], c.coeffsG1, q.inputs, public, private);
    ValueIs(p, q.bt[i], c.coeffsG1, q.inputs, public, private);
    ValueIs(p, q.ct[i], c.coeffsG1, q.inputs, public, private);
    ValueScaled(p, q.at[i], c.coeffsG1, q.inputs, beta);
    ValueScaled(p, q.bt[i], c.coeffsG1, q.inputs, alpha);
    CombinedIs(p, RowSum(q.at[i], public, private), RowSum(q.bt[i], public, private), RowSum(q.ct[i], public, private), alpha, beta);
  }

  /** The queries hold the values of the circuit's polynomials at the coefficients. */
  ghost predicate Evaluates(p: nat, query: seq<nat>, rows: seq<Row>, public: seq<nat>, private: seq<nat>)
    requires 0 < p
  {
    && |query| == |rows|
    && forall i :: 0 <= i < |rows| ==> Known(rows[i], public, private) && query[i] == RowSum(rows[i], public, private) % p
  }

  /**
    A Groth16 key for the secrets and the circuit, with `delta` as it stands: the queries hold the
    polynomials' values, the public variables their combinations, the private ones theirs over delta.
   */
  ghost predicate WellFormed(p: nat, key: ProvingKey, delta: Scalar, q: Assembly, public: seq<nat>, private: seq<nat>,
                             alpha: Scalar, beta: Scalar, tau: Scalar, degree: nat)
    requires 1 < p
  {
    && key.vk.alphaG1 == alpha && key.betaG1 == beta && key.vk.betaG2 == beta && key.vk.gammaG2 == 1
    && Evaluates(p, key.aQuery, q.at, public, private)
    && Evaluates(p, key.bG1Query, q.bt, public, private)
    && Evaluates(p, key.bG2Query, q.bt, public, private)
    && (forall i :: 0 <= i < Variables(q) ==> Known(q.ct[i], public, private))
    && |key.vk.gammaAbcG1| == q.inputs && |key.vk.gammaAbcG1| + |key.lQuery| == Variables(q)
    && (forall i :: 0 <= i < |key.vk.gammaAbcG1| ==>
          key.vk.gammaAbcG1[i] == Combined(p, q, public, private, alpha, beta, i))
    && (forall i :: 0 <= i < |key.lQuery| ==>
          Mul(p, key.lQuery[i], delta) == Combined(p, q, public, private, alpha, beta, q.inputs + i))
    && |key.hQuery| == degree - 1
    && (forall i :: 0 <= i < |key.hQuery| ==>
          Mul(p, key.hQuery[i], delta) == Mul(p, Pow(p, tau, i), Add(p, Pow(p, tau, degree), Neg(p, 1))))
  }

  lemma QueryEvaluates(p: nat, rows: seq<Row>, coeffs: seq<nat>, inputs: nat, schedule: Schedule, v: nat,
                       public: seq<nat>, private: seq<nat>)
    requires 0 < p && RowsFit(rows, inputs, |coeffs|) && Parted(coeffs, inputs, public, private)
    ensures Evaluates(p, DotProducts(p, rows, coeffs, inputs, schedule, v), rows, public, private)
  {
    hide Known, Parted, RowSum, Value;
    forall i | 0 <= i < |rows|
      ensures Known(rows[i], public, private)
      ensures DotProducts(p, rows, coeffs, inputs, schedule, v)[i] == RowSum(rows[i], public, private) % p
    {
      DotProductsAre(p, rows, coeffs, inputs, schedule, v, i);
      ValueIs(p, rows[i], coeffs, inputs, public, private);
    }
  }

  /** A fresh key is well-formed for the circuit and the secrets, with delta one. */
  lemma NewKeyWellFormed(p: nat, q: Assembly, c: Coefficients, schedule: Schedule,
                         alpha: Scalar, beta: Scalar, tau: Scalar, powers: nat, degree: nat,
                         public: seq<nat>, private: seq<nat>)
    requires 1 < p && Evaluable(q, c) && Prepared(p, c, alpha, beta, tau, powers, degree)
    requires Parted(c.coeffsG1, q.inputs, public, private)
    ensures WellFormed(p, NewKeyMaterial(p, q, c, schedule), 1, q, public, private, alpha, beta, tau, degree)
  {
    var key := NewKeyMaterial(p, q, c, schedule);
    QueryEvaluates(p, q.at, c.coeffsG1, q.inputs, schedule, 0, public, private);
    QueryEvaluates(p, q.bt, c.coeffsG1, q.inputs, schedule, 1, public, private);
    QueryEvaluates(p, q.bt, c.coeffsG2, q.inputs, schedule, 2, public, private);
    assert |key.vk.gammaAbcG1| == q.inputs && |key.vk.gammaAbcG1| + |key.lQuery| == Variables(q);
    assert key.vk.alphaG1 == alpha && key.betaG1 == beta && key.vk.betaG2 == beta && key.vk.gammaG2 == 1;
    hide Mul, Add, Neg, Known, Parted, Combined, NewKeyMaterial, Evaluable, Prepared, Evaluates;
    forall i | 0 <= i < Variables(q)
      ensures Known(q.at[i], public, private) && Known(q.bt[i], public, private) && Known(q.ct[i], public, private)
      ensures i < q.inputs ==> key.vk.gammaAbcG1[i] == Combined(p, q, public, private, alpha, beta, i)
      ensures i >= q.inputs ==>
        Mul(p, key.lQuery[i - q.inputs], 1) == Combined(p, q, public, private, alpha, beta, i)
    {
      NewEntry(p, q, c, schedule, alpha, beta, tau, powers, degree, public, private, i);
    }
    forall i | 0 <= i < |key.hQuery|
      ensures Mul(p, key.hQuery[i], 1) == Mul(p, Pow(p, tau, i), Add(p, Pow(p, tau, degree), Neg(p, 1)))
    {
      NewHEntry(p, q, c, schedule, alpha, beta, tau, powers, degree, i);
    }
    NewHSize(p, q, c, schedule, alpha, beta, tau, powers, degree);
    forall i | 0 <= i < |key.lQuery|
      ensures Mul(p, key.lQuery[i], 1) == Combined(p, q, public, private, alpha, beta, q.inputs + i)
    {
      assert (q.inputs + i) - q.inputs == i;
    }
  }

  lemma NewEntry(p: nat, q: Assembly, c: Coefficients, schedule: Schedule,
                 alpha: Scalar, beta: Scalar, tau: Scalar, powers: nat, degree: nat,
                 public: seq<nat>, private: seq<nat>, i: nat)
    requires 1 < p && Evaluable(q, c) && Prepared(p, c, alpha, beta, tau, powers, degree)
    requires Parted(c.coeffsG1, q.inputs, public, private) && i < Variables(q)
    ensures Known(q.at[i], public, private) && Known(q.bt[i], public, private) && Known(q.ct[i], public, private)
    ensures var key, x := NewKeyMaterial(p, q, c, schedule), Combined(p, q, public, private, alpha, beta, i);
      && |key.vk.gammaAbcG1| == q.inputs && |key.lQuery| == Variables(q) - q.inputs
      && if i < q.inputs then key.vk.gammaAbcG1[i] == x else Mul(p, key.lQuery[i - q.inputs], 1) == x
  {
    hide Mul, Add, Known, Parted, Prepared, Extended, Combined;
    ExtendedCombines(p, q, c, schedule, alpha, beta, tau, powers, degree, public, private, i);
    var key := NewKeyMaterial(p, q, c, schedule);
    if q.inputs <= i {
      var x := Combined(p, q, public, private, alpha, beta, i);
      CombinedReduced(p, q, public, private, alpha, beta, i);
      MulUnit(p, x);
    }
  }

  lemma CombinedReduced(p: nat, q: Assembly, public: seq<nat>, private: seq<nat>, alpha: Scalar, beta: Scalar, i: nat)
    requires 0 < p && i < Variables(q)
    requires Known(q.at[i], public, private) && Known(q.bt[i], public, private) && Known(q.ct[i], public, private)
    ensures Combined(p, q, public, private, alpha, beta, i) < p
  {
  }

  lemma NewHSize(p: nat, q: Assembly, c: Coefficients, schedule: Schedule,
                 alpha: Scalar, beta: Scalar, tau: Scalar, powers: nat, degree: nat)
    requires 1 < p && Evaluable(q, c) && Prepared(p, c, alpha, beta, tau, powers, degree)
    ensures |NewKeyMaterial(p, q, c, schedule).hQuery| == degree - 1
  {
    hide Extended;
  }

  lemma NewHEntry(p: nat, q: Assembly, c: Coefficients, schedule: Schedule,
                  alpha: Scalar, beta: Scalar, tau: Scalar, powers: nat, degree: nat, i: nat)
    requires 1 < p && Evaluable(q, c) && Prepared(p, c, alpha, beta, tau, powers, degree) && i < degree - 1
    ensures var key := NewKeyMaterial(p, q, c, schedule);
      && |key.hQuery| == degree - 1
      && Mul(p, key.hQuery[i], 1) == Mul(p, Pow(p, tau, i), Add(p, Pow(p, tau, degree), Neg(p, 1)))
  {
    hide Mul, Add, Neg, Pow;
    HQueryIs(p, tau, powers, degree, i);
    MulUnit(p, HQuery(p, Powers(p, tau, powers), degree)[i]);
  }

  /** A successor of a well-formed key is well-formed for the new delta. */
  lemma FollowerWellFormed(p: nat, a: Params, b: Params, q: Assembly, public: seq<nat>, private: seq<nat>,
                           alpha: Scalar, beta: Scalar, tau: Scalar, degree: nat)
    requires 1 < p && Follows(p, a, b)
    requires WellFormed(p, a.key, a.key.vk.deltaG2, q, public, private, alpha, beta, tau, degree)
    ensures WellFormed(p, b.key, b.key.vk.deltaG2, q, public, private, alpha, beta, tau, degree)
  {
    hide Mul, Add, Neg, Known, Combined, Evaluates;
  }

  /**
    Key well-formedness is conserved by every run: after any contributions, the queries and the
    public entries are those of the circuit, delta times each L entry is beta A + alpha B + C,
    delta times each H entry is tau^i (tau^m - 1), and delta is the product of the secrets.
   */
  lemma RunWellFormed(suite: Suite, hashKey: ProvingKey -> Hash, q: Assembly, c: Coefficients, schedule: Schedule,
                      alpha: Scalar, beta: Scalar, tau: Scalar, powers: nat, degree: nat, public: seq<nat>, private: seq<nat>,
                      versions: seq<Params>, deltas: seq<Scalar>, ss: seq<G1>, j: nat)
    requires suite.Valid() && Prepared(suite.p, c, alpha, beta, tau, powers, degree)
    requires Parted(c.coeffsG1, q.inputs, public, private)
    requires HonestRun(suite, versions, deltas, ss) && j < |versions|
    requires NewParams(suite.p, hashKey, q, c, schedule) == Accepted(versions[0])
    ensures versions[j].key.deltaG1 == versions[j].key.vk.deltaG2 == Product(suite.p, deltas[..j])
    ensures WellFormed(suite.p, versions[j].key, Product(suite.p, deltas[..j]), q, public, private, alpha, beta, tau, degree)
  {
    assert Evaluable(q, c) && versions[0].key == NewKeyMaterial(suite.p, q, c, schedule);
    assert versions[0].key.vk.deltaG2 == 1;
    assert |deltas| + 1 == |versions|;
    hide Prime, HonestRun, NewParams, Prepared, Parted;
    NewKeyWellFormed(suite.p, q, c, schedule, alpha, beta, tau, powers, degree, public, private);
    hide WellFormed, NewKeyMaterial;
    RunAccounted(suite, versions, deltas, ss, j);
    RunFollows(suite, versions, deltas, ss, 0, j);
    hide Follows, Explains, ParamsIn;
    FollowerWellFormed(suite.p, versions[0], versions[j], q, public, private, alpha, beta, tau, degree);
  }

  // ----- when the parameters are refused

  /** All rows have coefficients, of every kind they need, and there are at least as many variables as inputs. */
  ghost predicate Covers(q: Assembly, c: Coefficients) {
    var n := Variables(q);
    && KnownRows(q.at, c.coeffsG1, q.inputs, |q.at|) && KnownRows(q.at, c.betaCoeffsG1, q.inputs, n)
    && KnownRows(q.bt, c.coeffsG1, q.inputs, |q.bt|) && KnownRows(q.bt, c.coeffsG2, q.inputs, |q.bt|)
    && KnownRows(q.bt, c.alphaCoeffsG1, q.inputs, n) && KnownRows(q.ct, c.coeffsG1, q.inputs, n)
    && q.inputs <= n
  }

  /** The first `n` rows find all their variables among the coefficients, the first `inputs` of which are public. */
  ghost predicate KnownRows(rows: seq<Row>, coeffs: seq<nat>, inputs: nat, n: nat)
    requires n <= |rows|
  {
    var k := Min(inputs, |coeffs|);
    forall i :: 0 <= i < n ==> Known(rows[i], coeffs[..k], coeffs[k..])
  }

  lemma KnownRowsIs(rows: seq<Row>, coeffs: seq<nat>, inputs: nat, n: nat)
    requires n <= |rows|
    ensures KnownRows(rows, coeffs, inputs, n) <==> RowsFit(rows[..n], inputs, |coeffs|)
  {
    var k := Min(inputs, |coeffs|);
    assert Parted(coeffs, inputs, coeffs[..k], coeffs[k..]);
    hide Parted, Known, Fits;
    forall i | 0 <= i < n ensures Known(rows[i], coeffs[..k], coeffs[k..]) <==> Fits(rows[..n][i], inputs, |coeffs|) {
      FitsKnown(rows[i], coeffs, inputs, coeffs[..k], coeffs[k..]);
    }
  }

  lemma EvaluableIff(q: Assembly, c: Coefficients)
    ensures Evaluable(q, c) <==> Covers(q, c)
  {
    var n := Variables(q);
    assert q.at[..|q.at|] == q.at && q.bt[..|q.bt|] == q.bt;
    KnownRowsIs(q.at, c.coeffsG1, q.inputs, |q.at|);
    KnownRowsIs(q.at, c.betaCoeffsG1, q.inputs, n);
    KnownRowsIs(q.bt, c.coeffsG1, q.inputs, |q.bt|);
    KnownRowsIs(q.bt, c.coeffsG2, q.inputs, |q.bt|);
    KnownRowsIs(q.bt, c.alphaCoeffsG1, q.inputs, n);
    KnownRowsIs(q.ct, c.coeffsG1, q.inputs, n);
    hide KnownRows, RowsFit;
  }

  /**
    From coefficients as phase 1 prepares them, the parameters are created exactly when every row
    finds its coefficients and no private variable combines to zero.
   */
  lemma NewParamsIff(p: nat, hashKey: ProvingKey -> Hash, q: Assembly, c: Coefficients, schedule: Schedule,
                     alpha: Scalar, beta: Scalar, tau: Scalar, powers: nat, degree: nat,
                     public: seq<nat>, private: seq<nat>)
    requires 1 < p && Prepared(p, c, alpha, beta, tau, powers, degree) && Parted(c.coeffsG1, q.inputs, public, private)
    ensures var r := NewParams(p, hashKey, q, c, schedule);
      && (r.Panicked? <==> !Covers(q, c))
      && (Covers(q, c) ==>
            && WellFormed(p, NewKeyMaterial(p, q, c, schedule), 1, q, public, private, alpha, beta, tau, degree)
            && (r.Rejected? <==> exists i :: q.inputs <= i < Variables(q) && Combined(p, q, public, private, alpha, beta, i) == 0)
            && (r.Accepted? ==> r.value.key == NewKeyMaterial(p, q, c, schedule) && r.value.contributions == []))
  {
    EvaluableIff(q, c);
    hide Covers, Evaluable, Prepared, Parted;
    if Evaluable(q, c) {
      NewKeyWellFormed(p, q, c, schedule, alpha, beta, tau, powers, degree, public, private);
      var key := NewKeyMaterial(p, q, c, schedule);
      hide NewKeyMaterial;
      ZeroEntries(p, key, q, public, private, alpha, beta, tau, degree);
    }
    hide WellFormed, Combined;
  }

  lemma ZeroEntries(p: nat, key: ProvingKey, q: Assembly, public: seq<nat>, private: seq<nat>,
                    alpha: Scalar, beta: Scalar, tau: Scalar, degree: nat)
    requires 1 < p && WellFormed(p, key, 1, q, public, private, alpha, beta, tau, degree)
    requires forall i :: 0 <= i < |key.lQuery| ==> key.lQuery[i] < p
    ensures 0 in key.lQuery <==>
      exists i :: q.inputs <= i < Variables(q) && Combined(p, q, public, private, alpha, beta, i) == 0
  {
    hide Mul, Known, Combined;
    forall i | 0 <= i < |key.lQuery| ensures key.lQuery[i] == Combined(p, q, public, private, alpha, beta, q.inputs + i) {
      MulUnit(p, key.lQuery[i]);
    }
    if i :| q.inputs <= i < Variables(q) && Combined(p, q, public, private, alpha, beta, i) == 0 {
      assert key.lQuery[i - q.inputs] == 0;
    }
    if 0 in key.lQuery {
      var j :| 0 <= j < |key.lQuery| && key.lQuery[j] == 0;
      assert Combined(p, q, public, private, alpha, beta, q.inputs + j) == 0;
    }
  }
}
