/** Integer facts the other modules use; each product stays in one small lemma. */
module Arith {

  function Min(a: int, b: int): int { if a < b then a else b }

  lemma MulMonotone(a: int, b: int, c: int)
    requires a <= b && 0 <= c
    ensures a * c <= b * c
  {
    assert (b - a) * c >= 0;
  }

  /** Quotient and remainder are determined by their defining equation. */
  lemma DivUnique(i: int, size: int, q: int, r: int)
    requires 0 < size && 0 <= r < size && i == q * size + r
    ensures i / size == q && i % size == r
  {
    var q', r' := i / size, i % size;
    assert i == q' * size + r';
    if q' > q {
      MulMonotone(q + 1, q', size);
    } else if q' < q {
      MulMonotone(q' + 1, q, size);
    }
  }

  /** Stepping an index by one moves to the next quotient exactly at multiples of the size. */
  lemma DivStep(i: nat, size: nat)
    requires 0 < size
    ensures (i + 1) / size == i / size + (if (i + 1) % size == 0 then 1 else 0)
  {
    var q, r := i / size, i % size;
    assert i == q * size + r;
    if r + 1 < size {
      DivUnique(i + 1, size, q, r + 1);
    } else {
      DivUnique(i + 1, size, q + 1, 0);
    }
  }

  lemma DivMonotone(a: nat, c: nat, size: nat)
    requires 0 < size && a <= c
    ensures a / size <= c / size
  {
    var qa, qc := a / size, c / size;
    assert a == qa * size + a % size;
    assert c == qc * size + c % size;
    if qa > qc {
      MulMonotone(qc + 1, qa, size);
    }
  }

  /** Dividing twice is dividing once by the product. */
  lemma DivDiv(e: nat, a: nat, b: nat)
    requires 0 < a && 0 < b
    ensures 0 < a * b && (e / a) / b == e / (a * b)
  {
    var q, r := e / a, e % a;
    var q', r' := q / b, q % b;
    assert e == q * a + r && q == q' * b + r';
    DivParts(e, a, b, q, r, q', r');
  }

  lemma DivParts(e: nat, a: nat, b: nat, q: nat, r: nat, q': nat, r': nat)
    requires 0 < a && 0 < b && e == q * a + r && q == q' * b + r' && r < a && r' < b
    ensures 0 < a * b && e / (a * b) == q'
  {
    assert q * a == q' * (a * b) + r' * a;
    MulMonotone(r' + 1, b, a);
    assert (r' + 1) * a == r' * a + a && b * a == a * b;
    DivUnique(e, a * b, q', r' * a + r);
  }
}
