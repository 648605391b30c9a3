/** Integer division facts used to index the grid enumerations: a quotient
    and remainder pair is unique, and stepping one whole column back
    lowers the quotient by one and keeps the remainder.
 */
module Arith {

  /** Quotient and remainder are the only such pair. */
  lemma DivModUnique(a: int, h: int, q: int, m: int)
    requires h > 0 && 0 <= m < h && a == q * h + m
    ensures a / h == q && a % h == m
  {
    var q', m' := a / h, a % h;
    assert (q - q') * h == m' - m;
    if q > q' {
      MulAtLeast(q - q', h);
    } else if q' > q {
      MulAtLeast(q' - q, h);
    }
  }

  lemma MulAtLeast(x: int, h: int)
    requires x >= 1 && h > 0
    ensures x * h >= h
  {
  }

  /** Stepping one whole column forward in an x-major enumeration of
      columns of height `h`. */
  lemma DivModStep(i: int, h: int)
    requires h > 0 && i >= h
    ensures (i - h) / h == i / h - 1
    ensures (i - h) % h == i % h
  {
    DivModUnique(i - h, h, i / h - 1, i % h);
  }

  lemma DivModSteps(h: int)
    requires h > 0
    ensures forall i :: h <= i ==> (i - h) / h == i / h - 1 && (i - h) % h == i % h
  {
    forall i | h <= i {
      DivModStep(i, h);
    }
  }
}
