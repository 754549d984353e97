/** Quotients and products. */
module Arithmetic {

  lemma MulGrows(q: int, q': int, m: nat)
    requires q <= q'
    ensures q * m <= q' * m
  {
  }

  /** A number has one quotient and one remainder. */
  lemma DivisionIsUnique(q: int, r: nat, q': int, r': nat, m: nat)
    requires r < m && r' < m && q * m + r == q' * m + r'
    ensures q == q' && r == r'
  {
    if q < q' {
      MulGrows(q + 1, q', m);
    } else if q' < q {
      MulGrows(q' + 1, q, m);
    }
  }

  lemma QuotientIsBelow(x: nat, m: nat, n: nat)
    requires m > 0 && x < n * m
    ensures 0 <= x / m < n && x == (x / m) * m + x % m
  {
    if x / m >= n {
      MulGrows(n, x / m, m);
    }
  }

  lemma QuotientGrows(a: nat, b: nat, m: nat)
    requires a <= b && m > 0
    ensures a / m <= b / m
  {
    if a / m > b / m {
      MulGrows(b / m + 1, a / m, m);
    }
  }

  lemma QuotientOfProduct(n: nat, e: nat)
    requires e > 0
    ensures n * e / e == n
  {
    DivisionIsUnique(n, 0, n * e / e, n * e % e, e);
  }
}
