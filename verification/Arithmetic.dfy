/**
 * Products of reals.  Every lemma names its product, so that its users never multiply.
 */
module Arithmetic {
  lemma ProductPositive(p: real, q: real, r: real)
    requires p > 0.0 && q > 0.0 && r == p * q
    ensures r > 0.0
  {
  }

  lemma ProductNegative(p: real, q: real, r: real)
    requires p < 0.0 && q > 0.0 && r == p * q
    ensures r < 0.0
  {
  }

  lemma DifferenceTimes(p: real, q: real, n: real)
    ensures q * n == p * n + (q - p) * n
  {
  }

  lemma TimesZero(p: real, n: real)
    requires n == 0.0
    ensures p * n == 0.0
  {
  }

  lemma ProductMonotone(p: real, q: real, n: real)
    requires p <= q && n >= 0.0
    ensures p * n <= q * n
    ensures p < q && n > 0.0 ==> p * n < q * n
  {
    DifferenceTimes(p, q, n);
    if n == 0.0 {
      TimesZero(p, n);
      TimesZero(q, n);
    } else if q > p {
      ProductPositive(q - p, n, (q - p) * n);
    }
  }

  lemma Quotient(p: real, n: real, r: real)
    requires n > 0.0 && r == p / n
    ensures r * n == p
  {
  }

  lemma QuotientMonotone(p: real, q: real, n: real)
    requires p <= q && n > 0.0
    ensures p / n <= q / n
  {
    var a, b := p / n, q / n;
    Quotient(p, n, a);
    Quotient(q, n, b);
    if a > b { ProductMonotone(b, a, n); }
  }
}
