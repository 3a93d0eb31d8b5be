/** Floor-division facts behind the shifts and fixed-point products of the scheduler module. */
module FixedPoint {
  function Pow2(n: nat): (r: nat)
    ensures r >= 1
  {
    if n == 0 then 1 else 2 * Pow2(n - 1)
  }

  function Quotient(a: nat, d: nat): nat
    requires d > 0
  {
    a / d
  }

  /** `a / d` is the only `q` with `q * d <= a < (q + 1) * d`. */
  lemma QuotientUnique(a: int, d: int, q: int)
    requires d > 0
    requires q * d <= a < (q + 1) * d
    ensures a / d == q
  {
    var e := a / d;
    assert a == e * d + a % d;
    if e < q {
      MulMono(e + 1, q, d);
    } else if e > q {
      MulMono(q + 1, e, d);
    }
  }

  lemma QuotientBounds(a: int, d: int)
    requires d > 0
    ensures a / d * d <= a < (a / d + 1) * d
  {
  }

  lemma MulMono(a: int, b: int, c: int)
    requires a <= b && c >= 0
    ensures a * c <= b * c
  {
  }

  lemma DivMono(a: int, b: int, d: int)
    requires a <= b && d > 0
    ensures a / d <= b / d
  {
    QuotientBounds(a, d);
    QuotientBounds(b, d);
    if a / d > b / d {
      MulMono(b / d + 1, a / d, d);
    }
  }

  lemma DivSuperadditive(a: int, b: int, d: int)
    requires d > 0
    ensures a / d + b / d <= (a + b) / d
  {
    QuotientBounds(a, d);
    QuotientBounds(b, d);
    var q := a / d + b / d;
    assert q * d <= a + b;
    DivMono(q * d, a + b, d);
    QuotientUnique(q * d, d, q);
  }

  /** Dividing twice rounds no worse than dividing once. */
  lemma DivDiv(a: int, b: int, c: int)
    requires b > 0 && c > 0
    ensures b * c > 0
    ensures a / b / c == a / (b * c)
  {
    var q := a / b;
    var r := q / c;
    QuotientBounds(a, b);
    QuotientBounds(q, c);
    MulMono(r * c, q, b);
    MulMono(q + 1, (r + 1) * c, b);
    assert r * c * b == r * (b * c);
    assert (r + 1) * c * b == (r + 1) * (b * c);
    assert b * c > 0;
    QuotientUnique(a, b * c, r);
  }

  lemma Pow2Add(a: nat, b: nat)
    ensures Pow2(a + b) == Pow2(a) * Pow2(b)
  {
    if a > 0 {
      Pow2Add(a - 1, b);
    }
  }

  lemma Pow2Mono(a: nat, b: nat)
    requires a <= b
    ensures Pow2(a) <= Pow2(b)
  {
  }
}
