/**
  Division with a variable divisor, by repeated subtraction: the form in which
  proofs by induction on positions use it.
*/
module Arithmetic {

  function One(b: bool): nat { if b then 1 else 0 }

  function Rem(x: nat, m: nat): (r: nat)
    requires m > 0
    ensures r < m
  {
    if x < m then x else Rem(x - m, m)
  }

  function Quot(x: nat, m: nat): nat
    requires m > 0
  {
    if x < m then 0 else Quot(x - m, m) + 1
  }

  lemma MulMonotone(a: int, b: int, m: int)
    requires a <= b && 0 <= m
    ensures a * m <= b * m
  {
    assert 0 <= (b - a) * m;
  }

  /** Quotient and remainder are determined by their defining equation. */
  lemma DivModUnique(x: int, m: int, q: int, r: int)
    requires 0 <= r < m && x == q * m + r
    ensures x / m == q && x % m == r
  {
    var q', r' := x / m, x % m;
    assert x == q' * m + r';
    if q' > q {
      MulMonotone(q + 1, q', m);
    } else if q' < q {
      MulMonotone(q' + 1, q, m);
    }
  }

  lemma {:induction false} QuotRemEquation(x: nat, m: nat)
    requires m > 0
    ensures x == Quot(x, m) * m + Rem(x, m)
  {
    if x >= m { QuotRemEquation(x - m, m); }
  }

  lemma RemIsMod(x: nat, m: nat)
    requires m > 0
    ensures Rem(x, m) == x % m && Quot(x, m) == x / m
  {
    QuotRemEquation(x, m);
    DivModUnique(x, m, Quot(x, m), Rem(x, m));
  }
}
