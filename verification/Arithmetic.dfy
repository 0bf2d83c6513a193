/** Division and wrap-around facts that the models of fixed-width arithmetic rest on. */
module Arithmetic {

  lemma MulBelow(n: nat, a: int, b: int)
    requires n > 0 && a < b
    ensures n * a < n * b
  {
  }

  lemma MulAtLeast(t: nat, a: int, b: int)
    requires a >= b
    ensures t * a >= t * b
  {
  }

  lemma MulNext(m: nat, a: int, b: int)
    requires a < b
    ensures b * m >= a * m + m
  {
    MulAtLeast(m, b, a + 1);
    assert m * (a + 1) == a * m + m && m * b == b * m;
  }

  lemma DivisionUnique(x: nat, m: nat, q: int, r: nat)
    requires m > 0 && x == q * m + r && r < m
    ensures x / m == q && x % m == r
  {
    var q', r' := x / m, x % m;
    assert x == q' * m + r';
    if q < q' {
      MulNext(m, q, q');
    } else if q' < q {
      MulNext(m, q', q);
    }
  }

  lemma QuotientMonotone(x: nat, y: nat, m: nat)
    requires m > 0 && x <= y
    ensures x / m <= y / m
  {
    assert x == x / m * m + x % m && y == y / m * m + y % m;
    if y / m < x / m {
      MulNext(m, y / m, x / m);
    }
  }

  lemma SmallMod(x: nat, m: nat)
    requires m > 0
    ensures x < m ==> x % m == x
  {
    if x < m {
      DivisionUnique(x, m, 0, x);
    }
  }

  /** Wrapping early or late gives the same wrapped sum. */
  lemma AddMod(a: nat, b: nat, m: nat)
    requires m > 0
    ensures (a % m + b) % m == (a + b) % m
  {
    var q, q', r := a / m, (a % m + b) / m, (a % m + b) % m;
    assert a == q * m + a % m && a % m + b == q' * m + r;
    assert a + b == (q + q') * m + r;
    DivisionUnique(a + b, m, q + q', r);
  }
}
