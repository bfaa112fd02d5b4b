/** Counters and indices modulo a size. */
module Modular {

  function Wrap(x: int, m: nat): (r: nat)
    requires m > 0
    ensures r < m
  {
    x % m
  }

  lemma MulLe(d: nat, a: int, b: int)
    requires a < b
    ensures d * a + d <= d * b
  {
    assert d * (a + 1) == d * a + d;
    assert d * (b - a - 1) >= 0;
    assert d * (a + 1) + d * (b - a - 1) == d * b;
  }

  lemma ModUnique(x: int, d: nat, q: int, r: int)
    requires d >= 1 && x == d * q + r && 0 <= r < d
    ensures x % d == r && x / d == q
  {
    var q' := x / d;
    assert x == d * q' + x % d;
    if q > q' {
      MulLe(d, q', q);
    } else if q < q' {
      MulLe(d, q, q');
    }
  }

  lemma WrapUnique(x: int, m: nat, q: int, r: nat)
    requires m > 0 && x == m * q + r && r < m
    ensures Wrap(x, m) == r
  {
    ModUnique(x, m, q, r);
  }

  /** Counting on modulo `m`, also from the remainder. */
  lemma WrapAdd(x: int, n: nat, m: nat)
    requires m > 0
    ensures Wrap(Wrap(x, m) + n, m) == Wrap(x + n, m)
  {
    var q := x / m;
    var y := Wrap(x, m) + n;
    var k := y / m;
    assert x + n == m * (q + k) + y % m;
    WrapUnique(x + n, m, q + k, y % m);
  }

  lemma WrapParity(x: nat, m: nat)
    requires m > 0 && m % 2 == 0
    ensures Wrap(x, m) % 2 == x % 2
  {
    var q, h := x / m, m / 2;
    assert x == 2 * (h * q) + Wrap(x, m) by {
      assert x == m * q + x % m && m == 2 * h;
      assert m * q == 2 * (h * q);
    }
  }

  /** Equal remainders less than `m` apart are equal counts. */
  lemma WrapSame(a: nat, b: nat, m: nat)
    requires m > 0 && a <= b < a + m && Wrap(a, m) == Wrap(b, m)
    ensures a == b
  {
    var p, q := a / m, b / m;
    assert a == m * p + Wrap(a, m) && b == m * q + Wrap(b, m);
    if q > p {
      MulLe(m, p, q);
    } else if p > q {
      MulLe(m, q, p);
    }
  }

  /** Indices less than `m` apart have different slots. */
  lemma WrapDiffers(a: nat, b: nat, m: nat)
    requires m > 0 && a < b < a + m
    ensures Wrap(a, m) != Wrap(b, m)
  {
    if Wrap(a, m) == Wrap(b, m) {
      WrapSame(a, b, m);
    }
  }
}
