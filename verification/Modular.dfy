/** Facts about remainders with a variable divisor, which the solver does not find alone. */
module Modular {
  lemma {:induction false} DivUnique(x: int, q: int, r: int, c: int)
    requires 0 < c && x == q * c + r && 0 <= r < c
    ensures x / c == q && x % c == r
  {
    var q', r' := x / c, x % c;
    assert x == q' * c + r';
    assert (q - q') * c == r' - r && (q' - q) * c == r - r';
    if q > q' { MulAtLeast(q - q', c); }
    if q < q' { MulAtLeast(q' - q, c); }
  }

  lemma MulAtLeast(a: int, c: int)
    requires a >= 1 && c >= 0
    ensures a * c >= c
  {
  }

  lemma AddMultiple(x: int, q: int, c: int)
    requires 0 < c
    ensures (x + q * c) % c == x % c
  {
    assert x + q * c == (x / c + q) * c + x % c;
    DivUnique(x + q * c, x / c + q, x % c, c);
  }

  /** Numbers that differ by a multiple of d leave the same remainder on division by a divisor of d. */
  lemma Congruent(x: int, y: int, d: int, c: int, j: int)
    requires 0 < c && 0 < d && d == j * c && x % d == y % d
    ensures x % c == y % c
  {
    var q := x / d - y / d;
    assert x == y + q * d;
    assert q * d == (q * j) * c;
    AddMultiple(y, q * j, c);
  }

  /** Equal remainders stay equal when the same amount is added. */
  lemma Shift(x: int, y: int, amount: int, c: int)
    requires 0 < c && x % c == y % c
    ensures (x + amount) % c == (y + amount) % c
  {
    var q := x / c - y / c;
    assert x + amount == (y + amount) + q * c;
    AddMultiple(y + amount, q, c);
  }
}
