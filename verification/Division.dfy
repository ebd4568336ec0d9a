/** Division with remainder, as far as the linear solver does not know it. */
module Division {
  /** Quotient and remainder are unique. */
  lemma RemainderIs(x: nat, q: int, divisor: nat)
    requires x < divisor
    ensures (q * divisor + x) % divisor == x
  {
    var n := q * divisor + x;
    var q', r := n / divisor, n % divisor;
    assert q' * divisor + r == n;
    assert (q' - q) * divisor == x - r;
    NoMultipleBetween(q' - q, divisor, x - r);
  }

  lemma NoMultipleBetween(d: int, divisor: nat, m: int)
    requires d * divisor == m && -(divisor as int) < m < divisor
    ensures d == 0
  {
  }
}
