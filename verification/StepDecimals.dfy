/**
 `decimalPlacesFromStep`: how many decimal places an instrument's step needs, in exact arithmetic.
 */
module StepDecimals {
  import opened Division

  const MAX_PLACES := 12

  function Pow10(p: nat): (r: nat)
    ensures r >= 1
  {
    if p == 0 then 1 else 10 * Pow10(p - 1)
  }

  /** `std::llround`: to the nearest integer, halves away from zero. */
  function Llround(x: real): int {
    if x >= 0.0 then (x + 0.5).Floor else -((-x + 0.5).Floor)
  }

  function Abs(x: real): real {
    if x < 0.0 then -x else x
  }

  /** Not an integer within the tolerance. */
  predicate Fractional(x: real) {
    Abs(x - Llround(x) as real) > x * 0.000000001 + 0.000000000001
  }

  function Scaled(step: real, p: nat): real {
    step * Pow10(p) as real
  }

  /** The first number of places at which the scaled step passes for an integer; 12 if there is none below. */
  method DecimalPlacesFromStep(step: real) returns (places: nat)
    ensures step <= 0.0 ==> places == 0
    ensures step > 0.0 ==> FirstWhole(step, places)
  {
    hide Fractional, Scaled;
    if step <= 0.0 {
      return 0;
    }
    places := 0;
    var scaled := step;
    Unscaled(step);
    while places < MAX_PLACES && Fractional(scaled)
      invariant places <= MAX_PLACES && scaled == Scaled(step, places)
      invariant forall p: nat :: p < places ==> Fractional(Scaled(step, p))
    {
      ScaledNext(step, places);
      scaled := scaled * 10.0;
      places := places + 1;
    }
  }

  ghost predicate FirstWhole(step: real, places: nat) {
    && places <= MAX_PLACES
    && (places < MAX_PLACES ==> !Fractional(Scaled(step, places)))
    && (forall p: nat :: p < places ==> Fractional(Scaled(step, p)))
  }

  lemma Unscaled(step: real)
    ensures Scaled(step, 0) == step
  {
  }

  lemma ScaledNext(step: real, p: nat)
    ensures Scaled(step, p + 1) == Scaled(step, p) * 10.0
  {
    var w := Pow10(p) as real;
    assert Pow10(p + 1) as real == w * 10.0;
    hide Pow10;
    Regroup(step, w, 10.0);
  }

  lemma Regroup(a: real, b: real, c: real)
    ensures (a * b) * c == a * (b * c)
  {
  }

  /** A step written as `n` units of the `k`-th decimal place, without a trailing zero. */
  ghost predicate IsStep(step: real, n: nat, k: nat) {
    step * Pow10(k) as real == n as real && n >= 1 && (k > 0 ==> n % 10 != 0)
  }

  lemma {:induction false} Pow10Sum(a: nat, b: nat)
    ensures Pow10(a + b) == Pow10(a) * Pow10(b)
  {
    if a > 0 {
      Pow10Sum(a - 1, b);
    }
  }

  lemma ScaledBack(step: real, n: nat, k: nat, p: nat)
    requires IsStep(step, n, k) && p <= k
    ensures Scaled(step, p) * Pow10(k - p) as real == n as real
  {
    Pow10Sum(p, k - p);
    ProductAsReal(Pow10(p), Pow10(k - p));
    hide Pow10;
    Regroup(step, Pow10(p) as real, Pow10(k - p) as real);
  }

  lemma ProductAsReal(a: int, b: int)
    ensures (a * b) as real == a as real * b as real
  {
  }

  /** No multiple of 10^d comes so close to `n` that the tolerance would let it pass. */
  lemma NoCloseMultiple(n: nat, d: nat, r: int)
    requires 1 <= n < 999999999 && n % 10 != 0 && 1 <= d <= 11
    ensures var e := n - r * Pow10(d); var dist := if e < 0 then -e else e;
      1000000000000 * dist > 1000 * n + Pow10(d)
  {
    var w := Pow10(d);
    PowerFacts(d);
    hide Pow10;
    NotTimesTen(n, r, Pow10(d - 1));
    if d <= 9 {
      Neighbour(n, w, Pow10(9 - d), r, r * w);
    } else {
      FarNeighbour(n, w, r, r * w);
    }
  }

  lemma PowerFacts(d: nat)
    requires 1 <= d <= 11
    ensures Pow10(d) == 10 * Pow10(d - 1)
    ensures d <= 9 ==> Pow10(9 - d) * Pow10(d) == 1000000000 && 10 <= Pow10(d) <= 1000000000
    ensures d > 9 ==> 10000000000 <= Pow10(d) <= 100000000000
  {
    Powers();
    hide Pow10;
    if d == 1 {
    } else if d == 2 {
    } else if d == 3 {
    } else if d == 4 {
    } else if d == 5 {
    } else if d == 6 {
    } else if d == 7 {
    } else if d == 8 {
    } else if d == 9 {
    } else if d == 10 {
    } else {
    }
  }

  /** Below 10^9 - 1 the neighbours of a multiple of `w` stay `w` away from 10^9. */
  lemma Neighbour(n: nat, w: nat, q: nat, r: int, m: int)
    requires n <= 999999998 && q * w == 1000000000 && 10 <= w <= 1000000000 && m == r * w && n != m
    ensures var e := n - m; 1000000000000 * (if e < 0 then -e else e) > 1000 * n + w
  {
    if r >= q {
      MulAtLeast(r, q, w);
    } else {
      MulAtLeast(q - 1, r, w);
      assert (q - 1) * w == 1000000000 - w;
    }
  }

  lemma FarNeighbour(n: nat, w: nat, r: int, m: int)
    requires n <= 999999998 && 10000000000 <= w <= 100000000000 && m == r * w && n != m
    ensures var e := n - m; 1000000000000 * (if e < 0 then -e else e) > 1000 * n + w
  {
    if r >= 1 {
      MulAtLeast(r, 1, w);
    } else {
      MulAtLeast(0, r, w);
    }
  }

  lemma MulAtLeast(a: int, b: int, w: nat)
    requires a >= b
    ensures a * w >= b * w
  {
  }

  lemma NotTimesTen(n: nat, r: int, w: nat)
    requires n % 10 != 0
    ensures n != r * (10 * w)
  {
    assert r * (10 * w) == 10 * (r * w);
  }

  lemma Powers()
    ensures Pow10(0) == 1 && Pow10(1) == 10 && Pow10(2) == 100 && Pow10(3) == 1000 && Pow10(4) == 10000 && Pow10(5) == 100000
    ensures Pow10(6) == 1000000 && Pow10(7) == 10000000 && Pow10(8) == 100000000 && Pow10(9) == 1000000000
    ensures Pow10(10) == 10000000000 && Pow10(11) == 100000000000 && Pow10(12) == 1000000000000
  {
    assert Pow10(4) == 10000;
    assert Pow10(8) == 100000000;
  }

  /** The tolerance test on n / 10^d in whole numbers. */
  lemma FractionalInUnits(x: real, n: nat, d: nat)
    requires x * Pow10(d) as real == n as real
    ensures var e := n - Llround(x) * Pow10(d); var dist := if e < 0 then -e else e;
      Fractional(x) <==> 1000000000000 * dist > 1000 * n + Pow10(d)
  {
    var r, w := Llround(x), Pow10(d);
    hide Llround, Pow10;
    OffBeyond(x, n, w, r);
  }

  lemma OffBeyond(x: real, n: nat, w: nat, r: int)
    requires x * w as real == n as real && w >= 1
    ensures var e := n - r * w; var dist := if e < 0 then -e else e;
      Abs(x - r as real) > x * 0.000000001 + 0.000000000001 <==> 1000000000000 * dist > 1000 * n + w
  {
    ProductAsReal(r, w);
    OffBeyondReal(x, r as real, w as real, n as real);
    var rw := r * w;
    assert (r as real) * (w as real) == rw as real;
    var e := n - rw;
    AbsInUnits(n, rw);
    InUnits(if e < 0 then -e else e, n, w);
  }

  lemma AbsInUnits(n: int, m: int)
    ensures Abs(n as real - m as real) == (if n - m < 0 then m - n else n - m) as real
  {
  }

  lemma OffBeyondReal(x: real, r: real, w: real, n: real)
    requires x * w == n && w > 0.0
    ensures Abs(x - r) > x * 0.000000001 + 0.000000000001
            <==> Abs(n - r * w) > n * 0.000000001 + w * 0.000000000001
  {
    OffInUnits(x, r, w, n);
    Scale(Abs(x - r), x * 0.000000001 + 0.000000000001, w);
  }

  lemma InUnits(dist: int, n: int, w: int)
    ensures dist as real > n as real * 0.000000001 + w as real * 0.000000000001
            <==> 1000000000000 * dist > 1000 * n + w
  {
  }

  lemma OffInUnits(x: real, r: real, w: real, n: real)
    requires x * w == n && w > 0.0
    ensures Abs(x - r) * w == Abs(n - r * w)
    ensures (x * 0.000000001 + 0.000000000001) * w == n * 0.000000001 + w * 0.000000000001
  {
    assert (x - r) * w == x * w - r * w;
    assert (r - x) * w == r * w - x * w;
    var c := x * 0.000000001;
    assert c * w == (x * w) * 0.000000001;
    assert (c + 0.000000000001) * w == c * w + 0.000000000001 * w;
  }

  lemma Scale(a: real, b: real, w: real)
    requires w > 0.0
    ensures a > b <==> a * w > b * w
  {
  }

  lemma WholeAt(x: real, n: nat)
    requires x == n as real
    ensures !Fractional(x)
  {
    assert x + 0.5 == n as real + 0.5;
    assert (n as real + 0.5).Floor == n;
    assert Llround(x) == n;
    assert Abs(x - n as real) == 0.0;
  }

  lemma StepAtPlaces(step: real, n: nat, k: nat)
    requires IsStep(step, n, k)
    ensures Scaled(step, k) == n as real
  {
  }

  // ---------------------------------------------------------------- when the result is exact

  /** How far `n` is from the nearest multiple of `w`. */
  function Distance(n: nat, w: nat): nat
    requires w >= 1
  {
    if n % w <= w - n % w then n % w else w - n % w
  }

  /** `n` units of a place stay clear of the whole numbers `d` places up, by more than the tolerance. */
  predicate Clear(n: nat, d: nat) {
    1000000000000 * Distance(n, Pow10(d)) > 1000 * n + Pow10(d)
  }

  lemma DistanceIs(n: nat, w: nat, r: int, m: int)
    requires w >= 1 && m == r * w && -(w as int) <= 2 * (n - m) <= w
    ensures Distance(n, w) == if n < m then m - n else n - m
  {
    if n >= m {
      RemainderIs(n - m, r, w);
    } else {
      assert (r - 1) * w == m - w;
      RemainderIs(n - (m - w), r - 1, w);
    }
  }

  lemma Nearest(x: real)
    ensures -0.5 <= x - Llround(x) as real <= 0.5
  {
  }

  lemma HalfInUnits(x: real, r: real, w: real, n: real)
    requires x * w == n && w > 0.0 && -0.5 <= x - r <= 0.5
    ensures -w <= 2.0 * (n - r * w) <= w
  {
    Spread(x, r, w, n, r * w);
    Between(x - r, w, n - r * w);
  }

  lemma Spread(a: real, b: real, w: real, aw: real, bw: real)
    requires aw == a * w && bw == b * w
    ensures aw - bw == (a - b) * w
  {
  }

  lemma Between(y: real, w: real, yw: real)
    requires yw == y * w && -0.5 <= y <= 0.5 && w > 0.0
    ensures -w <= 2.0 * yw <= w
  {
    NotNegative(0.5 - y, w);
    NotNegative(y + 0.5, w);
    Spread(0.5, y, w, 0.5 * w, yw);
    Spread(y, -0.5, w, yw, -0.5 * w);
  }

  lemma NotNegative(a: real, w: real)
    requires a >= 0.0 && w > 0.0
    ensures a * w >= 0.0
  {
  }

  lemma RoundedDistance(x: real, n: nat, d: nat)
    requires x * Pow10(d) as real == n as real
    ensures var m := Llround(x) * Pow10(d); Distance(n, Pow10(d)) == if n < m then m - n else n - m
  {
    var r, w := Llround(x), Pow10(d);
    Nearest(x);
    hide Llround, Pow10, Distance;
    HalfInUnits(x, r as real, w as real, n as real);
    ProductAsReal(r, w);
    var m := r * w;
    assert -(w as real) <= 2.0 * (n as real - m as real) <= w as real;
    DistanceIs(n, w, r, m);
  }

  lemma FractionalWhenClear(step: real, n: nat, k: nat, p: nat)
    requires IsStep(step, n, k) && p <= k
    ensures Fractional(Scaled(step, p)) <==> Clear(n, k - p)
  {
    hide Fractional, Scaled, Pow10, Llround, Distance, IsStep;
    ScaledBack(step, n, k, p);
    FractionalInUnits(Scaled(step, p), n, k - p);
    RoundedDistance(Scaled(step, p), n, k - p);
  }

  /** The result is the step's number of places if and only if that is at most twelve and the step's units stay clear of
      the whole numbers at every place before. */
  lemma ExactWhenClear(step: real, n: nat, k: nat, places: nat)
    requires IsStep(step, n, k) && FirstWhole(step, places)
    ensures places == k <==> k <= 12 && forall d :: 1 <= d <= k ==> Clear(n, d)
  {
    hide Fractional, Scaled, Pow10, Llround, Clear, IsStep;
    StepAtPlaces(step, n, k);
    WholeAt(Scaled(step, k), n);
    if places <= k {
      forall d | 1 <= d <= k ensures Clear(n, d) <==> Fractional(Scaled(step, k - d)) {
        FractionalWhenClear(step, n, k, k - d);
      }
      if places < k && places < MAX_PLACES {
        var d := k - places;
        assert places == k - d;
        assert !Clear(n, d);
      }
    }
  }

  lemma Quotient(n: nat, w: nat)
    requires w >= 1
    ensures n == n / w * w + n % w && (n / w + 1) * w == n / w * w + w
  {
  }

  lemma ClearBelow(n: nat, d: nat)
    requires 1 <= n < 999999999 && n % 10 != 0 && 1 <= d <= 11
    ensures Clear(n, d)
  {
    var w := Pow10(d);
    var q := n / w;
    NoCloseMultiple(n, d, q);
    NoCloseMultiple(n, d, q + 1);
    hide Pow10;
    Quotient(n, w);
  }

  /** In particular every step of up to eleven places and below 999999999 units gets exactly its places. */
  lemma PlacesExact(step: real, n: nat, k: nat, places: nat)
    requires IsStep(step, n, k) && k <= 11 && n < 999999999
    requires FirstWhole(step, places)
    ensures places == k
  {
    ExactWhenClear(step, n, k, places);
    hide Clear, FirstWhole;
    forall d | 1 <= d <= k ensures Clear(n, d) {
      ClearBelow(n, d);
    }
  }

  // ---------------------------------------------------------------- what the places are good for

  ghost predicate IsWhole(x: real) {
    x == x.Floor as real
  }

  function Multiple(step: real, j: int): real {
    j as real * step
  }

  /** `p` decimal places write `x` without rounding. */
  ghost predicate Exact(x: real, p: nat) {
    IsWhole(Scaled(x, p))
  }

  lemma MultipleExact(step: real, j: int, p: nat)
    requires Exact(step, p)
    ensures Exact(Multiple(step, j), p)
  {
    var x := Scaled(step, p);
    Regroup(j as real, step, Pow10(p) as real);
    ProductAsReal(j, x.Floor);
    hide Pow10;
    assert Scaled(Multiple(step, j), p) == (j * x.Floor) as real;
  }

  /** `p` places write every multiple of the step exactly if and only if they are at least its places: with the result of
      `DecimalPlacesFromStep` nothing is rounded, and no fewer places would do. */
  lemma PlacesNeeded(step: real, n: nat, k: nat, p: nat)
    requires IsStep(step, n, k)
    ensures (forall j: int :: Exact(Multiple(step, j), p)) <==> p >= k
  {
    if p >= k {
      WholeFrom(step, n, k, p);
      forall j: int ensures Exact(Multiple(step, j), p) {
        MultipleExact(step, j, p);
      }
    } else {
      NotWholeBefore(step, n, k, p);
      assert Multiple(step, 1) == step;
    }
  }

  lemma WholeFrom(step: real, n: nat, k: nat, p: nat)
    requires IsStep(step, n, k) && p >= k
    ensures IsWhole(Scaled(step, p))
  {
    Pow10Sum(k, p - k);
    ProductAsReal(Pow10(k), Pow10(p - k));
    ProductAsReal(n, Pow10(p - k));
    Regroup(step, Pow10(k) as real, Pow10(p - k) as real);
    hide Pow10;
    assert Scaled(step, p) == (n * Pow10(p - k)) as real;
  }

  lemma NotWholeBefore(step: real, n: nat, k: nat, p: nat)
    requires IsStep(step, n, k) && p < k
    ensures !IsWhole(Scaled(step, p))
  {
    ScaledBack(step, n, k, p);
    var r := Scaled(step, p).Floor;
    ProductAsReal(r, Pow10(k - p));
    NotTimesTen(n, r, Pow10(k - p - 1));
    hide Scaled;
  }

  // ---------------------------------------------------------------- beyond these bounds

  /** The first units where it can go wrong: 999999999 of the eighth place, 9.99999999, pass for 10. */
  lemma UnitsBoundIsSharp(step: real)
    requires step == 9.99999999
    ensures IsStep(step, 999999999, 8) && FirstWhole(step, 0)
  {
    Powers();
  }

  /** One unit of the twelfth place is within the tolerance of 0. */
  lemma PlacesBoundIsSharp(step: real)
    requires step == 0.000000000001
    ensures IsStep(step, 1, 12) && FirstWhole(step, 0)
  {
    Powers();
  }

  /** Beyond the bound it depends on the digits: 150000000.5, 1500000005 units of the first place, gets its one place. */
  lemma LargeStepCanBeExact(step: real, places: nat)
    requires step == 150000000.5 && FirstWhole(step, places)
    ensures places == 1
  {
    Powers();
    assert IsStep(step, 1500000005, 1);
    assert Clear(1500000005, 1);
    ExactWhenClear(step, 1500000005, 1, places);
  }
}
