/** Decimal money. Amounts are exact rationals; rounding to cents is written out. */
module Money {
  function Abs(x: real): real {
    if x < 0.0 then -x else x
  }

  function Max(x: real, y: real): real {
    if x < y then y else x
  }

  function Min(x: real, y: real): real {
    if y < x then y else x
  }

  predicate InCents(x: real) {
    (x * 100.0).Floor as real == x * 100.0
  }

  /** The largest whole number of cents not above t. */
  function FloorCents(t: real): real {
    (t * 100.0).Floor as real / 100.0
  }

  /** Quantize to cents, ties away from zero. */
  function Q(x: real): real {
    if x >= 0.0 then (x * 100.0 + 0.5).Floor as real / 100.0
    else -((-x * 100.0 + 0.5).Floor as real / 100.0)
  }

  /** Nearest integer, ties to the even neighbour. */
  function HalfEven(x: real): int {
    var f := x.Floor;
    var part := x - f as real;
    if part < 0.5 || (part == 0.5 && f % 2 == 0) then f else f + 1
  }

  /** A nearest integer, and of two equally near the even one. */
  predicate NearestEven(n: int, x: real) {
    || -0.5 < n as real - x < 0.5
    || ((n as real - x == 0.5 || n as real - x == -0.5) && n % 2 == 0)
  }

  /** The half-even rule itself, both ways. */
  lemma HalfEvenIsNearest(x: real, n: int)
    ensures n == HalfEven(x) <==> NearestEven(n, x)
  {
    var f := x.Floor;
    assert NearestEven(HalfEven(x), x);
    if NearestEven(n, x) {
      assert n == f || n == f + 1;
    }
  }

  lemma HalfEvenMonotone(x: real, y: real)
    requires x <= y
    ensures HalfEven(x) <= HalfEven(y)
  {
    if x.Floor < y.Floor {
      assert HalfEven(x) <= x.Floor + 1;
    } else {
      assert x.Floor == y.Floor;
    }
  }

  /** Quantize to cents with the decimal library's default rounding. */
  function QEven(x: real): real {
    HalfEven(x * 100.0) as real / 100.0
  }

  /** Rounded to a nearest cent, and of two equally near the even one. */
  lemma QEvenIsNearest(x: real, cents: int)
    ensures QEven(x) == cents as real / 100.0 <==> NearestEven(cents, 100.0 * x)
  {
    HalfEvenIsNearest(100.0 * x, cents);
  }

  /** The rounding rule itself: the nearest cent, and on a tie the one further from zero. */
  ghost predicate NearestCent(r: real, x: real) {
    InCents(r) && (Abs(r - x) < 0.005 || (Abs(r - x) == 0.005 && Abs(r) > Abs(x)))
  }

  lemma CentsUnique(a: int, b: int, x: real)
    requires Abs(a as real / 100.0 - x) < 0.005
    requires Abs(b as real / 100.0 - x) <= 0.005
    ensures a == b
  {
    assert Abs((a - b) as real) < 1.0;
  }

  lemma QIsNearestCent(x: real, r: real)
    ensures r == Q(x) <==> NearestCent(r, x)
  {
    var n := if x >= 0.0 then (x * 100.0 + 0.5).Floor else -(-x * 100.0 + 0.5).Floor;
    assert Q(x) == n as real / 100.0;
    assert NearestCent(Q(x), x);
    if NearestCent(r, x) {
      var m := (r * 100.0).Floor;
      assert r == m as real / 100.0;
      if Abs(r - x) < 0.005 {
        CentsUnique(m, n, x);
      } else if Abs(Q(x) - x) < 0.005 {
        CentsUnique(n, m, x);
      }
    }
  }

  lemma QError(x: real)
    ensures Abs(Q(x) - x) <= 0.005
    ensures InCents(Q(x))
  {
    QIsNearestCent(x, Q(x));
  }

  lemma QMonotone(x: real, y: real)
    requires x <= y
    ensures Q(x) <= Q(y)
  {
    QAtMost(x, Q(y));
    QAtMost(y, Q(y));
  }

  lemma QOfCents(x: real)
    requires InCents(x)
    ensures Q(x) == x
  {
    QIsNearestCent(x, x);
  }

  lemma WholeCents(n: int)
    ensures InCents(n as real / 100.0)
  {
    assert n as real / 100.0 * 100.0 == n as real;
  }

  lemma CentsClosed(x: real, y: real)
    requires InCents(x) && InCents(y)
    ensures InCents(x + y) && InCents(x - y) && InCents(-x)
  {
    var m, n := (x * 100.0).Floor, (y * 100.0).Floor;
    WholeCents(m + n);
    WholeCents(m - n);
    WholeCents(-m);
    assert x + y == (m + n) as real / 100.0 && x - y == (m - n) as real / 100.0 && -x == (-m) as real / 100.0;
  }

  /** Exactly which amounts a rounded value stays at or below t for. */
  lemma QAtMost(x: real, t: real)
    ensures Q(x) <= t <==> (if x >= 0.0 then x < FloorCents(t) + 0.005 else x <= FloorCents(t) + 0.005)
  {
    var f := (t * 100.0).Floor;
    if x >= 0.0 {
      var n := (x * 100.0 + 0.5).Floor;
      assert Q(x) <= t <==> n as real <= t * 100.0;
      assert n as real <= t * 100.0 <==> n <= f;
    } else {
      var n := (-x * 100.0 + 0.5).Floor;
      assert Q(x) <= t <==> (-n) as real <= t * 100.0;
      assert (-n) as real <= t * 100.0 <==> -n <= f;
    }
  }
}
