/** Exact decimal money. Amounts are `real`s; two roundings to whole cents
    exist: `Round2` for Python's `round` and `RoundHalfAway` for the summary
    query's `ROUND`. */
module Money {

  function Abs(x: real): real {
    if x < 0.0 then -x else x
  }

  /** `x` has at most two fractional digits. */
  predicate IsCents(x: real) {
    (x * 100.0).Floor as real == x * 100.0
  }

  /** Rounding to two decimal places, as `round(x, 2)` does: to the nearest
      cents value, ties to the even cent (the default of Python's decimal context). */
  function Round2(x: real): (r: real)
    ensures IsCents(r)
    ensures Abs(r - x) <= 0.005
  {
    var y := x * 100.0;
    var f := y.Floor;
    var frac := y - f as real;
    var n := if frac < 0.5 then f
             else if frac > 0.5 then f + 1
             else if f % 2 == 0 then f
             else f + 1;
    n as real / 100.0
  }

  /** Rounding to two decimal places with ties away from zero, as
      PostgreSQL's `ROUND(numeric, 2)` does. */
  function RoundHalfAway(x: real): (r: real)
    ensures IsCents(r)
    ensures Abs(r - x) <= 0.005
  {
    if x < 0.0 then
      var c := RoundHalfUp(-x);
      var k := (c * 100.0).Floor;
      assert -c == (-k) as real / 100.0;
      WholeIsCents(-k);
      -c
    else RoundHalfUp(x)
  }

  /** Ties-away rounding of an amount that is not negative: halves go up. */
  function RoundHalfUp(x: real): (r: real)
    requires x >= 0.0
    ensures IsCents(r)
    ensures Abs(r - x) <= 0.005
  {
    var y := x * 100.0;
    var f := y.Floor;
    var n := if y - f as real < 0.5 then f else f + 1;
    WholeIsCents(n);
    n as real / 100.0
  }

  /** Ties-away rounding also leaves an amount in cents unchanged. */
  lemma RoundHalfAwayOfCents(x: real)
    requires IsCents(x)
    ensures RoundHalfAway(x) == x
  {
    if x < 0.0 {
      var k := (x * 100.0).Floor;
      assert x == k as real / 100.0;
      assert -x == (-k) as real / 100.0;
      WholeIsCents(-k);
      RoundHalfUpOfCents(-x);
    } else {
      RoundHalfUpOfCents(x);
    }
  }

  lemma RoundHalfUpOfCents(x: real)
    requires x >= 0.0 && IsCents(x)
    ensures RoundHalfUp(x) == x
  {
    var f := (x * 100.0).Floor;
    assert x * 100.0 == f as real;
  }

  /** The two rounding rules part only on a tie: 0.025 goes to 0.02 with
      ties to even and to 0.03 with ties away from zero. */
  lemma RoundingRulesDifferOnTies()
    ensures Round2(0.025) == 0.02 && RoundHalfAway(0.025) == 0.03
  {
    assert (0.025 * 100.0).Floor == 2;
  }

  /** No cents amount is nearer to `x` than `Round2(x)`. */
  lemma Round2IsNearest(x: real, c: real)
    requires IsCents(c)
    ensures Abs(Round2(x) - x) <= Abs(c - x)
  {
    var r := Round2(x);
    var n := (r * 100.0).Floor;
    var k := (c * 100.0).Floor;
    assert r == n as real / 100.0;
    assert c == k as real / 100.0;
    if k < n {
      assert k as real <= n as real - 1.0;
    } else if k > n {
      assert k as real >= n as real + 1.0;
    }
  }

  /** Rounding leaves an amount that is already in cents unchanged. */
  lemma Round2OfCents(x: real)
    requires IsCents(x)
    ensures Round2(x) == x
  {
    var f := (x * 100.0).Floor;
    assert x * 100.0 == f as real;
  }

  /** Sums and differences of cents amounts are cents amounts. */
  lemma CentsClosed(a: real, b: real)
    requires IsCents(a) && IsCents(b)
    ensures IsCents(a + b) && IsCents(a - b)
  {
    var ka := (a * 100.0).Floor;
    var kb := (b * 100.0).Floor;
    assert a * 100.0 == ka as real;
    assert b * 100.0 == kb as real;
    WholeIsCents(ka + kb);
    WholeIsCents(ka - kb);
    assert (a + b) * 100.0 == (ka + kb) as real;
    assert (a - b) * 100.0 == (ka - kb) as real;
  }

  /** A whole number of cents is a cents amount. */
  lemma WholeIsCents(k: int)
    ensures IsCents(k as real / 100.0)
  {
    assert (k as real / 100.0) * 100.0 == k as real;
  }
}
