/** Exponential backoff with jitter, over reals. */
module Backoff {

  function Pow2(n: nat): real { if n == 0 then 1.0 else 2.0 * Pow2(n - 1) }

  function MinReal(a: real, b: real): real { if a <= b then a else b }

  /** The delay before jitter that the backoff is meant to compute. */
  function Capped(base: real, max: real, attempt: nat): real {
    MinReal(max, base * Pow2(attempt))
  }

  /** The effective jitter ratio. */
  function Jitter(ratio: real): real { if ratio < 0.05 then 0.05 else ratio }

  lemma {:induction false} Pow2Monotone(m: nat, n: nat)
    requires m <= n
    ensures 1.0 <= Pow2(m) <= Pow2(n)
    decreases n
  {
    if m < n {
      Pow2Monotone(m, n - 1);
    } else if n > 0 {
      Pow2Monotone(m - 1, n - 1);
    }
  }

  /** A later attempt never waits less, before jitter. */
  lemma CappedMonotone(base: real, max: real, m: nat, n: nat)
    requires 0.0 <= base <= max && m <= n
    ensures base <= Capped(base, max, m) <= Capped(base, max, n) <= max
  {
    Pow2Monotone(m, n);
    assert base * Pow2(m) <= base * Pow2(n);
    assert base * 1.0 <= base * Pow2(m);
  }

  /** The doubling loop stops as soon as the cap is reached; its value is then
      Capped(base, max, attempt). A negative base keeps its sign. */
  method ExpDelay(base: real, max: real, attempt: nat) returns (exp: real)
    requires base <= max
    ensures base >= 0.0 ==> exp == Capped(base, max, attempt)
    ensures base < 0.0 ==> exp < 0.0
  {
    exp := base;
    var i := 0;
    while i < attempt && exp < max
      invariant 0 <= i <= attempt
      invariant exp == base * Pow2(i)
      invariant base < 0.0 ==> exp < 0.0
    {
      exp := exp * 2.0;
      i := i + 1;
    }
    Pow2Monotone(i, attempt);
    if base >= 0.0 {
      assert base * Pow2(i) <= base * Pow2(attempt);
    }
    if exp > max {
      exp := max;
    }
  }

  lemma ProductSign(a: real, b: real)
    requires 0.0 <= a && 0.0 <= b
    ensures 0.0 <= a * b
  {
  }

  /** Scaling by a factor in [0, 1] moves a number towards zero. */
  lemma ProductShrinks(a: real, b: real, p: real)
    requires 0.0 <= b && b <= 1.0 && p == a * b
    ensures 0.0 <= a ==> 0.0 <= p && p <= a
    ensures a <= 0.0 ==> a <= p && p <= 0.0
  {
    var c, d := 1.0 - b, if 0.0 <= a then a else -a;
    ProductSign(d, b);
    ProductSign(d, c);
    assert d * c == d - d * b;
  }

  /** What a random share of the jitter leaves of a delay. */
  method Jittered(exp: real, jr: real, draw: real) returns (actual: real)
    requires 0.0 <= jr && jr <= 1.0 && 0.0 <= draw && draw < 1.0
    ensures actual == exp - exp * jr * draw
    ensures 0.0 <= exp ==> exp - exp * jr <= actual && actual <= exp && 0.0 <= actual
    ensures exp < 0.0 ==> actual <= 0.0
  {
    var swing := exp * jr;
    ProductShrinks(exp, jr, swing);
    var j := swing * draw;
    ProductShrinks(swing, draw, j);
    actual := exp - j;
  }

  /** The delay in whole milliseconds for every option set that passes validation: the doubled
      and capped delay, less the drawn share of its jitter, which is the ratio but at least 5%;
      draw is the random number in [0, 1). A negative base yields no delay. */
  method NextBackoff(base: int, max: int, ratio: real, attempt: nat, draw: real) returns (delay: int)
    requires base <= max && 0.0 <= ratio && ratio <= 1.0 && 0.0 <= draw && draw < 1.0
    ensures base >= 0 ==>
      var cap, jr := Capped(base as real, max as real, attempt), if ratio > 0.05 then ratio else 0.05;
      && delay == (cap - cap * jr * draw).Floor
      && (cap - cap * jr).Floor <= delay && delay as real <= cap
    ensures base < 0 ==> delay == 0
    ensures 0 <= delay
  {
    var exp := ExpDelay(base as real, max as real, attempt);
    var jr := Jitter(ratio);
    var actual := Jittered(exp, jr, draw);
    if base >= 0 {
      CappedMonotone(base as real, max as real, attempt, attempt);
    }
    FloorBetween(exp - exp * jr, actual, exp);
    if actual < 0.0 {
      actual := 0.0;
    }
    delay := actual.Floor;
  }

  lemma FloorBetween(a: real, b: real, c: real)
    ensures a <= b ==> a.Floor <= b.Floor
    ensures b <= c ==> b.Floor as real <= c
  {
  }
}
