/** Currency rounding, `roundCurrency` of assets/calc.js and assets/app.js.
    Amounts are exact reals; the `Number.EPSILON` nudge of the source only
    compensates binary floating point and has no counterpart here. */
module Money {

  /** A whole number of cents. */
  predicate IsCents(x: real) {
    (x * 100.0).Floor as real == x * 100.0
  }

  /** `Math.round(n * 100) / 100`: round half up to the cent. The result is
      the unique cent amount in the half-open window (x - 0.005, x + 0.005]
      (see `Round2Unique`). */
  function Round2(x: real): (r: real)
    ensures IsCents(r)
    ensures x - 0.005 < r <= x + 0.005
  {
    var n := (x * 100.0 + 0.5).Floor;
    assert (n as real / 100.0) * 100.0 == n as real;
    n as real / 100.0
  }

  /** Any cent amount in the rounding window of `x` is the rounded value:
      `Round2` is determined by its contract. */
  lemma Round2Unique(x: real, c: real)
    requires IsCents(c) && x - 0.005 < c <= x + 0.005
    ensures Round2(x) == c
  {
    var r := Round2(x);
    var a := (r * 100.0).Floor;
    var b := (c * 100.0).Floor;
    assert a as real == r * 100.0 && b as real == c * 100.0;
    assert -1.0 < a as real - b as real < 1.0;
    assert a == b;
  }

  /** Equal amounts round alike (stated as a lemma so that the prover sees
      the equality of two sums as an equality of the rounded values). */
  lemma Round2Congruent(x: real, y: real)
    requires x == y
    ensures Round2(x) == Round2(y)
  {
  }

  /** Rounding leaves cent amounts unchanged, so rounding twice is rounding once. */
  lemma Round2Idempotent(x: real)
    ensures Round2(Round2(x)) == Round2(x)
  {
    Round2Unique(Round2(x), Round2(x));
  }

  /** Rounding is monotone: a larger amount never rounds to a smaller one. */
  lemma Round2Monotone(x: real, y: real)
    requires x <= y
    ensures Round2(x) <= Round2(y)
  {
    var a := (x * 100.0 + 0.5).Floor;
    var b := (y * 100.0 + 0.5).Floor;
    assert a as real <= x * 100.0 + 0.5 <= y * 100.0 + 0.5 < b as real + 1.0;
    assert a <= b;
  }

  /** Rounding a whole number of cents gives it back. */
  lemma Round2OfWholeCents(n: int)
    ensures Round2(n as real / 100.0) == n as real / 100.0
  {
    var c := n as real / 100.0;
    assert c * 100.0 == n as real;
    Round2Unique(c, c);
  }
}
