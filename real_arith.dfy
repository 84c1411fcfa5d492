/** Small facts about real multiplication and division. Each is stated on
    plain variables so that the solver proves it in isolation, and the
    pipeline's proofs instantiate them with their own terms. */
module RealArith {

  /** Products of non-negative values grow with each factor. */
  lemma MulMono(a: real, b: real, c: real, d: real)
    requires 0.0 <= a <= b && 0.0 <= c <= d
    ensures 0.0 <= a * c <= b * d
  {
    assert 0.0 <= a * c;
    assert a * c <= b * c;
    assert b * c <= b * d;
  }

  /** Dividing a non-negative value by a positive one gives a
      non-negative result. */
  lemma DivNonneg(x: real, c: real)
    requires 0.0 <= x && 0.0 < c
    ensures 0.0 <= x / c
  {
  }

  /** Dividing by a positive value keeps the order. */
  lemma DivMono(x: real, y: real, c: real)
    requires x <= y && 0.0 < c
    ensures x / c <= y / c
  {
    DivNonneg(y - x, c);
    assert (y - x) / c == y / c - x / c;
  }

  /** A value strictly between 0 and a positive c is a fraction of c
      strictly between 0 and 1. */
  lemma Fraction(x: real, c: real)
    requires 0.0 < x < c
    ensures 0.0 < x / c < 1.0
  {
    DivMono(x, c, c);
    assert c / c == 1.0;
    assert x / c != 1.0;
    assert x / c != 0.0;
    DivNonneg(x, c);
  }
}
