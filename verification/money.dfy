/** Monetary amounts and their truncation to whole cents.

    Amounts are exact `real`s. The billing service reports amounts as decimal
    strings which the handler turns into numbers and cuts down to a whole cent
    with `floor(x * 100) / 100` (truncation toward negative infinity, never
    rounding to nearest).
 */
module Money {

  /** True iff `x` is a whole number of cents. */
  predicate WholeCents(x: real) {
    (x * 100.0).Floor as real == x * 100.0
  }

  /** The largest whole-cent amount that does not exceed `x`. */
  function Normalize(x: real): (r: real)
    ensures WholeCents(r)
    ensures r <= x < r + 0.01
  {
    (x * 100.0).Floor as real / 100.0
  }

  /** Whole-cent amounts are closed under addition. */
  lemma WholeCentsAdd(x: real, y: real)
    requires WholeCents(x) && WholeCents(y)
    ensures WholeCents(x + y)
  {
    var i, j := (x * 100.0).Floor, (y * 100.0).Floor;
    assert (x + y) * 100.0 == (i + j) as real;
  }

  /** Normalize is the unique whole-cent amount in the half-open cent `(x - 0.01, x]`. */
  lemma NormalizeUnique(x: real, c: real)
    requires WholeCents(c) && c <= x < c + 0.01
    ensures c == Normalize(x)
  {
    var r := Normalize(x);
    var i, j := (c * 100.0).Floor, (r * 100.0).Floor;
    assert i as real == c * 100.0 && j as real == r * 100.0;
    assert i - 1 < j < i + 1;
  }

  /** Normalize gives the greatest whole-cent amount not above `x`. */
  lemma NormalizeGreatest(x: real, c: real)
    requires WholeCents(c) && c <= x
    ensures c <= Normalize(x)
  {
    var i := (c * 100.0).Floor;
    assert i as real <= x * 100.0;
    assert i <= (x * 100.0).Floor;
  }

  /** A whole-cent amount is left unchanged, so truncating twice is truncating once. */
  lemma NormalizeFixesWholeCents(x: real)
    requires WholeCents(x)
    ensures Normalize(x) == x
  {
    NormalizeUnique(x, x);
  }

  lemma NormalizeIdempotent(x: real)
    ensures Normalize(Normalize(x)) == Normalize(x)
  {
    NormalizeFixesWholeCents(Normalize(x));
  }

  /** Truncation never reverses the order of two amounts. */
  lemma NormalizeMonotone(x: real, y: real)
    requires x <= y
    ensures Normalize(x) <= Normalize(y)
  {
    NormalizeGreatest(y, Normalize(x));
  }

  /** Worked values: truncation, not rounding, and floor semantics for negatives. */
  lemma NormalizeExamples()
    ensures Normalize(2.567) == 2.56
    ensures Normalize(2.0) == 2.0
    ensures Normalize(-0.001) == -0.01
    ensures Normalize(0.0) == 0.0
  {
    NormalizeUnique(2.567, 2.56);
    NormalizeUnique(2.0, 2.0);
    NormalizeUnique(-0.001, -0.01);
    NormalizeUnique(0.0, 0.0);
  }
}
