/** The JavaScript number operations the calculators use, on exact reals:
    `Math.min`, `Math.floor` and the remainder operator `%`, whose result
    takes the sign of the dividend (it truncates the quotient toward zero). */
module JsMath {

  /** `Math.min(a, b)`. */
  function Min(a: real, b: real): (r: real)
    ensures r <= a && r <= b
    ensures r == a || r == b
  {
    if a <= b then a else b
  }

  /** `Math.floor(x)`. */
  function Floor(x: real): (r: int)
    ensures r as real <= x < r as real + 1.0
  {
    x.Floor
  }

  /** `Math.trunc(x)`: rounds toward zero. */
  function Trunc(x: real): int
  {
    if x >= 0.0 then x.Floor else -((-x).Floor)
  }

  /** `a % b` on numbers. */
  function Rem(a: real, b: real): real
    requires b != 0.0
  {
    a - Trunc(a / b) as real * b
  }

  lemma MulMonotone(a: real, b: real, c: real)
    requires a <= b && c >= 0.0
    ensures a * c <= b * c
  {
  }

  lemma MulStrict(a: real, b: real, c: real)
    requires a < b && c > 0.0
    ensures a * c < b * c
  {
  }

  lemma DivByProduct(x: real, y: real, size: real)
    requires size > 0.0 && x * size == y
    ensures y / size == x
  {
  }

  /** Scaling the bounds of a quotient by its positive divisor. */
  lemma QuotientBounds(q: real, size: real, lo: real)
    requires size > 0.0 && lo <= q / size < lo + 1.0
    ensures lo * size <= q < lo * size + size
  {
    var t := q / size;
    var hi := lo + 1.0;
    assert t * size == q;
    MulMonotone(lo, t, size);
    MulStrict(t, hi, size);
    assert t * size < hi * size;
    assert hi * size == lo * size + size;
    assert q < hi * size;
  }

  /** For a non-negative dividend, `Math.floor(q / size)` complete groups and
      `q % size` left over split `q` exactly, with a remainder below `size`. */
  lemma FloorRem(q: real, size: real)
    requires q >= 0.0 && size > 0.0
    ensures Floor(q / size) >= 0
    ensures Floor(q / size) as real * size + Rem(q, size) == q
    ensures 0.0 <= Rem(q, size) < size
  {
    var t := q / size;
    var f := t.Floor;
    assert Trunc(t) == f;
    QuotientBounds(q, size, f as real);
  }

  /** A quantity below one group makes no complete group. */
  lemma FloorRemBelowOneGroup(q: real, size: real)
    requires 0.0 <= q < size
    ensures Floor(q / size) == 0 && Rem(q, size) == q
  {
    var t := q / size;
    assert t * size == q;
    if t < 0.0 {
      MulMonotone(t, 0.0, size);
      assert false;
    }
    if t >= 1.0 {
      MulMonotone(1.0, t, size);
      assert false;
    }
  }

  /** One more group's worth of quantity makes one more complete group and
      leaves the remainder as it was. */
  lemma FloorRemAddGroup(q: real, size: real)
    requires q >= 0.0 && size > 0.0
    ensures Floor((q + size) / size) == Floor(q / size) + 1
    ensures Rem(q + size, size) == Rem(q, size)
  {
    var t := q / size;
    assert t * size == q;
    assert (t + 1.0) * size == q + size;
    DivByProduct(t + 1.0, q + size, size);
    FloorRem(q, size);
    FloorRem(q + size, size);
  }
}
