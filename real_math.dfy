/**
 * `floor` and `ceil` of C's math library, on real numbers, and the
 * range check a cast of their result to `mal_uint64` needs.
 */
module RealMath {

  /** One more than the largest `mal_uint64`. */
  const U64_LIMIT: int := 0x1_0000_0000_0000_0000

  /** A value that a cast from an integral double to `mal_uint64` keeps. */
  predicate CastableToU64(i: int) {
    0 <= i < U64_LIMIT
  }

  /** The greatest integer not above `x`. */
  function Floor(x: real): (f: int)
    ensures f as real <= x < f as real + 1.0
  {
    x.Floor
  }

  /** The least integer not below `x`. */
  function Ceil(x: real): (c: int)
    ensures c as real - 1.0 < x <= c as real
  {
    -((-x).Floor)
  }

  /** `Ceil(x)` is the least integer that is at least `x`. */
  lemma CeilIsLeast(x: real, k: int)
    ensures k as real >= x <==> k >= Ceil(x)
  {
  }

  /** `Floor(x)` is the greatest integer that is at most `x`. */
  lemma FloorIsGreatest(x: real, k: int)
    ensures k as real <= x <==> k <= Floor(x)
  {
  }
}
