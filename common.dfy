// Small value types shared by the model of the arena game.
module Common {

  /** A JavaScript value that may be `null`/`undefined` (None) or present (Some). */
  datatype Option<+T> = None | Some(value: T)

  /** The two game modes. */
  const Solo: string := "SOLO"
  const Campagne: string := "CAMPAGNE"

  /** `Math.max` on integers. */
  function Max(a: int, b: int): int
  {
    if a >= b then a else b
  }

  /** `Math.min` on integers. */
  function Min(a: int, b: int): int
  {
    if a <= b then a else b
  }

  /** A positive multiple of a positive number is at least that number. */
  lemma MulAtLeast(d: int, n: int)
    requires d >= 1 && n > 0
    ensures d * n >= n
  {
    assert d * n == (d - 1) * n + n;
  }

  /** Euclidean division is unique: x == q * n + r with 0 <= r < n fixes x / n and x % n. */
  lemma DivModUnique(x: int, q: int, n: int, r: int)
    requires n > 0 && 0 <= r < n && x == q * n + r
    ensures x / n == q && x % n == r
  {
    var q', r' := x / n, x % n;
    assert (q - q') * n == r' - r;
    if q - q' >= 1 {
      MulAtLeast(q - q', n);
    } else if q' - q >= 1 {
      MulAtLeast(q' - q, n);
    }
  }
}
