// The two ways the program turns a draw of Math.random() (a real in [0, 1)) into a
// choice: an index into a list, and a timer delay in a range.

module Random {

  /** A draw of Math.random(). */
  predicate IsDraw(r: real)
  {
    0.0 <= r < 1.0
  }

  /** Scaling a draw by a positive n lands in [0, n). */
  lemma ScaledDrawBelow(r: real, n: nat)
    requires IsDraw(r) && n > 0
    ensures 0.0 <= r * (n as real) < n as real
  {
    assert r * (n as real) < 1.0 * (n as real);
  }

  /** `Math.floor(r * n)`: an index into a list of n entries. */
  function PickIndex(r: real, n: nat): (i: nat)
    requires IsDraw(r) && n > 0
    ensures i < n
    ensures (i as real) <= r * (n as real) < (i as real) + 1.0
  {
    ScaledDrawBelow(r, n);
    (r * (n as real)).Floor as nat
  }

  /** `r * span + low` passed to a timer, which truncates it to whole milliseconds. */
  function DelayBetween(r: real, low: nat, span: nat): (ms: nat)
    requires IsDraw(r) && span > 0
    ensures low <= ms < low + span
    ensures ms as real <= r * (span as real) + (low as real) < ms as real + 1.0
  {
    ScaledDrawBelow(r, span);
    (r * (span as real) + (low as real)).Floor as nat
  }
}
