/** `Math.random()` as an input: the model receives the values the source
    would draw, each a real in the half-open interval [0, 1). */
module Random {

  /** A value `Math.random()` can return. */
  predicate IsDraw(r: real)
  {
    0.0 <= r < 1.0
  }

  /** `Math.floor(r * n)`: the index a draw selects among `n` choices. */
  function DrawIndex(r: real, n: nat): (k: nat)
    requires IsDraw(r) && n > 0
    ensures k < n
  {
    assert r * n as real < n as real by {
      assert (1.0 - r) * n as real > 0.0;
    }
    (r * n as real).Floor
  }

  /** Every index can be drawn: the draw `k / n` selects index `k`. */
  lemma DrawIndexOnto(k: nat, n: nat)
    requires k < n
    ensures IsDraw(k as real / n as real) && DrawIndex(k as real / n as real, n) == k
  {
    var r := k as real / n as real;
    assert r * n as real == k as real;
  }
}
