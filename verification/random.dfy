/** `Math.random()` is passed in as a value `r` with `0 <= r < 1`; the
    components only ever use it through `Math.floor(r * n)`. */
module Random {

  predicate IsUnitSample(r: real) { 0.0 <= r < 1.0 }

  /** `Math.floor(r * n)`: an index into a non-empty list of length `n`. */
  function PickIndex(r: real, n: nat): (i: nat)
    requires IsUnitSample(r) && n > 0
    ensures i < n
    ensures i as real <= r * n as real < i as real + 1.0
  {
    var x := r * n as real;
    assert x < n as real by { ScaleBelow(r, n as real); }
    x.Floor
  }

  lemma ScaleBelow(r: real, m: real)
    requires 0.0 <= r < 1.0 && m > 0.0
    ensures 0.0 <= r * m < m
  {
    assert m - r * m == (1.0 - r) * m;
    assert (1.0 - r) * m > 0.0;
  }

  /** Every index can be drawn: `i / n` is a sample that picks `i`. */
  lemma EveryIndexReachable(i: nat, n: nat)
    requires i < n
    ensures IsUnitSample(i as real / n as real)
    ensures PickIndex(i as real / n as real, n) == i
  {
  }
}
