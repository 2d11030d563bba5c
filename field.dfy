/**
 * Arithmetic shared by the two particle backgrounds: the values
 * `Math.random()` returns, the ranges the scripts scale them into, and the
 * toroidal wrap rule applied to every coordinate each frame.
 */
module Field {

  /** A value `Math.random()` can return. */
  predicate IsRandom(r: real)
  {
    0.0 <= r < 1.0
  }

  /**
   * The two edge tests of a frame, in order: a value past `hi` jumps to
   * `lo`, then a value below `lo` jumps to `hi`.
   */
  function Wrap(v: real, lo: real, hi: real): (r: real)
    ensures lo <= hi ==> lo <= r <= hi
    ensures lo <= v <= hi ==> r == v
    ensures v > hi ==> r == lo
    ensures v < lo && lo <= hi ==> r == hi
  {
    var a := if v > hi then lo else v;
    if a < lo then hi else a
  }

  /** Wrapping a wrapped value changes nothing. */
  lemma WrapIdempotent(v: real, lo: real, hi: real)
    requires lo <= hi
    ensures Wrap(Wrap(v, lo, hi), lo, hi) == Wrap(v, lo, hi)
  {
  }

  /** `Math.random() * extent` */
  function Scale(r: real, extent: real): (v: real)
    requires IsRandom(r)
    ensures 0.0 <= extent ==> 0.0 <= v <= extent
    ensures 0.0 < extent ==> v < extent
  {
    ScaleBounds(r, extent);
    r * extent
  }

  lemma ScaleBounds(r: real, extent: real)
    requires IsRandom(r)
    ensures 0.0 <= extent ==> 0.0 <= r * extent <= extent
    ensures 0.0 < extent ==> r * extent < extent
  {
    if 0.0 < extent {
      assert r * extent < 1.0 * extent;
    }
  }

  /** `(Math.random() - 0.5) * extent`: a value centred on zero. */
  function Centered(r: real, extent: real): (v: real)
    requires IsRandom(r)
    ensures 0.0 <= extent ==> -extent / 2.0 <= v <= extent / 2.0
    ensures 0.0 < extent ==> v < extent / 2.0
  {
    assert (r - 0.5) * extent == r * extent - extent / 2.0;
    ScaleBounds(r, extent);
    (r - 0.5) * extent
  }

  /** `Math.floor(Math.random() * n)`: a position of an `n`-entry palette. */
  function Pick(r: real, n: nat): (k: nat)
    requires IsRandom(r) && 0 < n
    ensures k < n
  {
    ScaleBounds(r, n as real);
    (r * n as real).Floor
  }
}
