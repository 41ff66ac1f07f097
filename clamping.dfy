/**
 * The per-axis arithmetic of MovementSystem.process: after an entity has
 * been translated by its velocity, its position on each axis is clamped into
 * the playfield, first against the low edge and then against the high edge.
 */
module Clamping {

  function Max(a: int, b: int): (r: int)
    ensures r >= a && r >= b && (r == a || r == b)
  {
    if a >= b then a else b
  }

  function Abs(n: int): (r: nat)
    ensures r == n || r == -n
  {
    if n < 0 then -n else n
  }

  /**
   * Clamps position `p` of a box of extent `size` into `[lo, hi]`: the low
   * clamp `max(lo, p)` comes first, then the high edge is reset to
   * `hi - size` if it overshoots. The high clamp therefore wins when the box
   * is wider than the field.
   */
  function ClampAxis(lo: int, hi: int, size: int, p: int): (r: int)
    // the far edge never overshoots, whatever the size
    ensures r + size <= hi
    // the near edge is respected whenever the box fits into the field
    ensures size <= hi - lo ==> lo <= r
    // a box wider than the field is pinned to the far edge, left of `lo`
    ensures hi - lo < size ==> r == hi - size && r < lo
    // a box already inside the field is left where it is
    ensures lo <= p && p + size <= hi ==> r == p
    // the result is the position itself or one of the two edge positions
    ensures r == p || r == lo || r == hi - size
  {
    var q := Max(lo, p);
    if q + size > hi then hi - size else q
  }

  /** Clamping a clamped position changes nothing. */
  lemma ClampIdempotent(lo: int, hi: int, size: int, p: int)
    ensures ClampAxis(lo, hi, size, ClampAxis(lo, hi, size, p)) == ClampAxis(lo, hi, size, p)
  {
    var r := ClampAxis(lo, hi, size, p);
    if size <= hi - lo {
      assert lo <= r && r + size <= hi;
    } else {
      assert r == hi - size;
    }
  }

  /** The clamp never reorders two positions on the same axis. */
  lemma ClampMonotone(lo: int, hi: int, size: int, p: int, q: int)
    requires p <= q
    ensures ClampAxis(lo, hi, size, p) <= ClampAxis(lo, hi, size, q)
  {
  }

  /**
   * When the box fits into the field, the clamp moves it to the in-field
   * position nearest to where the translation put it: no other position `q`
   * that keeps the box inside is closer.
   */
  lemma ClampNearest(lo: int, hi: int, size: int, p: int, q: int)
    requires lo <= q && q + size <= hi
    ensures lo <= ClampAxis(lo, hi, size, p)
    ensures Abs(ClampAxis(lo, hi, size, p) - p) <= Abs(q - p)
  {
  }
}
