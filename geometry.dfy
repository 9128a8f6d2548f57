/**
 * Points, sizes and the clamping of a dragged panel to the viewport.
 */
module Geometry {

  datatype Point = Point(x: real, y: real)

  datatype Size = Size(width: real, height: real)

  /** The height kept visible at the bottom edge while dragging (the header's height). */
  const HEADER_ALLOWANCE: real := 46.0

  predicate NonNegative(s: Size) {
    s.width >= 0.0 && s.height >= 0.0
  }

  function Max(a: real, b: real): real {
    if a >= b then a else b
  }

  function Min(a: real, b: real): real {
    if a <= b then a else b
  }

  /**
   * Raise `v` to `lo`, then lower the result to `hi`, in that order. Nothing
   * demands lo <= hi; when the range is empty the upper bound wins.
   */
  function Clamp(v: real, lo: real, hi: real): (r: real)
    ensures r <= hi
    ensures lo <= hi ==> lo <= r
    ensures lo <= v <= hi ==> r == v
    ensures lo > hi ==> r == hi
    ensures v < lo && lo <= hi ==> r == lo
    ensures v > hi ==> r == hi
  {
    Min(Max(v, lo), hi)
  }

  /** Smallest top a drag allows. */
  const MIN_TOP: real := 0.0

  /** Largest top a drag allows: the header stays inside the viewport. */
  function MaxTop(viewport: Size): real {
    viewport.height - HEADER_ALLOWANCE
  }

  /** Smallest left a drag allows: at most half the panel leaves on the left. */
  function MinLeft(panel: Size): real {
    -panel.width / 2.0
  }

  /** Largest left a drag allows: at most half the panel leaves on the right. */
  function MaxLeft(viewport: Size, panel: Size): real {
    viewport.width - panel.width / 2.0
  }

  /** `start` places a box of length `extent` centred in a span of length `span`. */
  predicate CentredIn(start: real, extent: real, span: real) {
    start + extent / 2.0 == span / 2.0
  }
}
