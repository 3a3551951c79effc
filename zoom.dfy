/**
 * Zoom steps shared by the image viewers: a quarter step up to at most 3, a quarter
 * step down to at least 0.5, and a reset to 1. The values involved are exact in binary,
 * so the JavaScript numbers equal these reals.
 */
module Zoom {

  const MinScale: real := 0.5
  const MaxScale: real := 3.0
  const Step: real := 0.25

  /** A scale the buttons can reach: inside the bounds and a whole number of quarter steps. */
  predicate OnGrid(scale: real)
  {
    MinScale <= scale <= MaxScale && (scale * 4.0).Floor as real == scale * 4.0
  }

  /** `Math.min(prev + 0.25, 3)`. */
  function ZoomIn(scale: real): (r: real)
    ensures r <= MaxScale
    ensures scale <= MaxScale - Step ==> r == scale + Step
    ensures scale >= MaxScale - Step ==> r == MaxScale
  {
    if scale + Step < MaxScale then scale + Step else MaxScale
  }

  /** `Math.max(prev - 0.25, 0.5)`. */
  function ZoomOut(scale: real): (r: real)
    ensures MinScale <= r
    ensures scale >= MinScale + Step ==> r == scale - Step
    ensures scale <= MinScale + Step ==> r == MinScale
  {
    if MinScale < scale - Step then scale - Step else MinScale
  }

  lemma QuarterMultiple(scale: real, k: int)
    requires scale * 4.0 == k as real
    ensures (scale * 4.0).Floor as real == scale * 4.0
  {
  }

  /** Both buttons keep a reachable scale reachable. */
  lemma ZoomStaysOnGrid(scale: real)
    requires OnGrid(scale)
    ensures OnGrid(ZoomIn(scale)) && OnGrid(ZoomOut(scale))
  {
    var k := (scale * 4.0).Floor;
    if scale + Step < MaxScale {
      QuarterMultiple(ZoomIn(scale), k + 1);
    }
    if MinScale < scale - Step {
      QuarterMultiple(ZoomOut(scale), k - 1);
    }
    assert (MaxScale * 4.0).Floor == 12 && (MinScale * 4.0).Floor == 2;
  }

  /** The reset value is a reachable scale. */
  lemma ResetOnGrid()
    ensures OnGrid(1.0)
  {
    assert (1.0 * 4.0).Floor == 4;
  }

  /** Zooming in and back out returns to the same scale, away from the upper bound. */
  lemma ZoomOutUndoesZoomIn(scale: real)
    requires OnGrid(scale) && scale < MaxScale
    ensures ZoomOut(ZoomIn(scale)) == scale
  {
  }
}
