/**
 * The zoom step shared by the two animated scripts: each frame moves every
 * bound of the viewport toward the viewport's own centre by
 * (1 - zoom_factor) / 2 of its extent, with `zoom_factor = 0.90`.
 */
module Zoom {
  import opened Sampler

  /** `zoom_factor`: the fraction of the width and height kept per frame. */
  const ZoomFactor: real := 0.90

  function Width(v: Viewport): real {
    v.xmax - v.xmin
  }

  function Height(v: Viewport): real {
    v.ymax - v.ymin
  }

  /** The centre ((xmin + xmax) / 2, (ymin + ymax) / 2) of the viewport. */
  function Center(v: Viewport): (real, real) {
    ((v.xmin + v.xmax) / 2.0, (v.ymin + v.ymax) / 2.0)
  }

  /** Both pairs of bounds are in order: xmin < xmax and ymin < ymax. */
  predicate IsOrdered(v: Viewport) {
    v.xmin < v.xmax && v.ymin < v.ymax
  }

  /** Every bound of `inner` lies strictly inside `outer`. */
  predicate StrictlyInside(inner: Viewport, outer: Viewport) {
    outer.xmin < inner.xmin && inner.xmax < outer.xmax
    && outer.ymin < inner.ymin && inner.ymax < outer.ymax
  }

  /**
   * One frame's change of the viewport: `dx = (xmax - xmin) * (1 - zoom_factor) / 2`,
   * `dy` likewise, then `xmin += dx; xmax -= dx; ymin += dy; ymax -= dy`.
   * The result is the concentric box scaled by the zoom factor.
   */
  function Shrink(v: Viewport): (r: Viewport)
    ensures Width(r) == ZoomFactor * Width(v)
    ensures Height(r) == ZoomFactor * Height(v)
    ensures Center(r) == Center(v)
    ensures IsOrdered(v) ==> IsOrdered(r) && StrictlyInside(r, v)
  {
    var dx := (v.xmax - v.xmin) * (1.0 - ZoomFactor) / 2.0;
    var dy := (v.ymax - v.ymin) * (1.0 - ZoomFactor) / 2.0;
    Viewport(v.xmin + dx, v.xmax - dx, v.ymin + dy, v.ymax - dy)
  }

  /** The viewport after k frames. */
  function ShrinkN(v: Viewport, k: nat): Viewport {
    if k == 0 then v else Shrink(ShrinkN(v, k - 1))
  }

  function Pow(b: real, k: nat): real {
    if k == 0 then 1.0 else b * Pow(b, k - 1)
  }

  /** 0.9^k lies in (0, 1]. */
  lemma {:induction false} PowZoomBounds(k: nat)
    ensures 0.0 < Pow(ZoomFactor, k) <= 1.0
  {
    if k > 0 {
      PowZoomBounds(k - 1);
    }
  }

  /** After k frames the width and height are 0.9^k times the initial ones and the centre is unchanged. */
  lemma {:induction false} ShrinkNScales(v: Viewport, k: nat)
    ensures Width(ShrinkN(v, k)) == Pow(ZoomFactor, k) * Width(v)
    ensures Height(ShrinkN(v, k)) == Pow(ZoomFactor, k) * Height(v)
    ensures Center(ShrinkN(v, k)) == Center(v)
  {
    if k > 0 {
      ShrinkNScales(v, k - 1);
    }
  }

  /**
   * Starting from an ordered viewport, every frame keeps it ordered and
   * strictly inside the previous one, so width and height strictly decrease
   * and stay positive.
   */
  lemma {:induction false} ShrinkNNested(v: Viewport, k: nat)
    requires IsOrdered(v)
    ensures IsOrdered(ShrinkN(v, k))
    ensures StrictlyInside(ShrinkN(v, k + 1), ShrinkN(v, k))
    ensures 0.0 < Width(ShrinkN(v, k + 1)) < Width(ShrinkN(v, k))
    ensures 0.0 < Height(ShrinkN(v, k + 1)) < Height(ShrinkN(v, k))
  {
    if k > 0 {
      ShrinkNNested(v, k - 1);
    }
  }
}
