/**
 * The animation driver of llll.py: `update(frame)` shrinks the global
 * viewport by the zoom factor and samples it again with the same `max_iter`
 * (which `update` never reassigns, since it is absent from its `global` list).
 */
module FixedBoundZoom {
  import opened Sampler
  import opened Zoom

  /** The module-level state that llll.py's `update` reads and rewrites. */
  class Animation {
    var xmin: real
    var xmax: real
    var ymin: real
    var ymax: real
    var maxIter: int
    const width: int
    const height: int

    /** The viewport before the first frame, and the number of frames so far. */
    ghost const start: Viewport
    ghost var frames: nat
    ghost const startMaxIter: int

    function View(): Viewport
      reads this
    {
      Viewport(xmin, xmax, ymin, ymax)
    }

    /** The state after `frames` calls of `update`: shrunk that often, bound unchanged. */
    ghost predicate Valid()
      reads this
    {
      View() == ShrinkN(start, frames) && maxIter == startMaxIter
    }

    /** The script's parameter block: initial bounds, resolution and iteration bound. */
    constructor (view: Viewport, width: int, height: int, maxIter: int)
      ensures Valid() && frames == 0
      ensures start == view && View() == view
      ensures this.width == width && this.height == height && this.maxIter == maxIter
    {
      xmin, xmax, ymin, ymax := view.xmin, view.xmax, view.ymin, view.ymax;
      this.maxIter := maxIter;
      this.width, this.height := width, height;
      start, frames, startMaxIter := view, 0, maxIter;
    }

    /**
     * `update(frame)`: one concentric shrink, then a fresh grid of the new
     * viewport with the unchanged bound; the extent handed to rendering is
     * the viewport that grid was computed from.
     */
    method Update(frame: int) returns (image: SampleOutcome, extent: Viewport)
      requires Valid()
      modifies this
      ensures Valid() && frames == old(frames) + 1
      ensures View() == Shrink(old(View()))
      ensures maxIter == old(maxIter)
      ensures extent == View()
      ensures image.NegativeSampleCount? <==> width < 0 || height < 0
      ensures image.Sampled? ==>
        fresh(image.grid) && IsGridOf(image.grid, extent, width, height, maxIter)
    {
      var dx := (xmax - xmin) * (1.0 - ZoomFactor) / 2.0;
      var dy := (ymax - ymin) * (1.0 - ZoomFactor) / 2.0;
      xmin := xmin + dx;
      xmax := xmax - dx;
      ymin := ymin + dy;
      ymax := ymax - dy;
      frames := frames + 1;
      image := MandelbrotSet(xmin, xmax, ymin, ymax, width, height, maxIter);
      extent := View();
    }
  }
}
