/**
 * The animation driver of animatedmandelbrot.py: `update(frame)` shrinks the
 * global viewport, raises the global `max_iter` by 5, samples the new
 * viewport with the raised bound and picks colormap `frame % 4`.
 */
module GrowingBoundZoom {
  import opened Sampler
  import opened Zoom

  /** `max_iter += 5`: the growth of the iteration bound per frame. */
  const IterStep: int := 5

  /** `cmap_options`, the palette cycled through frame by frame. */
  const CmapOptions: seq<string> := ["hot", "plasma", "inferno", "viridis"]

  /**
   * `frame % len(cmap_options)`. Python's `%` with a positive divisor gives a
   * result in [0, 4) that differs from `frame` by a multiple of 4, also for
   * negative frames.
   */
  function ColormapIndex(frame: int): (k: int)
    ensures 0 <= k < |CmapOptions|
    ensures (frame - k) % |CmapOptions| == 0
  {
    frame % |CmapOptions|
  }

  /** The colormap name `update` hands to `im.set_cmap`. */
  function Colormap(frame: int): string {
    CmapOptions[ColormapIndex(frame)]
  }

  /** Frames congruent modulo 4 are drawn with the same colormap. */
  lemma SameColormapModFour(f: int, g: int)
    requires (f - g) % 4 == 0
    ensures Colormap(f) == Colormap(g)
  {
    var q := (f - g) / 4;
    assert f == g + 4 * q;
    assert f % 4 == g % 4;
  }

  /** The module-level state that animatedmandelbrot.py's `update` reads and rewrites. */
  class Animation {
    var xmin: real
    var xmax: real
    var ymin: real
    var ymax: real
    var maxIter: int
    const width: int
    const height: int

    /** The viewport and bound before the first frame, and the number of frames so far. */
    ghost const start: Viewport
    ghost const startMaxIter: int
    ghost var frames: nat

    function View(): Viewport
      reads this
    {
      Viewport(xmin, xmax, ymin, ymax)
    }

    /** The state after `frames` calls of `update`: shrunk that often, bound raised by 5 each time. */
    ghost predicate Valid()
      reads this
    {
      View() == ShrinkN(start, frames) && maxIter == startMaxIter + IterStep * frames
    }

    /** The script's parameter block: initial bounds, resolution and iteration bound. */
    constructor (view: Viewport, width: int, height: int, maxIter: int)
      ensures Valid() && frames == 0
      ensures start == view && View() == view
      ensures this.width == width && this.height == height && this.maxIter == maxIter
    {
      xmin, xmax, ymin, ymax := view.xmin, view.xmax, view.ymin, view.ymax;
      this.maxIter := maxIter;
      this.width, this.height := width, height;
      start, startMaxIter, frames := view, maxIter, 0;
    }

    /**
     * `update(frame)`: one concentric shrink, `max_iter += 5`, then a fresh
     * grid of the new viewport under the raised bound, the colormap
     * `cmap_options[frame % 4]`, and as extent the viewport the grid was
     * computed from.
     */
    method Update(frame: int) returns (image: SampleOutcome, extent: Viewport, cmap: string)
      requires Valid()
      modifies this
      ensures Valid() && frames == old(frames) + 1
      ensures View() == Shrink(old(View()))
      ensures maxIter == old(maxIter) + IterStep
      ensures extent == View()
      ensures cmap == Colormap(frame) && cmap in CmapOptions
      ensures image.NegativeSampleCount? <==> width < 0 || height < 0
      ensures image.Sampled? ==>
        fresh(image.grid) && IsGridOf(image.grid, extent, width, height, maxIter)
      ensures image.Sampled? && maxIter >= 0 ==>
        forall i, j :: 0 <= i < height && 0 <= j < width ==>
          0 <= image.grid[i, j] <= startMaxIter + IterStep * frames
    {
      var dx := (xmax - xmin) * (1.0 - ZoomFactor) / 2.0;
      var dy := (ymax - ymin) * (1.0 - ZoomFactor) / 2.0;
      xmin := xmin + dx;
      xmax := xmax - dx;
      ymin := ymin + dy;
      ymax := ymax - dy;
      maxIter := maxIter + IterStep;
      frames := frames + 1;
      image := MandelbrotSet(xmin, xmax, ymin, ymax, width, height, maxIter);
      cmap := CmapOptions[frame % |CmapOptions|];
      extent := View();
    }
  }
}
