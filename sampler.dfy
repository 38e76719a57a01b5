/**
 * The region sampler `mandelbrot_set(xmin, xmax, ymin, ymax, width, height,
 * max_iter)`, shared (as identical copies) by all three scripts: two
 * `np.linspace` lattices and a `height x width` grid filled by a nested loop,
 * one evaluator call per cell.
 */
module Sampler {
  import opened Escape

  /** The rectangle of the complex plane being sampled (the scripts' four globals). */
  datatype Viewport = Viewport(xmin: real, xmax: real, ymin: real, ymax: real)

  /**
   * `np.linspace(lo, hi, num)` with its default `endpoint=True`: num evenly
   * spaced samples from lo to hi inclusive; a single sample is lo itself.
   */
  function Linspace(lo: real, hi: real, num: nat): (xs: seq<real>)
    ensures |xs| == num
    ensures num >= 1 ==> xs[0] == lo
    ensures num >= 2 ==> xs[num - 1] == hi
    ensures num >= 2 ==>
      forall k :: 0 <= k < num - 1 ==> xs[k + 1] - xs[k] == (hi - lo) / (num - 1) as real
  {
    if num <= 1 then seq(num, k => lo)
    else
      var step := (hi - lo) / (num - 1) as real;
      seq(num, k => lo + k as real * step)
  }

  /** With lo < hi and at least two samples, the lattice is strictly ascending. */
  lemma LinspaceAscending(lo: real, hi: real, num: nat, i: nat, j: nat)
    requires lo < hi
    requires i < j < num
    ensures Linspace(lo, hi, num)[i] < Linspace(lo, hi, num)[j]
  {
    var xs := Linspace(lo, hi, num);
    var step := (hi - lo) / (num - 1) as real;
    var a := i as real * step;
    var b := j as real * step;
    assert xs[i] == lo + a;
    assert xs[j] == lo + b;
    assert a < b by {
      assert step > 0.0;
      StepMonotone(i as real, j as real, step);
    }
  }

  /** A larger multiple of a positive step is larger. */
  lemma StepMonotone(a: real, b: real, step: real)
    requires a < b && step > 0.0
    ensures a * step < b * step
  {
    assert b * step - a * step == (b - a) * step;
  }

  /** The sample point of cell [i, j]: `x[j] + 1j * y[i]`. */
  function SamplePoint(v: Viewport, width: nat, height: nat, i: nat, j: nat): Complex
    requires i < height && j < width
  {
    Complex(Linspace(v.xmin, v.xmax, width)[j], Linspace(v.ymin, v.ymax, height)[i])
  }

  /** g is the grid of v: `height` rows, `width` columns, each cell the escape count of its sample. */
  ghost predicate IsGridOf(g: array2<int>, v: Viewport, width: nat, height: nat, maxIter: int)
    reads g
  {
    && g.Length0 == height
    && g.Length1 == width
    && forall i, j :: 0 <= i < height && 0 <= j < width ==>
         g[i, j] == EscapeTime(SamplePoint(v, width, height, i, j), maxIter)
  }

  /** What `mandelbrot_set` gives back: a fresh grid, or numpy's error for a negative sample count. */
  datatype SampleOutcome = Sampled(grid: array2<int>) | NegativeSampleCount

  /**
   * `mandelbrot_set`: every cell [i, j] of a fresh `height x width` grid holds
   * `mandelbrot(x[j] + 1j * y[i], max_iter)`, so it lies in [0, max_iter]
   * when max_iter >= 0. A negative width or height makes `np.linspace` fail.
   */
  method MandelbrotSet(xmin: real, xmax: real, ymin: real, ymax: real,
                       width: int, height: int, maxIter: int)
    returns (out: SampleOutcome)
    ensures out.NegativeSampleCount? <==> width < 0 || height < 0
    ensures out.Sampled? ==>
      && fresh(out.grid)
      && IsGridOf(out.grid, Viewport(xmin, xmax, ymin, ymax), width, height, maxIter)
    ensures out.Sampled? && maxIter >= 0 ==>
      forall i, j :: 0 <= i < out.grid.Length0 && 0 <= j < out.grid.Length1 ==>
        0 <= out.grid[i, j] <= maxIter
  {
    if width < 0 || height < 0 {
      return NegativeSampleCount;
    }
    var x := Linspace(xmin, xmax, width);
    var y := Linspace(ymin, ymax, height);
    ghost var v := Viewport(xmin, xmax, ymin, ymax);
    var grid := new int[height, width];
    for i := 0 to height
      invariant forall i', j' :: 0 <= i' < i && 0 <= j' < width ==>
        grid[i', j'] == EscapeTime(SamplePoint(v, width, height, i', j'), maxIter)
    {
      for j := 0 to width
        invariant forall i', j' :: 0 <= i' < i && 0 <= j' < width ==>
          grid[i', j'] == EscapeTime(SamplePoint(v, width, height, i', j'), maxIter)
        invariant forall j' :: 0 <= j' < j ==>
          grid[i, j'] == EscapeTime(SamplePoint(v, width, height, i, j'), maxIter)
      {
        var c := Complex(x[j], y[i]);
        grid[i, j] := Mandelbrot(c, maxIter);
      }
    }
    return Sampled(grid);
  }
}
