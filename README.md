# Escape-time Mandelbrot engine

This project models the small Mandelbrot engine shared by three Python scripts. `Mandelbrot/mandelbrot.py` draws a still image. `Mandelbrot/llll.py` and `Mandelbrot/animatedmandelbrot.py` draw zoom animations. The engine has three parts:

- **Escape evaluator** `mandelbrot(c, max_iter)` (module `Escape`). It runs the orbit z_0 = 0, z_{n+1} = z_n^2 + c. It checks `abs(z) > 2` before each update and returns the index of the first point outside radius 2, capped at `max_iter`. The pure function `Orbit` gives the orbit. `EscapeTime` is the specification of the count. The method `Mandelbrot` has the script's loop and is proved equal to `EscapeTime`.
- **Region sampler** `mandelbrot_set(...)` (module `Sampler`). It builds two `np.linspace` lattices (`Linspace`) and fills a fresh `height x width` grid with a nested loop, one evaluator call per cell (`MandelbrotSet`, over a Dafny `array2<int>`).
- **Zoom driver** `update(frame)` (modules `Zoom`, `FixedBoundZoom` and `GrowingBoundZoom`). It shrinks the viewport toward its own centre by `zoom_factor = 0.90`. In `animatedmandelbrot.py` it also adds 5 to `max_iter` and picks colormap `frame % 4`. Each script's global state is a class whose `Update` method rewrites the fields in place. A ghost frame counter ties the fields to `ShrinkN(start, frames)` and to the initial bound.

The three scripts carry identical copies of the evaluator and the sampler. The copies are at `mandelbrot.py:4-13` = `llll.py:7-18` = `animatedmandelbrot.py:7-17` and at `mandelbrot.py:15-27` = `llll.py:21-34` = `animatedmandelbrot.py:20-32`. Each copy maps onto the one model; the table cites the `mandelbrot.py` copy. `mandelbrot.py` has no zoom step. `llll.py` keeps `max_iter` fixed. `animatedmandelbrot.py` grows it and cycles colormaps.

Numbers are exact Dafny `real`s. Python's `complex` is a pair of reals. The test `abs(z) > 2` is written |z|^2 > 4; `ModulusTest` shows the two agree. Grid cells are `int`s.

At the edges the code behaves as follows:
- for `max_iter <= 0` the loop is empty and the count is `max_iter` itself;
- c = 2 gets count 2, because z_1 = 2 lies on the circle and only z_2 = 6 is outside it;
- a width or height of 0 gives an empty grid; only a negative one fails, inside `np.linspace`;
- the zoom never stops and never checks for a degenerate viewport.

## Model

| member | source | states |
|---|---|---|
| `Escape.Mandelbrot` | Mandelbrot/mandelbrot.py:4-13 | The loop with its check before the update and its early return returns exactly `EscapeTime(c, max_iter)`. The same holds for the copies at llll.py:7-18 and animatedmandelbrot.py:7-17. |
| `Escape.EscapeTime` | Mandelbrot/mandelbrot.py:8-13 | For max_iter <= 0 the count is max_iter unchanged. For max_iter >= 0 it lies in [0, max_iter]. For max_iter >= 1 it is never 0. No orbit point before it is outside radius 2, and the point at it is outside unless the count is the saturation value. |
| `Escape.EscapeSearch` | Mandelbrot/mandelbrot.py:9-12 | The loop resumed at index k returns the first escaped index in [k, max_iter), or max_iter when there is none. |
| `Escape.ModulusTest` | Mandelbrot/mandelbrot.py:10 | For the non-negative square root a of re^2 + im^2, `a > 2` holds exactly when re^2 + im^2 > 4. |
| `Escape.EscapeTimeUnique` | Mandelbrot/mandelbrot.py:9-13 | Any r in [0, max_iter] with no escape before r, and an escape at r when r < max_iter, is the count. |
| `Escape.FirstEscapeIsCount` | Mandelbrot/mandelbrot.py:9-12 | If k is the first index whose orbit point is outside radius 2, the count is min(k, max_iter) for every bound, negative ones included. The check on z_{max_iter} is never made. |
| `Escape.NoEscapeSaturates` | Mandelbrot/mandelbrot.py:13 | An orbit that stays inside radius 2 for max_iter steps gets the count max_iter. |
| `Escape.EscapeTimeMonotone` | Mandelbrot/mandelbrot.py:9-13 | m <= m' implies count(c, m) <= count(c, m'). A count below its bound (a real escape) is the same under every larger bound. |
| `Escape.OrbitOfZero` | Mandelbrot/mandelbrot.py:8-12 | The orbit of c = 0 stays at 0 forever. |
| `Escape.ZeroSaturates` | Mandelbrot/mandelbrot.py:8-13 | c = 0 gets the count max_iter for every max_iter. |
| `Escape.StartDoesNotEscape` | Mandelbrot/mandelbrot.py:8-11 | The first value checked, z_0 = 0, is never outside radius 2. |
| `Escape.FirstOrbitPoint` | Mandelbrot/mandelbrot.py:8-12 | After one update z is c itself. |
| `Escape.OutsideRadiusEscapesAtOne` | Mandelbrot/mandelbrot.py:9-12 | Every c with abs(c) > 2 gets count 1 when max_iter >= 1. |
| `Escape.OrbitOfTwo` | Mandelbrot/mandelbrot.py:12 | For c = 2 the point z_1 = 2 is on the circle and not outside it. The point z_2 = 6 is outside. |
| `Escape.EscapeAtTwo` | Mandelbrot/mandelbrot.py:9-12 | An orbit whose first escaped point is z_2 gets count 2 under every max_iter >= 2. |
| `Escape.TwoEscapesAtTwo` | Mandelbrot/mandelbrot.py:8-13 | c = 2 gets count 2 when max_iter >= 2. |
| `Sampler.Linspace` | Mandelbrot/mandelbrot.py:19-20 | `np.linspace` gives exactly num samples. The first is lo and the last is hi. Consecutive samples differ by the constant step (hi - lo)/(num - 1). |
| `Sampler.LinspaceAscending` | Mandelbrot/mandelbrot.py:19-20 | When lo < hi the samples are strictly ascending. |
| `Sampler.MandelbrotSet` | Mandelbrot/mandelbrot.py:15-27 | A negative width or height fails, as in numpy. Otherwise the result is a fresh grid with exactly `height` rows and `width` columns. Every cell [i, j] equals the escape count of x[j] + i*y[i]. Every cell lies in [0, max_iter] when max_iter >= 0. The loop invariants show that each iteration writes only its own cell and that filled cells keep their values. The same holds for the copies at llll.py:21-34 and animatedmandelbrot.py:20-32. |
| `Zoom.Shrink` | Mandelbrot/llll.py:55-61 | One zoom step multiplies width and height by 0.9 and keeps the centre ((xmin+xmax)/2, (ymin+ymax)/2). Ordered bounds stay ordered. The new box lies strictly inside the old one. The same step is at animatedmandelbrot.py:54-60. |
| `Zoom.PowZoomBounds` | Mandelbrot/llll.py:55 | 0.9^k lies in (0, 1]. |
| `Zoom.ShrinkNScales` | Mandelbrot/llll.py:53-61 | After k steps width and height are 0.9^k times the initial ones, and the centre is the initial centre. |
| `Zoom.ShrinkNNested` | Mandelbrot/llll.py:58-61 | From an ordered viewport, every step keeps the bounds ordered and nests the box strictly inside the previous one. Width and height strictly decrease and stay positive. |
| `FixedBoundZoom.Animation.constructor` | Mandelbrot/llll.py:37-40 | The global state starts at the configured viewport, resolution and bound, with no frame taken yet. |
| `FixedBoundZoom.Animation.Update` | Mandelbrot/llll.py:53-67 | The viewport becomes `Shrink` of the old one and `max_iter` stays unchanged, since it is not in the `global` list. The grid is the sampler's output for the new viewport. The returned extent is that same viewport. After k calls the state is `ShrinkN(start, k)` with the initial bound. |
| `GrowingBoundZoom.ColormapIndex` | Mandelbrot/animatedmandelbrot.py:68-69 | `frame % 4` lies in [0, 4) and differs from frame by a multiple of 4, also for negative frames. |
| `GrowingBoundZoom.SameColormapModFour` | Mandelbrot/animatedmandelbrot.py:68-69 | Frames congruent modulo 4 get the same colormap. |
| `GrowingBoundZoom.Animation.constructor` | Mandelbrot/animatedmandelbrot.py:35-38 | The global state starts at the configured viewport, resolution and bound, with no frame taken yet. |
| `GrowingBoundZoom.Animation.Update` | Mandelbrot/animatedmandelbrot.py:52-72 | The viewport becomes `Shrink` of the old one and `max_iter` grows by exactly 5. After k calls it is initial + 5k. The grid uses the already raised bound, so its cells lie in [0, initial + 5k]. The colormap is `cmap_options[frame % 4]`. The extent is the viewport the grid was computed from. |

## Left out

- All matplotlib work is left out: figures, `imshow`, `colorbar`, `set_array`, `set_extent`, `set_cmap`, `FuncAnimation`, `anim.save` and `plt.show`. `Update` returns the grid, the extent and the colormap name that these calls would receive.
- How often `FuncAnimation` calls `update`, and with which `frame` values, is left out. The ghost counter `frames` counts calls and is not tied to the `frame` argument.
- The numba `@jit` decorators are left out. They only speed the code up and change no result.
- IEEE double rounding, overflow, NaN and the precision underflow of the viewport after a deep zoom are not modelled. All arithmetic is on exact reals, so only properties that do not depend on rounding are claimed. On exact reals, `start + k*step` already equals `stop` at k = num-1, so numpy's final `y[-1] = stop` changes nothing. In floating point the interior samples can differ by rounding, which is not modelled.
- The `abs` square root is not modelled. The test is written as |z|^2 > 4, and `ModulusTest` relates it to `abs(z) > 2`.
- `np.empty`'s uninitialised contents and the grid's float dtype are not modelled. The grid's initial contents are unspecified, and every cell is proved to be overwritten with an integer count.
- The module-level calls that draw the first image (mandelbrot.py:36, llll.py:46, animatedmandelbrot.py:43) are plain `MandelbrotSet` calls on the initial state. They have no member of their own.
- The script constants (600 or 1000 samples, 100 initial iterations, 100 or 200 frames, fps, dpi) are left out. The constructors take resolution, bound and viewport as parameters.
- The stray text inside the docstring at llll.py:9-10 is not code and is left out.
