# Bivariate legend layout, modelled in Dafny

This project models the legend engine of the QGIS bivariate renderer plugin:
`LegendRenderer.render`, which draws a square legend for a two-field colour
classification. Given the output width and height, the render scale factor,
three toggles (axis titles, axis arrows, 45-degree rotation), the measured
heights of the two titles and the list of grid cells, it

- squares the output off on its shorter side and scales it;
- reserves a title band (the taller title plus a 2% margin either side) and an
  arrow band (5% of the square) along the left and bottom edges, the sum being
  the reserved edge `all_elements`;
- divides what is left into `side` by `side` equal cells, `side` being the
  square root of the cell count, with row 0 at the bottom;
- places the two arrows, the two title anchors and their rotations;
- in rotated mode builds a transform that turns the square by -45 degrees and
  shrinks it by the diagonal scale truncated to two decimals less 0.02;
- then issues its drawing calls, inside one painter save/restore, in a fixed
  order: cells, arrows, titles.

The geometry is a pure function over exact reals returning a `Layout` record
(`layout.dfy`); the drawing is a pure function returning the list of calls made
(`trace.dfy`). Each call to `ComputeLayout`/`Render` depends on its arguments
only, so nothing carries over from one render to the next.

Files:

- `numeric.dfy` — integer square root of the cell count, Python's `int()` on a
  float, and monotonicity facts about real multiplication and flooring.
- `geometry.dfy` — points, `QRectF`-style rectangles (y grows downwards) and
  the `translate`/`rotate`/`scale` steps a `QTransform` is built from.
- `text.dfy` — splitting a title into lines on line feeds, and joining back.
- `layout.dfy` — configuration, the zone chain and the layout record.
- `layout_facts.dfy` — what the zones, anchors, arrows and rotation promise.
- `grid.dfy` — the cell rectangles and the tiling of the grid zone.
- `trace.dfy` — the drawing calls and their order.

Inputs the model takes as given rather than computing:

- the title heights `QgsTextRenderer.textHeight` reports, as two non-negative reals;
- `scale_factor_orig = height / sqrt(2 * max_size^2)`, as a positive real whose
  square times `2 * max_size^2` equals `height^2` (`Layout.IsDiagonalScale`);
- cell colours, as an opaque type parameter;
- the transform, as the list of steps applied to an identity `QTransform`: the
  trace records each primitive's untransformed geometry together with that list.

The model follows the code of `BivariateRenderer/legendrenderer/legend_renderer.py`
as it stands, which is simpler than a fuller legend engine with tick labels:

- there is no tick-label zone and no tick labels;
- the Y title is always drawn at 90 degrees unrotated (line 118), with no
  configurable direction;
- the title margin is 0, not 2% of the square, when titles are off (line 80),
  although the X title's vertical anchor always subtracts 2% of the square (line 99);
- the rotated scale uses `max_size = height - arrow_start_x` (line 124), so with
  arrows off the title band plays no part in it;
- painter state is restored by a plain call at the end (line 186), not on every
  exit path.

## Model

| member | source | states |
|---|---|---|
| `Numeric.ISqrt` | BivariateRenderer/legendrenderer/legend_renderer.py:108 | the grid side is the largest natural whose square does not exceed the cell count |
| `Numeric.ISqrtOfSquare` | BivariateRenderer/legendrenderer/legend_renderer.py:108 | for a count `k*k` the grid side is exactly `k`, so every perfect square count is accepted |
| `Numeric.Trunc` | BivariateRenderer/legendrenderer/legend_renderer.py:128 | Python `int()` rounds toward zero: below or at a non-negative argument by less than one, above or at a negative one by less than one |
| `Numeric.TruncIsFloorWhenNonNegative` | BivariateRenderer/legendrenderer/legend_renderer.py:128 | on the positive diagonal scale, `int()` is the floor |
| `Text.SplitLines` | BivariateRenderer/legendrenderer/legend_renderer.py:56-57 | a title splits into one more line than it has line feeds, no line holds a line feed, and joining the lines gives the title back |
| `Text.SplitJoin` | BivariateRenderer/legendrenderer/legend_renderer.py:56-57 | splitting the join of line-feed-free lines gives those lines back |
| `Layout.NormalisedSize` | BivariateRenderer/legendrenderer/legend_renderer.py:40-46 | width and height both become the scaled shorter side: positive, at most each scaled side and equal to one of them |
| `Layout.ComputeTitleZone` | BivariateRenderer/legendrenderer/legend_renderer.py:59-82 | titles off gives all-zero heights, margin and band; titles on gives margin 2% of the square and a band of the taller title plus two margins; the band is positive exactly when titles are on |
| `Layout.ComputeArrowZone` | BivariateRenderer/legendrenderer/legend_renderer.py:84-94 | arrows off gives start (0, 0) and width 0; arrows on gives a band 5% of the square with the start in the middle of it and on the anti-diagonal `x + y == size` |
| `Layout.RotatedScale` | BivariateRenderer/legendrenderer/legend_renderer.py:128 | the truncated rotated scale is strictly below the exact diagonal scale and less than 0.03 below it |
| `Layout.CellSize` | BivariateRenderer/legendrenderer/legend_renderer.py:108 | `side` cells of the computed size exactly span the space left after the reserved edge |
| `Layout.ComputeLayout` | BivariateRenderer/legendrenderer/legend_renderer.py:40-141 | the layout is built on the normalised square, the reserved edge is title band plus arrow band, `side*side` is the cell count, the cells span the grid zone from its bottom-left corner, and the arrows end on the start point's row and column |
| `LayoutFacts.ZonesCascade` | BivariateRenderer/legendrenderer/legend_renderer.py:75-108 | a toggle that is off zeroes its zone; with both off the reserved edge is 0, the cell size is the square over `side` and the grid zone is the whole square |
| `LayoutFacts.ZonesWhenOn` | BivariateRenderer/legendrenderer/legend_renderer.py:59-96 | titles on: band is max title height plus 2·2% of the square; arrows on: width 5% and start at (band + 2.5%, size − band − 2.5%); reserved edge is the sum of the bands |
| `LayoutFacts.ArrowsFrameGrid` | BivariateRenderer/legendrenderer/legend_renderer.py:84-114 | the horizontal arrow ends at the right border on the start's row, the vertical one at the top border on the start's column, both 2.5% of the square outside the grid |
| `LayoutFacts.TitleAnchorsCentred` | BivariateRenderer/legendrenderer/legend_renderer.py:98-141 | the X title is centred on the grid's horizontal span and the Y title on its vertical span; the Y title sits one margin plus the taller height from the left, less its own height when rotated |
| `LayoutFacts.RotationModes` | BivariateRenderer/legendrenderer/legend_renderer.py:116-141 | unrotated: identity transform, titles at 0 and 90 degrees; rotated: titles at +45/−45, the rotate −45 and scale steps, the scale strictly below the exact diagonal scale, the offset equal to the arrow start x |
| `LayoutFacts.RotatedScaleWithoutArrows` | BivariateRenderer/legendrenderer/legend_renderer.py:122-133 | rotated without arrows the legend is scaled by exactly 0.68 |
| `Grid.CellPlacement` | BivariateRenderer/legendrenderer/legend_renderer.py:147-150 | cell (x, y) is a `c` by `c` square with left edge `all + x*c` and top edge `size − all − (y+1)*c` |
| `Grid.CellInsideZone` | BivariateRenderer/legendrenderer/legend_renderer.py:108-150 | every in-range cell lies within `[all, size] × [0, size − all]` |
| `Grid.CellsCoverZone` | BivariateRenderer/legendrenderer/legend_renderer.py:108-150 | every point of the grid zone lies in some in-range cell |
| `Grid.CellsDisjoint` | BivariateRenderer/legendrenderer/legend_renderer.py:147-150 | two different cells share no interior point |
| `Grid.NeighboursShareEdges` | BivariateRenderer/legendrenderer/legend_renderer.py:147-150 | a cell's right edge is its right neighbour's left edge and its top edge the bottom edge of the cell above |
| `Grid.CellAreasFillZone` | BivariateRenderer/legendrenderer/legend_renderer.py:108-110 | the `side*side` cell areas add up to the grid zone's area |
| `Grid.FourCellsFillSquare` | BivariateRenderer/legendrenderer/legend_renderer.py:40-150 | four cells, no annotations, 100 by 100 at scale 1: a 2 by 2 grid of 50 by 50 squares covering the whole square |
| `Trace.CellOps` | BivariateRenderer/legendrenderer/legend_renderer.py:143-154 | two calls per cell, in cell order: its brush colour, then its rectangle through the layout's transform |
| `Trace.DrawTrace` | BivariateRenderer/legendrenderer/legend_renderer.py:52-186 | the call count is 3 + 2 per cell + 4 with arrows + 2 with titles, beginning with save and ending with restore |
| `Trace.SaveRestoreBracket` | BivariateRenderer/legendrenderer/legend_renderer.py:52-186 | save happens only first and restore only last |
| `Trace.FillsInOneBlock` | BivariateRenderer/legendrenderer/legend_renderer.py:143-154 | grid calls are exactly the block after the pen call, one brush and one fill per cell |
| `Trace.ArrowsBracketed` | BivariateRenderer/legendrenderer/legend_renderer.py:156-172 | arrow calls appear iff arrows are on: start, exactly two polylines, stop, right after the grid |
| `Trace.TitlesAfterArrows` | BivariateRenderer/legendrenderer/legend_renderer.py:176-184 | exactly two title calls appear iff titles are on, after the arrows, X then Y with their anchors, rotations and split lines |
| `Trace.FillsBeforeAnnotations` | BivariateRenderer/legendrenderer/legend_renderer.py:143-184 | no grid call follows any arrow or title call |
| `Trace.OneTransform` | BivariateRenderer/legendrenderer/legend_renderer.py:143-184 | every polygon, polyline and text is mapped through the same transform |
| `Trace.Render` | BivariateRenderer/legendrenderer/legend_renderer.py:37-186 | the whole render saves first, restores last and fills every cell's computed rectangle through the computed transform |

## Left out

- The `QTransform` itself (lines 120-133 and every `transform.map`): rotating by −45 degrees needs trigonometry, so the transform is kept as its list of steps and never applied to a point; whether the rotated diamond stays inside the square is not proved.
- The square root at line 127: `scale_factor_orig` is an input constrained by its defining equation.
- `QgsTextRenderer.textHeight` and `drawText` (lines 61-67, 178-184): heights are inputs, drawing is a recorded call; the constant alignments `AlignCenter`/`AlignVCenter` are not recorded.
- The arrow symbol built by `get_symbol_object` (lines 32-35) and its black colour: the helper's code is not part of this model; the symbol appears only as start/polyline/stop calls.
- Angles are kept in degrees; the source converts them with `math.radians` before drawing.
- Floating-point rounding: all arithmetic is on exact reals, so `int(scale_factor_orig * 100)` is modelled on the exact product.
- Cell counts that are not perfect squares, and an empty cell list: required away (`Numeric.IsPerfectSquare`, positive count); the source would divide by an irrational side or by zero at line 108.
- Zero or negative output sizes and scale factors are required away; a zero `max_size` in rotated mode, the division by zero at line 127, is required away too.
- Cells outside `0 <= x, y < side` are drawn like any other in the model; the tiling lemmas speak only of in-range cells.
- Exceptions raised while drawing: the source restores the painter only on the normal path, and only that path is modelled.
- The GUI forms in `BivariateRenderer/layoutitems/layout_item_widget.py` and `BivariateRenderer/renderer/bivariate_renderer_widget.py`: they only set fields and call `render`; the tick-label fields the latter sets are never read by this renderer.
- The pixel-comparison tests in `tests/test_color_mixing.py`: they need a live QGIS.
- `Trace.Render`: states only bracketing and the cell fills directly; the ordering facts are stated once, about `Trace.DrawTrace`, by the `Trace` lemmas.
