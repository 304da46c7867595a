/**
 The colour grid: one square per classification cell, placed by its column
 `x` (growing to the right) and row `y` (growing upwards) inside the grid
 zone. For in-range cells the squares tile the zone: they stay inside it,
 cover all of it, meet their neighbours edge to edge and never overlap.
 */
module Grid {
  import opened Geometry
  import opened Numeric
  import opened Layout

  /** Lines 147-150: the `QRectF` for the cell in column `x`, row `y`. */
  function CellRect(l: Layout, x: int, y: int): Rect {
    var c := l.cellSize;
    Rect(l.gridOrigin.x + x as real * c, l.gridOrigin.y - (y + 1) as real * c, c, c)
  }

  /** The cell in column `x`, row `y` exists in a `side` by `side` grid. */
  predicate InGrid(l: Layout, x: int, y: int) {
    0 <= x < l.side && 0 <= y < l.side
  }

  /** Cell `(x, y)` has its left edge `x` cells right of the reserved edge and its top `y + 1` cells above the grid's bottom. */
  lemma CellPlacement(l: Layout, x: int, y: int)
    requires GridSpansZone(l)
    ensures CellRect(l, x, y).left == l.allElements + x as real * l.cellSize
    ensures CellRect(l, x, y).top == l.size - l.allElements - (y + 1) as real * l.cellSize
    ensures CellRect(l, x, y).width == l.cellSize == CellRect(l, x, y).height
  {
  }

  /** Every in-range cell lies inside the grid zone. */
  lemma CellInsideZone(l: Layout, x: int, y: int)
    requires GridSpansZone(l) && 0.0 < l.cellSize
    requires InGrid(l, x, y)
    ensures CellRect(l, x, y).Within(GridZone(l))
  {
    var c := l.cellSize;
    var span := l.side as real * c;
    var x0, x1 := StepInside(c, l.side, x);
    var y0, y1 := StepInside(c, l.side, y);
    assert CellRect(l, x, y) == Rect(l.allElements + x0, span - y1, x1 - x0, y1 - y0);
    assert GridZone(l) == Rect(l.allElements, 0.0, span, span);
  }

  /** Step `k` of `side` steps of size `c` starts at or after 0 and ends at or before `side * c`. */
  lemma StepInside(c: real, side: nat, k: int) returns (lo: real, hi: real)
    requires 0.0 < c && 0 <= k < side
    ensures lo == k as real * c && hi == (k + 1) as real * c
    ensures 0.0 <= lo && hi - lo == c && hi <= side as real * c
  {
    lo, hi := k as real * c, (k + 1) as real * c;
    MulLeMono(0.0, k as real, c);
    MulLeMono((k + 1) as real, side as real, c);
  }

  /**
   A point `v` of `[start, start + side * c]` lies in one of the `side`
   steps `[start + k * c, start + (k + 1) * c]`.
   */
  lemma CoverSpan(start: real, c: real, side: nat, v: real) returns (k: int)
    requires 0.0 < c && 0 < side
    requires start <= v <= start + side as real * c
    ensures 0 <= k < side
    ensures start + k as real * c <= v <= start + (k + 1) as real * c
  {
    k := FloorDivBounds(v - start, c);
    if k >= side {
      k := side - 1;
      assert (k + 1) as real == side as real;
    }
  }

  /** Every point of the grid zone, borders included, lies in some in-range cell. */
  lemma CellsCoverZone(l: Layout, p: Point) returns (x: int, y: int)
    requires GridSpansZone(l) && 0.0 < l.cellSize
    requires GridZone(l).ContainsClosed(p)
    ensures InGrid(l, x, y)
    ensures CellRect(l, x, y).ContainsClosed(p)
  {
    var c := l.cellSize;
    x := CoverSpan(l.allElements, c, l.side, p.x);
    // rows count upwards, so the row is read off the height above the grid's bottom edge
    y := CoverSpan(0.0, c, l.side, l.gridOrigin.y - p.y);
  }

  /** Two different steps `[start + k * c, start + (k + 1) * c]` have no interior point in common. */
  lemma StepsDisjoint(start: real, c: real, i: int, j: int, v: real)
    requires 0.0 < c && i != j
    ensures !(start + i as real * c < v < start + (i + 1) as real * c &&
              start + j as real * c < v < start + (j + 1) as real * c)
  {
    if i < j {
      MulLeMono((i + 1) as real, j as real, c);
    } else {
      MulLeMono((j + 1) as real, i as real, c);
    }
  }

  /** Two different cells have no interior point in common. */
  lemma CellsDisjoint(l: Layout, x1: int, y1: int, x2: int, y2: int, p: Point)
    requires 0.0 < l.cellSize
    requires x1 != x2 || y1 != y2
    ensures !(CellRect(l, x1, y1).ContainsOpen(p) && CellRect(l, x2, y2).ContainsOpen(p))
  {
    var c := l.cellSize;
    if x1 != x2 {
      StepsDisjoint(l.gridOrigin.x, c, x1, x2, p.x);
    } else {
      // measured upwards from the grid's bottom edge, row `y` spans `[y * c, (y + 1) * c]`
      StepsDisjoint(0.0, c, y1, y2, l.gridOrigin.y - p.y);
    }
  }

  /**
   A cell's right edge is its right-hand neighbour's left edge, and its top
   edge is the bottom edge of the cell one row up.
   */
  lemma NeighboursShareEdges(l: Layout, x: int, y: int)
    ensures CellRect(l, x, y).Right() == CellRect(l, x + 1, y).left
    ensures CellRect(l, x, y).top == CellRect(l, x, y + 1).Bottom()
    ensures CellRect(l, x, y).top == CellRect(l, x + 1, y).top
    ensures CellRect(l, x, y).left == CellRect(l, x, y + 1).left
  {
  }

  /** The `side * side` cells together have exactly the area of the grid zone. */
  lemma CellAreasFillZone(l: Layout)
    requires GridSpansZone(l)
    ensures (l.side * l.side) as real * (l.cellSize * l.cellSize) == GridZone(l).width * GridZone(l).height
  {
    var n := l.side as real;
    var c := l.cellSize;
    assert (l.side * l.side) as real == n * n;
    assert n * n * (c * c) == (n * c) * (n * c);
  }

  /**
   Four cells, no titles, no arrows, a 100 by 100 output at scale 1: a 2 by 2
   grid of 50 by 50 squares filling the whole square, row 0 at the bottom.
   */
  lemma FourCellsFillSquare(cfg: Config, h: TitleHeights, orig: real)
    requires ValidInput(cfg, h, 4, orig)
    requires cfg.width == 100.0 && cfg.height == 100.0 && cfg.scaleFactor == 1.0
    requires !cfg.addAxesTexts && !cfg.addAxesArrows
    ensures var l := ComputeLayout(cfg, h, 4, orig);
      && l.side == 2 && l.cellSize == 50.0
      && CellRect(l, 0, 0) == Rect(0.0, 50.0, 50.0, 50.0)
      && CellRect(l, 1, 0) == Rect(50.0, 50.0, 50.0, 50.0)
      && CellRect(l, 0, 1) == Rect(0.0, 0.0, 50.0, 50.0)
      && CellRect(l, 1, 1) == Rect(50.0, 0.0, 50.0, 50.0)
  {
    ISqrtOfSquare(2);
    var l := ComputeLayout(cfg, h, 4, orig);
    assert l.side == 2;
  }
}
