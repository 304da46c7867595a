/**
 The drawing half of `LegendRenderer.render`: the calls it makes on the
 painter, the arrow symbol and the text renderer, recorded in order as a
 trace. Every primitive is recorded with the transform it is mapped through
 and its untransformed geometry.
 */
module Trace {
  import opened Geometry
  import opened Text
  import opened Layout
  import opened Grid

  /** A `LegendPolygon`: grid column, grid row and fill colour. */
  datatype Cell<C> = Cell(x: int, y: int, color: C)

  /** One call `render` makes, in the order it makes them. */
  datatype Op<C> =
    | Save                                                   // painter.save()
    | SetNoPen                                               // painter.setPen(Qt.NoPen)
    | SetBrush(color: C)                                     // painter.setBrush(...)
    | DrawPolygon(transform: Transform, rect: Rect)          // painter.drawPolygon(transform.map(rect))
    | StartRender                                            // axis_line_symbol.startRender(...)
    | RenderPolyline(transform: Transform, from: Point, to: Point)
    | StopRender                                             // axis_line_symbol.stopRender(...)
    | DrawText(transform: Transform, anchor: Point, rotation: real, lines: seq<string>)
    | Restore                                                // painter.restore()
  {
    /** A call that puts pixels on the surface. */
    predicate IsPrimitive() {
      DrawPolygon? || RenderPolyline? || DrawText?
    }

    /** A call belonging to the colour grid. */
    predicate IsFill() {
      SetBrush? || DrawPolygon?
    }

    /** A call belonging to the arrows or the titles. */
    predicate IsAnnotation() {
      StartRender? || RenderPolyline? || StopRender? || DrawText?
    }
  }

  /** Lines 143-154: set the cell's brush, then fill its rectangle, for every cell in order. */
  function CellOps<C>(l: Layout, cells: seq<Cell<C>>): (ops: seq<Op<C>>)
    ensures |ops| == 2 * |cells|
    ensures forall i :: 0 <= i < |cells| ==>
      ops[2 * i] == SetBrush(cells[i].color) &&
      ops[2 * i + 1] == DrawPolygon(l.transform, CellRect(l, cells[i].x, cells[i].y))
    ensures forall j :: 0 <= j < |ops| ==> ops[j].IsFill() && (ops[j].DrawPolygon? ==> ops[j].transform == l.transform)
  {
    if |cells| == 0 then []
    else
      var first := cells[0];
      var rest := CellOps(l, cells[1..]);
      var pair := [SetBrush(first.color), DrawPolygon(l.transform, CellRect(l, first.x, first.y))];
      var ops := pair + rest;
      assert forall j :: 2 <= j < |ops| ==> ops[j] == rest[j - 2];
      assert forall i :: 1 <= i < |cells| ==> cells[i] == cells[1..][i - 1];
      ops
  }

  /** Lines 156-172: the two arrows, bracketed by starting and stopping the arrow symbol. */
  function ArrowOps<C>(cfg: Config, l: Layout): seq<Op<C>> {
    if cfg.addAxesArrows then
      [ StartRender,
        RenderPolyline(l.transform, l.arrows.start, l.lineXEnd),
        RenderPolyline(l.transform, l.arrows.start, l.lineYEnd),
        StopRender ]
    else []
  }

  /** Lines 176-184: the two titles, each split into lines, centred on their anchors. */
  function TitleOps<C>(cfg: Config, l: Layout): seq<Op<C>> {
    if cfg.addAxesTexts then
      [ DrawText(l.transform, l.titleAnchorX, l.rotationX, SplitLines(cfg.axisTitleX)),
        DrawText(l.transform, l.titleAnchorY, l.rotationY, SplitLines(cfg.axisTitleY)) ]
    else []
  }

  /** Where the arrow calls start: after save, the pen call and two calls per cell. */
  function ArrowsAt(cellCount: nat): nat {
    2 + 2 * cellCount
  }

  /** Where the title calls start: after the arrow calls, if any. */
  function TitlesAt(cfg: Config, cellCount: nat): nat {
    ArrowsAt(cellCount) + (if cfg.addAxesArrows then 4 else 0)
  }

  /**
   Lines 52-186 with the geometry already computed: save the painter, drop
   the pen, fill the cells, draw the arrows, draw the titles, restore the
   painter.
   */
  function DrawTrace<C>(cfg: Config, l: Layout, cells: seq<Cell<C>>): (t: seq<Op<C>>)
    ensures |t| == TitlesAt(cfg, |cells|) + (if cfg.addAxesTexts then 2 else 0) + 1
    ensures t[0] == Save && t[|t| - 1] == Restore
  {
    [Save, SetNoPen] + CellOps(l, cells) + ArrowOps(cfg, l) + TitleOps(cfg, l) + [Restore]
  }

  /** The painter state is saved first and restored last, and neither happens anywhere else. */
  lemma SaveRestoreBracket<C>(cfg: Config, l: Layout, cells: seq<Cell<C>>)
    ensures var t := DrawTrace(cfg, l, cells);
      forall i :: 0 <= i < |t| ==> (t[i].Save? <==> i == 0) && (t[i].Restore? <==> i == |t| - 1)
  {
    var t := DrawTrace(cfg, l, cells);
    var fills := CellOps(l, cells);
    var arrows: seq<Op<C>> := ArrowOps(cfg, l);
    var titles: seq<Op<C>> := TitleOps(cfg, l);
    forall i | 0 <= i < |t|
      ensures (t[i].Save? <==> i == 0) && (t[i].Restore? <==> i == |t| - 1)
    {
      if 2 <= i < ArrowsAt(|cells|) {
        assert t[i] == fills[i - 2];
      } else if ArrowsAt(|cells|) <= i < TitlesAt(cfg, |cells|) {
        assert t[i] == arrows[i - ArrowsAt(|cells|)];
      } else if TitlesAt(cfg, |cells|) <= i < |t| - 1 {
        assert t[i] == titles[i - TitlesAt(cfg, |cells|)];
      }
    }
  }

  /**
   The grid is drawn as one block straight after the pen call: brush then
   polygon for each cell in order, and no grid call before or after the block.
   */
  lemma FillsInOneBlock<C>(cfg: Config, l: Layout, cells: seq<Cell<C>>)
    ensures var t := DrawTrace(cfg, l, cells);
      && (forall i :: 0 <= i < |t| ==> (t[i].IsFill() <==> 2 <= i < ArrowsAt(|cells|)))
      && (forall i :: 0 <= i < |cells| ==>
            t[2 + 2 * i] == SetBrush(cells[i].color) &&
            t[3 + 2 * i] == DrawPolygon(l.transform, CellRect(l, cells[i].x, cells[i].y)))
  {
    var t := DrawTrace(cfg, l, cells);
    var fills := CellOps(l, cells);
    var arrows: seq<Op<C>> := ArrowOps(cfg, l);
    var titles: seq<Op<C>> := TitleOps(cfg, l);
    forall i | 0 <= i < |t|
      ensures t[i].IsFill() <==> 2 <= i < ArrowsAt(|cells|)
    {
      if 2 <= i < ArrowsAt(|cells|) {
        assert t[i] == fills[i - 2];
      } else if ArrowsAt(|cells|) <= i < TitlesAt(cfg, |cells|) {
        assert t[i] == arrows[i - ArrowsAt(|cells|)];
      } else if TitlesAt(cfg, |cells|) <= i < |t| - 1 {
        assert t[i] == titles[i - TitlesAt(cfg, |cells|)];
      }
    }
    forall i | 0 <= i < |cells|
      ensures t[2 + 2 * i] == fills[2 * i] && t[3 + 2 * i] == fills[2 * i + 1]
    {
    }
  }

  /**
   The arrow calls appear exactly when arrows are on: start, the two
   polylines, stop, straight after the grid block.
   */
  lemma ArrowsBracketed<C>(cfg: Config, l: Layout, cells: seq<Cell<C>>)
    ensures var t := DrawTrace(cfg, l, cells);
      var a := ArrowsAt(|cells|);
      forall i :: 0 <= i < |t| ==>
        && (t[i].StartRender? <==> cfg.addAxesArrows && i == a)
        && (t[i].RenderPolyline? <==> cfg.addAxesArrows && a < i < a + 3)
        && (t[i].StopRender? <==> cfg.addAxesArrows && i == a + 3)
  {
    var t := DrawTrace(cfg, l, cells);
    var a := ArrowsAt(|cells|);
    var fills := CellOps(l, cells);
    var arrows: seq<Op<C>> := ArrowOps(cfg, l);
    var titles: seq<Op<C>> := TitleOps(cfg, l);
    forall i | 0 <= i < |t|
      ensures && (t[i].StartRender? <==> cfg.addAxesArrows && i == a)
              && (t[i].RenderPolyline? <==> cfg.addAxesArrows && a < i < a + 3)
              && (t[i].StopRender? <==> cfg.addAxesArrows && i == a + 3)
    {
      if 2 <= i < a {
        assert t[i] == fills[i - 2];
      } else if a <= i < TitlesAt(cfg, |cells|) {
        assert t[i] == arrows[i - a];
      } else if TitlesAt(cfg, |cells|) <= i < |t| - 1 {
        assert t[i] == titles[i - TitlesAt(cfg, |cells|)];
      }
    }
  }

  /** The two title calls appear exactly when titles are on, after every arrow call. */
  lemma TitlesAfterArrows<C>(cfg: Config, l: Layout, cells: seq<Cell<C>>)
    ensures var t := DrawTrace(cfg, l, cells);
      var m := TitlesAt(cfg, |cells|);
      && (forall i :: 0 <= i < |t| ==> (t[i].DrawText? <==> cfg.addAxesTexts && m <= i < m + 2))
      && (cfg.addAxesTexts ==>
            t[m] == DrawText(l.transform, l.titleAnchorX, l.rotationX, SplitLines(cfg.axisTitleX)) &&
            t[m + 1] == DrawText(l.transform, l.titleAnchorY, l.rotationY, SplitLines(cfg.axisTitleY)))
  {
    var t := DrawTrace(cfg, l, cells);
    var m := TitlesAt(cfg, |cells|);
    var fills := CellOps(l, cells);
    var arrows: seq<Op<C>> := ArrowOps(cfg, l);
    var titles: seq<Op<C>> := TitleOps(cfg, l);
    forall i | 0 <= i < |t|
      ensures t[i].DrawText? <==> cfg.addAxesTexts && m <= i < m + 2
    {
      if 2 <= i < ArrowsAt(|cells|) {
        assert t[i] == fills[i - 2];
      } else if ArrowsAt(|cells|) <= i < m {
        assert t[i] == arrows[i - ArrowsAt(|cells|)];
      } else if m <= i < |t| - 1 {
        assert t[i] == titles[i - m];
      }
    }
    if cfg.addAxesTexts {
      assert t[m] == titles[0] && t[m + 1] == titles[1];
    }
  }

  /** No grid call comes after any arrow or title call. */
  lemma FillsBeforeAnnotations<C>(cfg: Config, l: Layout, cells: seq<Cell<C>>)
    ensures var t := DrawTrace(cfg, l, cells);
      forall i, j :: 0 <= i < j < |t| && t[i].IsAnnotation() ==> !t[j].IsFill()
  {
    FillsInOneBlock(cfg, l, cells);
    ArrowsBracketed(cfg, l, cells);
    TitlesAfterArrows(cfg, l, cells);
  }

  /** Every grid, arrow or title primitive is mapped through the layout's one transform. */
  lemma OneTransform<C>(cfg: Config, l: Layout, cells: seq<Cell<C>>)
    ensures var t := DrawTrace(cfg, l, cells);
      forall i :: 0 <= i < |t| && t[i].IsPrimitive() ==> t[i].transform == l.transform
  {
    var t := DrawTrace(cfg, l, cells);
    var fills := CellOps(l, cells);
    var arrows: seq<Op<C>> := ArrowOps(cfg, l);
    var titles: seq<Op<C>> := TitleOps(cfg, l);
    forall i | 0 <= i < |t| && t[i].IsPrimitive()
      ensures t[i].transform == l.transform
    {
      if 2 <= i < ArrowsAt(|cells|) {
        assert t[i] == fills[i - 2];
      } else if ArrowsAt(|cells|) <= i < TitlesAt(cfg, |cells|) {
        assert t[i] == arrows[i - ArrowsAt(|cells|)];
      } else if TitlesAt(cfg, |cells|) <= i < |t| - 1 {
        assert t[i] == titles[i - TitlesAt(cfg, |cells|)];
      }
    }
  }

  /** `render` end to end: the layout for these inputs, then its drawing calls. */
  function Render<C>(cfg: Config, h: TitleHeights, cells: seq<Cell<C>>, orig: real): (t: seq<Op<C>>)
    requires ValidInput(cfg, h, |cells|, orig)
    ensures |t| == TitlesAt(cfg, |cells|) + (if cfg.addAxesTexts then 2 else 0) + 1
    ensures t[0] == Save && t[|t| - 1] == Restore
    ensures forall i :: 0 <= i < |cells| ==>
      t[3 + 2 * i] == DrawPolygon(ComputeLayout(cfg, h, |cells|, orig).transform,
                                  CellRect(ComputeLayout(cfg, h, |cells|, orig), cells[i].x, cells[i].y))
  {
    FillsInOneBlock(cfg, ComputeLayout(cfg, h, |cells|, orig), cells);
    DrawTrace(cfg, ComputeLayout(cfg, h, |cells|, orig), cells)
  }
}
