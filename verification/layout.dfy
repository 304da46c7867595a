/**
 The geometry half of `LegendRenderer.render`: from the output size, the
 render scale, the three toggles and the measured title heights it derives,
 in one normalised square, the title zone, the arrow zone, the reserved edge
 (`all_elements`), the cell size and grid origin, the arrow end points, the
 title anchors and rotations, and the transform every primitive is mapped
 through.

 Reals are exact; angles are kept in degrees (the renderer converts them to
 radians just before drawing).
 */
module Layout {
  import opened Geometry
  import opened Numeric

  /** `margin_const_percent`: padding around the titles, as a share of the square. */
  const MarginPercent: real := 0.02
  /** Distance of the arrow start from the title zone, as a share of the square. */
  const ArrowInset: real := 0.025
  /** Width reserved for the arrows, as a share of the square. */
  const ArrowBand: real := 0.05
  /** Fixed amount taken off the truncated scale in rotated mode. */
  const RotationCorrection: real := 0.02

  /** The renderer's fields and the sizes `render` is called with. */
  datatype Config = Config(
    width: real,
    height: real,
    scaleFactor: real,        // context.scaleFactor()
    addAxesTexts: bool,
    addAxesArrows: bool,
    legendRotated: bool,
    axisTitleX: string,
    axisTitleY: string)

  /** What `QgsTextRenderer.textHeight` reports for the two split titles. */
  datatype TitleHeights = TitleHeights(x: real, y: real)

  /** `text_height_x`, `text_height_y`, `text_height_max`, `text_height_margin`, `text_height_max_with_2_margin`. */
  datatype TitleZone = TitleZone(heightX: real, heightY: real, heightMax: real, margin: real, zone: real)

  /** `point_lines_start` and `arrow_width`. */
  datatype ArrowZone = ArrowZone(start: Point, width: real)

  /** Every quantity `render` derives before it starts drawing. */
  datatype Layout = Layout(
    size: real,               // width == height after normalisation
    titles: TitleZone,
    arrows: ArrowZone,
    allElements: real,        // edge reserved on the left and at the bottom
    side: nat,                // sqrt(len(polygons))
    cellSize: real,           // size_constant
    gridOrigin: Point,        // (polygon_start_pos_x, polygon_start_pos_y)
    lineXEnd: Point,
    lineYEnd: Point,
    titleAnchorX: Point,
    titleAnchorY: Point,
    rotationX: real,          // degrees
    rotationY: real,          // degrees
    transform: Transform)

  /** Lines 40-46: the output is squared off on its shorter side, then scaled. */
  function NormalisedSize(width: real, height: real, scaleFactor: real): (s: real)
    requires 0.0 < width && 0.0 < height && 0.0 < scaleFactor
    ensures 0.0 < s
    ensures s <= width * scaleFactor && s <= height * scaleFactor
    ensures s == width * scaleFactor || s == height * scaleFactor
  {
    var minSize := if width <= height then width else height;
    MulLeMono(minSize, width, scaleFactor);
    MulLeMono(minSize, height, scaleFactor);
    minSize * scaleFactor
  }

  /** Lines 59-82: the band the titles take, or nothing when titles are off. */
  function ComputeTitleZone(on: bool, h: TitleHeights, size: real): (t: TitleZone)
    requires 0.0 <= h.x && 0.0 <= h.y && 0.0 < size
    ensures !on ==> t == TitleZone(0.0, 0.0, 0.0, 0.0, 0.0)
    ensures on ==> t.heightX == h.x && t.heightY == h.y && t.margin == MarginPercent * size
    ensures on ==> h.x <= t.heightMax && h.y <= t.heightMax && (t.heightMax == h.x || t.heightMax == h.y)
    ensures on ==> t.zone - t.heightMax == 2.0 * t.margin
    ensures on <==> 0.0 < t.zone
  {
    if on then
      var heightMax := if h.x >= h.y then h.x else h.y;
      var margin := size * MarginPercent;
      TitleZone(h.x, h.y, heightMax, margin, heightMax + margin * 2.0)
    else
      TitleZone(0.0, 0.0, 0.0, 0.0, 0.0)
  }

  /**
   Lines 84-94: the arrows start in the middle of a band of width
   `ArrowBand * size` next to the title zone, on the square's anti-diagonal.
   */
  function ComputeArrowZone(on: bool, titleZone: real, size: real): (a: ArrowZone)
    ensures !on ==> a == ArrowZone(Point(0.0, 0.0), 0.0)
    ensures on ==> a.width == ArrowBand * size
    ensures on ==> a.start.x - titleZone == a.width / 2.0
    ensures on ==> a.start.x + a.start.y == size
  {
    if on then
      ArrowZone(Point(titleZone + size * ArrowInset, size - titleZone - size * ArrowInset), size * ArrowBand)
    else
      ArrowZone(Point(0.0, 0.0), 0.0)
  }

  /** Line 124: `max_size`, what is left of the square once the arrow start offset is taken off. */
  function RotationSpan(size: real, arrowStartX: real): real {
    size - arrowStartX
  }

  /**
   Line 127: `scale_factor_orig == height / sqrt(2 * max_size^2)`, stated
   without a square root: the positive real whose square times `2 * span^2`
   is `size^2`.
   */
  predicate IsDiagonalScale(orig: real, size: real, span: real) {
    0.0 < orig && orig * orig * (2.0 * span * span) == size * size
  }

  /**
   Line 128: `int(scale_factor_orig * 100) / 100 - 0.02`. Truncating to two
   decimals and taking off the correction always lands strictly below the
   exact scale, and less than 0.03 below it.
   */
  function RotatedScale(orig: real): (sf: real)
    ensures orig - 0.03 < sf < orig
  {
    var hundredths := Trunc(orig * 100.0);
    hundredths as real / 100.0 - RotationCorrection
  }

  /** Lines 130-133: the steps applied to the identity transform in rotated mode. */
  function RotatedTransform(size: real, offset: real, orig: real): Transform {
    var sf := RotatedScale(orig);
    [ Translate(size / 2.0, size / 2.0),
      Rotate(-45.0),
      Scale(sf, sf),
      Translate(-(size / 2.0) - (offset / 2.0) * orig, -(size / 2.0) + (offset / 2.0) * orig) ]
  }

  /** What the caller must guarantee for `render` to complete. */
  predicate ValidInput(cfg: Config, h: TitleHeights, cellCount: nat, orig: real) {
    && 0.0 < cfg.width && 0.0 < cfg.height && 0.0 < cfg.scaleFactor
    && 0.0 <= h.x && 0.0 <= h.y
    && 0 < cellCount && IsPerfectSquare(cellCount)
    && (cfg.legendRotated ==>
          var s := NormalisedSize(cfg.width, cfg.height, cfg.scaleFactor);
          var t := ComputeTitleZone(cfg.addAxesTexts, h, s);
          var a := ComputeArrowZone(cfg.addAxesArrows, t.zone, s);
          var span := RotationSpan(s, a.start.x);
          span != 0.0 && IsDiagonalScale(orig, s, span))
  }

  /** The grid zone: right of and above the reserved edge, `[all, size] x [0, size - all]`. */
  function GridZone(l: Layout): Rect {
    Rect(l.allElements, 0.0, l.size - l.allElements, l.size - l.allElements)
  }

  /**
   `side` cells of size `cellSize` exactly span the grid zone in each
   direction, starting from its bottom-left corner.
   */
  predicate GridSpansZone(l: Layout) {
    && 0 < l.side
    && l.side as real * l.cellSize == l.size - l.allElements
    && l.gridOrigin == Point(l.allElements, l.size - l.allElements)
  }

  /** Line 108: `side` equal cells share the span `span` exactly. */
  function CellSize(span: real, side: nat): (c: real)
    requires 0 < side
    ensures side as real * c == span
  {
    span / side as real
  }

  /** Lines 40-141: all the geometry `render` computes before drawing. */
  function ComputeLayout(cfg: Config, h: TitleHeights, cellCount: nat, orig: real): (l: Layout)
    requires ValidInput(cfg, h, cellCount, orig)
    ensures l.size == NormalisedSize(cfg.width, cfg.height, cfg.scaleFactor)
    ensures l.titles == ComputeTitleZone(cfg.addAxesTexts, h, l.size)
    ensures l.arrows == ComputeArrowZone(cfg.addAxesArrows, l.titles.zone, l.size)
    ensures l.allElements == l.titles.zone + l.arrows.width
    ensures l.side * l.side == cellCount
    ensures GridSpansZone(l)
    ensures l.lineXEnd.y == l.arrows.start.y && l.lineYEnd.x == l.arrows.start.x
  {
    var s := NormalisedSize(cfg.width, cfg.height, cfg.scaleFactor);
    var t := ComputeTitleZone(cfg.addAxesTexts, h, s);
    var a := ComputeArrowZone(cfg.addAxesArrows, t.zone, s);
    var all := t.zone + a.width;
    var side := ISqrt(cellCount);
    var c := CellSize(s - all, side);
    var anchorX := Point(all + (s - all) / 2.0, s - t.heightMax + t.heightX - s * MarginPercent);
    var anchorY := Point(t.margin + t.heightMax, (s - all) / 2.0);
    var lineXEnd := Point(s, a.start.y);
    var lineYEnd := Point(a.start.x, s * 0.0);
    if cfg.legendRotated then
      var maxSize := RotationSpan(s, a.start.x);
      var offset := s - maxSize;
      Layout(s, t, a, all, side, c, Point(all, s - all), lineXEnd, lineYEnd,
             anchorX, Point(anchorY.x - t.heightY, anchorY.y),
             45.0, -45.0, RotatedTransform(s, offset, orig))
    else
      Layout(s, t, a, all, side, c, Point(all, s - all), lineXEnd, lineYEnd,
             anchorX, anchorY, 0.0, 90.0, [])
  }
}
