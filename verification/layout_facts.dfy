/**
 What the layout promises: zones vanish with their toggle, the arrows run
 just outside the grid, the titles are centred on the grid span, and the
 rotated mode scales a little below the exact diagonal scale.
 */
module LayoutFacts {
  import opened Geometry
  import opened Numeric
  import opened Layout

  /**
   A zone whose toggle is off contributes nothing, and with both off the
   grid takes the whole square.
   */
  lemma ZonesCascade(cfg: Config, h: TitleHeights, cellCount: nat, orig: real)
    requires ValidInput(cfg, h, cellCount, orig)
    ensures var l := ComputeLayout(cfg, h, cellCount, orig);
      && (!cfg.addAxesTexts ==>
            l.titles.heightX == 0.0 && l.titles.heightY == 0.0 && l.titles.heightMax == 0.0 &&
            l.titles.margin == 0.0 && l.titles.zone == 0.0)
      && (!cfg.addAxesArrows ==>
            l.arrows.start == Point(0.0, 0.0) && l.arrows.width == 0.0)
      && (!cfg.addAxesTexts && !cfg.addAxesArrows ==>
            l.allElements == 0.0 && l.cellSize == l.size / l.side as real &&
            GridZone(l) == Rect(0.0, 0.0, l.size, l.size))
  {
  }

  /**
   With titles on, the title band is the taller title plus a 2% margin on
   each side; with arrows on, the arrow band is 5% of the square and the
   arrows start 2.5% past the title band on both axes.
   */
  lemma ZonesWhenOn(cfg: Config, h: TitleHeights, cellCount: nat, orig: real)
    requires ValidInput(cfg, h, cellCount, orig)
    ensures var l := ComputeLayout(cfg, h, cellCount, orig);
      && (cfg.addAxesTexts ==>
            l.titles.zone == (if h.x >= h.y then h.x else h.y) + 2.0 * MarginPercent * l.size)
      && (cfg.addAxesArrows ==>
            l.arrows.width == ArrowBand * l.size &&
            l.arrows.start == Point(l.titles.zone + ArrowInset * l.size,
                                    l.size - l.titles.zone - ArrowInset * l.size))
      && l.allElements == l.titles.zone + l.arrows.width
  {
  }

  /**
   The arrows run through the middle of the arrow band: the horizontal one
   parallel to the bottom of the grid out to the right border, the vertical
   one parallel to the left of the grid up to the top border. Each shares one
   coordinate with the start point.
   */
  lemma ArrowsFrameGrid(cfg: Config, h: TitleHeights, cellCount: nat, orig: real)
    requires ValidInput(cfg, h, cellCount, orig)
    ensures var l := ComputeLayout(cfg, h, cellCount, orig);
      var g := GridZone(l);
      && l.lineXEnd == Point(l.size, l.arrows.start.y)
      && l.lineYEnd == Point(l.arrows.start.x, 0.0)
      && (cfg.addAxesArrows ==>
            g.left - l.arrows.start.x == ArrowInset * l.size &&
            l.arrows.start.y - g.Bottom() == ArrowInset * l.size)
  {
  }

  /**
   The X title is centred horizontally on the grid span and the Y title
   vertically; the Y title sits one margin plus the taller title height from
   the left border, moved left by its own height in rotated mode.
   */
  lemma TitleAnchorsCentred(cfg: Config, h: TitleHeights, cellCount: nat, orig: real)
    requires ValidInput(cfg, h, cellCount, orig)
    ensures var l := ComputeLayout(cfg, h, cellCount, orig);
      var g := GridZone(l);
      && l.titleAnchorX.x - g.left == g.Right() - l.titleAnchorX.x
      && l.titleAnchorY.y - g.top == g.Bottom() - l.titleAnchorY.y
      && l.size - l.titleAnchorX.y == MarginPercent * l.size + (l.titles.heightMax - l.titles.heightX)
      && (!cfg.legendRotated ==> l.titleAnchorY.x == l.titles.margin + l.titles.heightMax)
      && (cfg.legendRotated ==> l.titleAnchorY.x == l.titles.margin + l.titles.heightMax - l.titles.heightY)
  {
  }

  /**
   Unrotated, nothing is transformed and the titles are drawn at 0 and 90
   degrees. Rotated, the square is turned by -45 degrees about its centre,
   scaled by the truncated diagonal scale (strictly below the exact one),
   shifted by half the arrow start offset, and the titles are drawn at +45
   and -45 degrees.
   */
  lemma RotationModes(cfg: Config, h: TitleHeights, cellCount: nat, orig: real)
    requires ValidInput(cfg, h, cellCount, orig)
    ensures var l := ComputeLayout(cfg, h, cellCount, orig);
      && (!cfg.legendRotated ==> l.transform == [] && l.rotationX == 0.0 && l.rotationY == 90.0)
      && (cfg.legendRotated ==>
            && l.rotationX == 45.0 && l.rotationY == -45.0
            && IsDiagonalScale(orig, l.size, l.size - l.arrows.start.x)
            && l.transform == RotatedTransform(l.size, l.arrows.start.x, orig)
            && l.transform[1] == Rotate(-45.0)
            && l.transform[2].Scale? && l.transform[2].sx == l.transform[2].sy < orig)
  {
  }

  /**
   Without arrows the rotated legend is scaled by exactly 0.68, the exact
   diagonal scale `1 / sqrt 2` (about 0.7071) truncated to 0.70, less the
   correction, whatever the titles take.
   */
  lemma RotatedScaleWithoutArrows(cfg: Config, h: TitleHeights, cellCount: nat, orig: real)
    requires ValidInput(cfg, h, cellCount, orig)
    requires cfg.legendRotated && !cfg.addAxesArrows
    ensures ComputeLayout(cfg, h, cellCount, orig).transform[2] == Scale(0.68, 0.68)
  {
    var l := ComputeLayout(cfg, h, cellCount, orig);
    var s := l.size;
    assert l.arrows.start.x == 0.0;
    assert RotationSpan(s, l.arrows.start.x) == s;
    assert IsDiagonalScale(orig, s, s);
    assert orig * orig == 0.5 by {
      assert (orig * orig * 2.0 - 1.0) * (s * s) == 0.0;
      assert s * s > 0.0;
    }
    HalfRootBounds(orig);
    assert Trunc(orig * 100.0) == 70;
  }

  /** A positive root of one half lies in [0.70, 0.71). */
  lemma HalfRootBounds(r: real)
    requires 0.0 < r && r * r == 0.5
    ensures 0.70 <= r < 0.71
  {
    if r < 0.70 {
      MulLtMono(r, 0.70, r);
      MulLtMono(r, 0.70, 0.70);
      assert false;
    }
    if r >= 0.71 {
      MulLeMono(0.71, r, r);
      MulLeMono(0.71, r, 0.71);
      assert false;
    }
  }
}
