/** Placement of the overview minimap: dcm_dminimap_fs.py puts it in the corner
    diagonally opposite the centre of the zoom window, in crop coordinates, and
    then scales that corner to the 1920x1080 display; main.cpp always pins it to
    (margin, margin). */
module Minimap {
  import opened Common

  const DisplayWidth: int := 1920
  const DisplayHeight: int := 1080

  /** The 300x160 minimap after copyMakeBorder adds 2 pixels on every side. */
  const MinimapWidth: int := 300
  const MinimapHeight: int := 160
  const Padding: int := 2
  const PaddedWidth: int := MinimapWidth + 2 * Padding
  const PaddedHeight: int := MinimapHeight + 2 * Padding

  const DefaultMargin: int := 10

  /** Python's `norm < 0.5` test on the zoom centre: (z + zw/2)/f < 0.5 over
      floats, written over reals. */
  predicate CentreBeforeMidline(z: int, zw: int, f: int)
    requires f > 0
  {
    ((z as real) + (zw as real) / 2.0) / (f as real) < 0.5
  }

  /** The float test agrees with the integer test 2z + zw < f. */
  lemma CentreBeforeMidlineIff(z: int, zw: int, f: int)
    requires f > 0
    ensures CentreBeforeMidline(z, zw, f) <==> 2 * z + zw < f
  {
    var c := (z as real) + (zw as real) / 2.0;
    var fr := f as real;
    HalfTest(c, fr);
    assert 2.0 * c == (2 * z + zw) as real;
  }

  /** Below one half of a positive divisor, over reals. */
  lemma HalfTest(c: real, fr: real)
    requires fr > 0.0
    ensures c / fr < 0.5 <==> 2.0 * c < fr
  {
    var q := c / fr;
    assert c == q * fr;
    assert fr - 2.0 * c == (1.0 - 2.0 * q) * fr;
    if q < 0.5 {
      assert (1.0 - 2.0 * q) * fr > 0.0;
    } else {
      assert (2.0 * q - 1.0) * fr >= 0.0;
    }
  }

  /** get_minimap_position: the four branches of the quadrant test. */
  function GetMinimapPosition(zoom: Rect, frameW: int, frameH: int,
                              minimapW: int, minimapH: int, margin: int): (p: Point)
    requires frameW > 0 && frameH > 0
    ensures p.x == margin || p.x == frameW - minimapW - margin
    ensures p.y == margin || p.y == frameH - minimapH - margin
    ensures 2 * zoom.x + zoom.w < frameW ==> p.x == frameW - minimapW - margin
    ensures 2 * zoom.x + zoom.w >= frameW ==> p.x == margin
    ensures 2 * zoom.y + zoom.h < frameH ==> p.y == frameH - minimapH - margin
    ensures 2 * zoom.y + zoom.h >= frameH ==> p.y == margin
  {
    CentreBeforeMidlineIff(zoom.x, zoom.w, frameW);
    CentreBeforeMidlineIff(zoom.y, zoom.h, frameH);
    if CentreBeforeMidline(zoom.x, zoom.w, frameW) then
      if CentreBeforeMidline(zoom.y, zoom.h, frameH) then
        Point(frameW - minimapW - margin, frameH - minimapH - margin)
      else
        Point(frameW - minimapW - margin, margin)
    else
      if CentreBeforeMidline(zoom.y, zoom.h, frameH) then
        Point(margin, frameH - minimapH - margin)
      else
        Point(margin, margin)
  }

  /** A zoom centre exactly on a midline takes the else branch. */
  lemma MidlineTakesElse(zoom: Rect, frameW: int, frameH: int, minimapW: int, minimapH: int, margin: int)
    requires frameW > 0 && frameH > 0
    ensures 2 * zoom.x + zoom.w == frameW ==>
      GetMinimapPosition(zoom, frameW, frameH, minimapW, minimapH, margin).x == margin
    ensures 2 * zoom.y + zoom.h == frameH ==>
      GetMinimapPosition(zoom, frameW, frameH, minimapW, minimapH, margin).y == margin
  {
  }

  /** x depends only on the horizontal inputs and y only on the vertical ones. */
  lemma AxesIndependent(a: Rect, b: Rect, frameW: int, frameH: int, frameW': int, frameH': int,
                        minimapW: int, minimapH: int, minimapW': int, minimapH': int, margin: int)
    requires frameW > 0 && frameH > 0 && frameW' > 0 && frameH' > 0
    ensures a.x == b.x && a.w == b.w && frameW == frameW' && minimapW == minimapW' ==>
      GetMinimapPosition(a, frameW, frameH, minimapW, minimapH, margin).x
      == GetMinimapPosition(b, frameW', frameH', minimapW', minimapH', margin).x
    ensures a.y == b.y && a.h == b.h && frameH == frameH' && minimapH == minimapH' ==>
      GetMinimapPosition(a, frameW, frameH, minimapW, minimapH, margin).y
      == GetMinimapPosition(b, frameW', frameH', minimapW', minimapH', margin).y
  {
  }

  /** Diagonal opposition: the minimap is on the right exactly when the zoom
      centre is on the left, and at the bottom exactly when it is at the top
      (assuming the two candidate corners differ). */
  lemma OppositeCorner(zoom: Rect, frameW: int, frameH: int, minimapW: int, minimapH: int, margin: int)
    requires frameW > 0 && frameH > 0
    requires frameW - minimapW - margin != margin && frameH - minimapH - margin != margin
    ensures var p := GetMinimapPosition(zoom, frameW, frameH, minimapW, minimapH, margin);
      && (p.x == frameW - minimapW - margin <==> 2 * zoom.x + zoom.w < frameW)
      && (p.y == frameH - minimapH - margin <==> 2 * zoom.y + zoom.h < frameH)
  {
  }

  /** No clamping: the position is non-negative exactly when the chosen corner
      fits, i.e. margin >= 0 on the near side and minimap + margin <= frame on
      the far side. */
  lemma NonNegativeIffFits(zoom: Rect, frameW: int, frameH: int, minimapW: int, minimapH: int, margin: int)
    requires frameW > 0 && frameH > 0
    ensures var p := GetMinimapPosition(zoom, frameW, frameH, minimapW, minimapH, margin);
      && (2 * zoom.x + zoom.w < frameW ==> (p.x >= 0 <==> minimapW + margin <= frameW))
      && (2 * zoom.x + zoom.w >= frameW ==> (p.x >= 0 <==> margin >= 0))
      && (2 * zoom.y + zoom.h < frameH ==> (p.y >= 0 <==> minimapH + margin <= frameH))
      && (2 * zoom.y + zoom.h >= frameH ==> (p.y >= 0 <==> margin >= 0))
  {
  }

  /** `int(m * display / crop)`: true division, then truncation toward zero. */
  function ScaleToDisplay(m: int, display: int, crop: int): (d: int)
    requires crop > 0
    ensures m >= 0 && display >= 0 ==> d == m * display / crop
    ensures m >= 0 && display >= 0 ==> d * crop <= m * display < (d + 1) * crop
  {
    CDiv(m * display, crop)
  }

  /** The display position of the minimap in dcm_dminimap_fs.py. */
  function DisplayMinimapPosition(zoom: Rect): (p: Point)
    ensures p.x == 27 || p.x == 1063
    ensures p.y == 28 || p.y == 590
    ensures 0 <= p.x && p.x + PaddedWidth <= DisplayWidth
    ensures 0 <= p.y && p.y + PaddedHeight <= DisplayHeight
  {
    var m := GetMinimapPosition(zoom, CropWidth, CropHeight, PaddedWidth, PaddedHeight, DefaultMargin);
    Point(ScaleToDisplay(m.x, DisplayWidth, CropWidth), ScaleToDisplay(m.y, DisplayHeight, CropHeight))
  }

  /** main.cpp's getMinimapPosition ignores its size arguments. */
  function FixedMinimapPosition(frameW: int, frameH: int, minimapW: int, minimapH: int, margin: int): (p: Point)
    ensures p.x == margin && p.y == margin
  {
    Point(margin, margin)
  }
}
