/** From a motion position on the detection stream to a camera channel, and
    back from a channel to its tile of the detection stream.

    The sources compute `int(x / 704.0f * 3)`; for the integer coordinates a
    bounding rectangle has, 3x/704 is never within float rounding of an
    integer other than 0, so the truncated float equals the truncated integer
    quotient 3x/704, which is what is written here. */
module ChannelMap {
  import opened Common

  /** 3x2 grid of main.cpp and src/motion_detector.cpp over the 704x384 crop:
      column from the region's left edge, bottom half adds 3. */
  function Channel3x2(region: Rect): (ch: int)
    ensures InsideCanvas(Rect(region.x, region.y, 1, 1), CropWidth, CropHeight) ==> 1 <= ch <= 6
    ensures 0 <= region.x < CropWidth && 0 <= region.y < CropHeight ==>
      var col := ch - 1 - (if region.y >= CropHeight / 2 then 3 else 0);
      col * CropWidth <= 3 * region.x < (col + 1) * CropWidth
  {
    1 + CDiv(3 * region.x, CropWidth) + (if region.y >= CropHeight / 2 then 3 else 0)
  }

  /** Every one of the six channels is reachable from some in-crop position. */
  lemma Channel3x2Onto(ch: int)
    requires 1 <= ch <= 6
    ensures var col := (ch - 1) % 3;
      var r := Rect(235 * col, if ch >= 4 then 192 else 0, 1, 1);
      InsideCanvas(r, CropWidth, CropHeight) && Channel3x2(r) == ch
  {
  }

  /** 3x3 grid of src/motion_detector_motion.cpp over the 704x576 stream; the
      bottom row has only two channels, 7 for the left column and 8 for the
      other two. */
  function Channel3x3(region: Rect): (ch: int)
    ensures 0 <= region.x < W0 && 0 <= region.y < H0 ==> 1 <= ch <= 8
  {
    var col := CDiv(3 * region.x, W0);
    var row := CDiv(3 * region.y, H0);
    if row == 0 then 1 + col
    else if row == 1 then 4 + col
    else if col == 0 then 7 else 8
  }

  /** The grid cell each channel is chosen from. */
  lemma Channel3x3Cells(x: int, y: int)
    requires 0 <= x < W0 && 0 <= y < H0
    ensures var ch := Channel3x3(Rect(x, y, 0, 0));
      && (y < 192 <==> 1 <= ch <= 3)
      && (192 <= y < 384 <==> 4 <= ch <= 6)
      && (384 <= y <==> 7 <= ch <= 8)
      && (ch == 1 || ch == 4 || ch == 7 <==> 3 * x < W0)
  {
  }

  /** The 234x192 tile of the detection stream that stands in for a channel in
      low-CPU mode (src/motion_detector_utils.cpp get_frame). */
  function LowCpuTile(ch: int): (r: Rect)
    ensures r.w == W0 / 3 && r.h == H0 / 3
    ensures 1 <= ch <= 8 ==> InsideCanvas(r, W0, H0)
  {
    var row := if ch >= 7 then 2 else CDiv(ch - 1, 3);
    var col := CMod(ch - 1, 3);
    Rect(W0 / 3 * col, H0 / 3 * row, W0 / 3, H0 / 3)
  }

  /** Tiles of different channels do not overlap. */
  lemma LowCpuTilesDisjoint(a: int, b: int)
    requires 1 <= a <= 8 && 1 <= b <= 8 && a != b
    ensures Disjoint(LowCpuTile(a), LowCpuTile(b))
  {
  }

  /** Round trip: the centre of a channel's tile maps back to that channel. */
  lemma TileCentreMapsBack(ch: int)
    requires 1 <= ch <= 8
    ensures var t := LowCpuTile(ch);
      Channel3x3(Rect(t.x + t.w / 2, t.y + t.h / 2, 0, 0)) == ch
  {
  }

  /** The tile grid uses the truncated width 234 while the channel grid splits
      at 704/3: the left edge of channel 2's tile still belongs to channel 1. */
  lemma TileAndGridDisagreeAtEdge()
    ensures LowCpuTile(2).x == 234
    ensures Channel3x3(Rect(234, 0, 1, 1)) == 1
  {
  }

  /** Offset subtracted from a motion region before it is drawn on the tile of
      channel ch (src/motion_detector_draw_paint.cpp). */
  function RegionOffset(ch: int): (p: Point)
    ensures 1 <= ch <= 8 ==> p.x == LowCpuTile(ch).x && p.y == LowCpuTile(ch).y
  {
    Point(CMod(ch - 1, 3) * (W0 / 3), CDiv(ch - 1, 3) * (H0 / 3))
  }

  /** Focus-area clamp of detect_motion: the origin is raised to 0, the size
      is cut at the frame's right and bottom edge, and an empty result means
      no detection this tick. */
  function ClampFocus(area: Rect, cols: int, rows: int): (r: Option<Rect>)
    ensures r.Some? ==> InsideCanvas(r.value, cols, rows) && r.value.w > 0 && r.value.h > 0
    ensures r.Some? ==> r.value.x == Max(0, area.x) && r.value.y == Max(0, area.y)
    ensures r.Some? ==> (r.value.w == Min(area.w, cols - Max(0, area.x))
                      && r.value.h == Min(area.h, rows - Max(0, area.y)))
    ensures r.None? <==> Min(area.w, cols - Max(0, area.x)) <= 0 || Min(area.h, rows - Max(0, area.y)) <= 0
  {
    var x := Max(0, area.x);
    var y := Max(0, area.y);
    var w := if x + area.w > cols then cols - x else area.w;
    var h := if y + area.h > rows then rows - y else area.h;
    if w > 0 && h > 0 then Some(Rect(x, y, w, h)) else None
  }

  /** An area already inside the frame is used as it is. */
  lemma ClampFocusKeepsInnerArea(area: Rect, cols: int, rows: int)
    requires InsideCanvas(area, cols, rows) && area.w > 0 && area.h > 0
    ensures ClampFocus(area, cols, rows) == Some(area)
  {
  }
}
