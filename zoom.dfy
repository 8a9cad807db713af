/** The zoom state of the Python prototypes (test1_zoom.py, test1_both.py,
    dcm_dminimap_fs.py): every frame, pick the dominant contour and centre a
    fixed 235x192 window on it, or switch the zoom off and keep the old window. */
module Zoom {
  import opened Common
  import opened Selection
  import Minimap

  const ZoomWidth: int := 235
  const ZoomHeight: int := 192
  const InitialZoomRect: Rect := Rect(0, 0, ZoomWidth, ZoomHeight)

  /** Contour-area thresholds of the prototypes. */
  const MinimapPrototypeThreshold: real := 10.0
  const ZoomPrototypeThreshold: real := 20.0

  /** The 235x192 window centred on the best rectangle's (floor) centre,
      clamped at 0 only. */
  function ZoomRectFor(best: Rect): (z: Rect)
    ensures z.w == ZoomWidth && z.h == ZoomHeight
    ensures z.x >= 0 && z.y >= 0
    ensures best.x + best.w / 2 >= ZoomWidth / 2 ==> z.x + ZoomWidth / 2 == best.x + best.w / 2
    ensures best.x + best.w / 2 < ZoomWidth / 2 ==> z.x == 0
    ensures best.y + best.h / 2 >= ZoomHeight / 2 ==> z.y + ZoomHeight / 2 == best.y + best.h / 2
    ensures best.y + best.h / 2 < ZoomHeight / 2 ==> z.y == 0
  {
    Rect(Max(0, best.x + best.w / 2 - ZoomWidth / 2),
         Max(0, best.y + best.h / 2 - ZoomHeight / 2),
         ZoomWidth, ZoomHeight)
  }

  /** The two loop variables zoom_active and zoom_rect. */
  datatype ZoomState = ZoomState(active: bool, rect: Rect)

  /** Shape every zoom rectangle the prototypes ever hold. */
  predicate WellFormed(s: ZoomState)
  {
    s.rect.w == ZoomWidth && s.rect.h == ZoomHeight && s.rect.x >= 0 && s.rect.y >= 0
  }

  /** Some contour beats both the threshold and the initial running maximum. */
  ghost predicate AnyAbove(contours: seq<Contour>, threshold: real)
  {
    exists j :: 0 <= j < |contours| && contours[j].area > threshold && contours[j].area > 0.0
  }

  /** One frame of the zoom update. */
  function Track(s: ZoomState, contours: seq<Contour>, threshold: real): (t: ZoomState)
    ensures t.active <==> AnyAbove(contours, threshold)
    ensures !t.active ==> t.rect == s.rect
    ensures t.active ==> exists k :: IsFirstStrictMax(AreaAbove(contours, threshold), k)
                                   && t.rect == ZoomRectFor(contours[k].rect)
  {
    var cs := AreaAbove(contours, threshold);
    PickSomeIff(cs);
    match Pick(cs)
    case Some(k) => ZoomState(true, ZoomRectFor(contours[k].rect))
    case None => ZoomState(false, s.rect)
  }

  /** The initial state is well formed and every update keeps it so. */
  lemma TrackPreservesWellFormed(s: ZoomState, contours: seq<Contour>, threshold: real)
    requires WellFormed(s)
    ensures WellFormed(Track(s, contours, threshold))
    ensures WellFormed(ZoomState(false, InitialZoomRect))
  {
  }

  /** An active zoom window depends on the frame alone, not on the previous
      state, so feeding the same frame twice changes nothing. */
  lemma TrackForgetsPreviousWindow(s1: ZoomState, s2: ZoomState, contours: seq<Contour>, threshold: real)
    ensures Track(s1, contours, threshold).active ==>
      Track(s1, contours, threshold) == Track(s2, contours, threshold)
    ensures Track(Track(s1, contours, threshold), contours, threshold) == Track(s1, contours, threshold)
  {
  }

  /** numpy's frame[z.y:z.y+z.h, z.x:z.x+z.w] on an fw x fh frame, for a
      non-negative origin: the slice stops at the frame edge. */
  function CropWindow(z: Rect, fw: int, fh: int): (c: Rect)
    requires z.x >= 0 && z.y >= 0 && z.w >= 0 && z.h >= 0
    ensures c.x == z.x && c.y == z.y
    ensures z.x <= fw ==> c.w == Min(z.w, fw - z.x)
    ensures z.y <= fh ==> c.h == Min(z.h, fh - z.y)
    ensures z.x >= fw ==> c.w == 0
    ensures z.y >= fh ==> c.h == 0
  {
    Rect(z.x, z.y, Max(0, Min(z.x + z.w, fw) - Min(z.x, fw)), Max(0, Min(z.y + z.h, fh) - Min(z.y, fh)))
  }

  /** For a bounding rectangle inside the 704x384 crop, the zoom window is
      never sliced away: at least 118 columns and 97 rows remain. */
  lemma CropNeverEmpty(best: Rect)
    requires best.w >= 1 && best.h >= 1 && InsideCanvas(best, CropWidth, CropHeight)
    ensures var c := CropWindow(ZoomRectFor(best), CropWidth, CropHeight);
      c.w >= 118 && c.h >= 97
  {
  }

  /** Only the lower bound is enforced: a motion at the right edge yields a
      window that runs past the 704-pixel crop, and the slice is narrower. */
  lemma ZoomWindowCanOverrun()
    ensures ZoomRectFor(Rect(700, 0, 4, 4)) == Rect(585, 0, 235, 192)
    ensures 585 + ZoomWidth > CropWidth
    ensures CropWindow(Rect(585, 0, 235, 192), CropWidth, CropHeight).w == 119
  {
  }

  /** What the prototype puts on screen for one frame. */
  datatype View =
    | FullFrame                                  // resized whole crop
    | ZoomCrop(window: Rect)                     // test1_zoom.py
    | ZoomBlend(window: Rect)                    // test1_both.py: zoom blended with the frame
    | ZoomWithMinimap(window: Rect, at: Point)   // dcm_dminimap_fs.py

  /** zoom_active and zoom_rect of one prototype's loop. */
  class ZoomTracker {
    var zoomActive: bool
    var zoomRect: Rect
    const threshold: real

    ghost function State(): ZoomState
      reads this
    {
      ZoomState(zoomActive, zoomRect)
    }

    constructor (threshold: real)
      ensures !zoomActive && zoomRect == InitialZoomRect && this.threshold == threshold
    {
      zoomActive := false;
      zoomRect := InitialZoomRect;
      this.threshold := threshold;
    }

    /** Best-rect selection and the zoom-rect update of one frame. */
    method Update(contours: seq<Contour>)
      modifies this`zoomActive, this`zoomRect
      ensures State() == Track(old(State()), contours, threshold)
    {
      var best := SelectLargest(AreaAbove(contours, threshold));
      if best.Some? {
        zoomRect := ZoomRectFor(contours[best.value].rect);
        zoomActive := true;
      } else {
        zoomActive := false;
      }
    }

    /** test1_zoom.py: the zoom crop while active, the whole frame otherwise. */
    method TickZoom(contours: seq<Contour>) returns (v: View)
      requires WellFormed(State())
      modifies this`zoomActive, this`zoomRect
      ensures State() == Track(old(State()), contours, threshold) && WellFormed(State())
      ensures v == if zoomActive then ZoomCrop(CropWindow(zoomRect, CropWidth, CropHeight)) else FullFrame
    {
      Update(contours);
      TrackPreservesWellFormed(old(State()), contours, threshold);
      if zoomActive {
        v := ZoomCrop(CropWindow(zoomRect, CropWidth, CropHeight));
      } else {
        v := FullFrame;
      }
    }

    /** test1_both.py: the blended zoom view exactly when zoom is active. */
    method TickBoth(contours: seq<Contour>) returns (v: View)
      requires WellFormed(State())
      modifies this`zoomActive, this`zoomRect
      ensures State() == Track(old(State()), contours, threshold) && WellFormed(State())
      ensures v.ZoomBlend? <==> zoomActive
      ensures v.ZoomBlend? ==> v.window == CropWindow(zoomRect, CropWidth, CropHeight)
      ensures !v.ZoomBlend? ==> v == FullFrame
    {
      Update(contours);
      TrackPreservesWellFormed(old(State()), contours, threshold);
      if zoomActive {
        v := ZoomBlend(CropWindow(zoomRect, CropWidth, CropHeight));
      } else {
        v := FullFrame;
      }
    }

    /** dcm_dminimap_fs.py: the zoom crop with the minimap in the opposite
        corner while active, the whole frame otherwise. */
    method TickMinimap(contours: seq<Contour>) returns (v: View)
      requires WellFormed(State())
      modifies this`zoomActive, this`zoomRect
      ensures State() == Track(old(State()), contours, threshold) && WellFormed(State())
      ensures v.ZoomWithMinimap? <==> zoomActive
      ensures v.ZoomWithMinimap? ==>
        v.window == CropWindow(zoomRect, CropWidth, CropHeight)
        && v.at == Minimap.DisplayMinimapPosition(zoomRect)
      ensures !v.ZoomWithMinimap? ==> v == FullFrame
    {
      Update(contours);
      TrackPreservesWellFormed(old(State()), contours, threshold);
      if zoomActive {
        v := ZoomWithMinimap(CropWindow(zoomRect, CropWidth, CropHeight),
                             Minimap.DisplayMinimapPosition(zoomRect));
      } else {
        v := FullFrame;
      }
    }
  }
}
