/** The first C++ detector, src/motion_detector.cpp: six channels on a 3x2
    grid of the 704x384 crop, a channel switch only after motion has been
    seen on MOTION_DETECT_MIN_FRAMES consecutive detection ticks, a
    most-recently-switched-first channel list for the KING view and a fixed
    tour.  TOUR_FRAME_COUNT and MOTION_DETECT_MIN_FRAMES are not defined in
    any file of this model and are constructor parameters here. */
module FrameDetector {
  import opened Common
  import opened Selection
  import opened ChannelMap
  import Layouts

  datatype MotionDisplayMode = NoMotionDisplay | LargestMotion | SortMotion | KingMotion | TopMotion

  /** The channel the tour moves to: current % 6 + 1, with C's remainder. */
  function TourNext(current: int): (next: int)
    ensures 1 <= current <= 6 ==> 1 <= next <= 6
    ensures 1 <= current < 6 ==> next == current + 1
    ensures current == 6 ==> next == 1
  {
    CMod(current, 6) + 1
  }

  function TourAfter(current: int, steps: nat): int
  {
    if steps == 0 then current else TourNext(TourAfter(current, steps - 1))
  }

  /** The tour visits every channel in ascending order, wrapping from 6 to 1:
      after any number of switches it is at (current - 1 + steps) mod 6 + 1,
      so it is back where it started after every six. */
  lemma {:induction false} TourCycles(current: int, steps: nat)
    requires 1 <= current <= 6
    ensures TourAfter(current, steps) == (current - 1 + steps) % 6 + 1
  {
    if steps > 0 {
      TourCycles(current, steps - 1);
      TourAfterStep(current, steps);
    }
  }

  /** One switch from channel (current - 2 + steps) mod 6 + 1 lands on
      (current - 1 + steps) mod 6 + 1. */
  lemma TourAfterStep(current: int, steps: nat)
    requires steps > 0 && TourAfter(current, steps - 1) == (current - 2 + steps) % 6 + 1
    ensures TourAfter(current, steps) == (current - 1 + steps) % 6 + 1
  {
    var x := current - 2 + steps;
    var q := x / 6;
    assert x == 6 * q + x % 6;
    if x % 6 == 5 {
      assert x + 1 == 6 * (q + 1);
    } else {
      assert x + 1 == 6 * q + (x % 6 + 1);
    }
  }

  /** list.erase(std::find(list, v)): the first occurrence of v goes. */
  function RemoveFirst(l: seq<int>, v: int): (r: seq<int>)
    ensures v !in l ==> r == l
    ensures v in l ==> |r| == |l| - 1
  {
    if |l| == 0 then []
    else if l[0] == v then l[1..]
    else [l[0]] + RemoveFirst(l[1..], v)
  }

  /** Removing the first v takes exactly one v out of the multiset. */
  lemma {:induction false} RemoveFirstMultiset(l: seq<int>, v: int)
    ensures multiset(RemoveFirst(l, v)) == multiset(l) - multiset{v}
  {
    if |l| > 0 {
      assert l == [l[0]] + l[1..];
      if l[0] != v {
        RemoveFirstMultiset(l[1..], v);
      }
    }
  }

  /** move_to_front: v goes to the head when present; otherwise nothing changes. */
  function MoveToFront(l: seq<int>, v: int): (r: seq<int>)
    ensures |r| == |l|
    ensures v in l ==> r[0] == v
    ensures v !in l ==> r == l
  {
    if v in l then [v] + RemoveFirst(l, v) else l
  }

  /** The first occurrence of v, found at index i, is what is removed. */
  lemma {:induction false} RemoveFirstAt(l: seq<int>, v: int, i: nat)
    requires i < |l| && l[i] == v && forall j :: 0 <= j < i ==> l[j] != v
    ensures RemoveFirst(l, v) == l[..i] + l[i + 1..]
  {
    if i == 0 {
      assert l[..0] + l[1..] == l[1..];
    } else {
      var t := l[1..];
      assert forall j :: 0 <= j < i - 1 ==> t[j] != v by {
        forall j | 0 <= j < i - 1
          ensures t[j] != v
        {
          assert t[j] == l[j + 1];
        }
      }
      RemoveFirstAt(t, v, i - 1);
      RemoveFirstStep(l, v, i);
    }
  }

  /** One element further in: the head stays in front of what is removed
      from the tail. */
  lemma RemoveFirstStep(l: seq<int>, v: int, i: nat)
    requires 0 < i < |l| && l[0] != v
    requires RemoveFirst(l[1..], v) == l[1..][..i - 1] + l[1..][i..]
    ensures RemoveFirst(l, v) == l[..i] + l[i + 1..]
  {
    var t := l[1..];
    assert RemoveFirst(l, v) == [l[0]] + (t[..i - 1] + t[i..]);
    assert t[..i - 1] == l[1..i] && t[i..] == l[i + 1..];
    assert l[..i] == [l[0]] + l[1..i];
  }

  /** move_to_front reorders and never loses or duplicates a channel; v is at
      the head afterwards; the others keep their relative order; and doing it
      twice is doing it once. */
  lemma MoveToFrontFacts(l: seq<int>, v: int)
    ensures multiset(MoveToFront(l, v)) == multiset(l)
    ensures v in l ==> MoveToFront(l, v)[0] == v
    ensures v in l ==> RemoveFirst(MoveToFront(l, v), v) == RemoveFirst(l, v)
    ensures MoveToFront(MoveToFront(l, v), v) == MoveToFront(l, v)
  {
    if v in l {
      var m := MoveToFront(l, v);
      RemoveFirstMultiset(l, v);
      assert multiset([v]) + multiset(RemoveFirst(l, v)) == multiset(l);
      RemoveFirstAt(m, v, 0);
      assert m[1..] == RemoveFirst(l, v);
    }
  }

  /** The dwell counters: m_motion_ch_frames and m_motion_detected_min_frames. */
  datatype FrameDwell = FrameDwell(frames: int, minFrames: bool)

  /** Lines 107, 114 and 117: count consecutive motion ticks, then compare. */
  function DwellStep(d: FrameDwell, detected: bool, minFramesParam: int): (d': FrameDwell)
    ensures detected ==> d'.frames == d.frames + 1
    ensures !detected ==> d'.frames == 0
    ensures d'.minFrames <==> d'.frames >= minFramesParam
  {
    var frames := if detected then d.frames + 1 else 0;
    FrameDwell(frames, frames >= minFramesParam)
  }

  function DwellRun(ds: seq<bool>, minFramesParam: int): FrameDwell
  {
    if |ds| == 0 then FrameDwell(0, false)
    else DwellStep(DwellRun(ds[..|ds| - 1], minFramesParam), ds[|ds| - 1], minFramesParam)
  }

  /** Number of motion ticks at the end of ds with no motion-free tick after them. */
  function Streak(ds: seq<bool>): (n: nat)
    ensures n <= |ds|
    ensures forall j :: |ds| - n <= j < |ds| ==> ds[j]
    ensures n < |ds| ==> !ds[|ds| - 1 - n]
  {
    if |ds| == 0 || !ds[|ds| - 1] then 0 else Streak(ds[..|ds| - 1]) + 1
  }

  /** The counter is the length of the current motion streak, and min_frames
      says whether that streak has reached MOTION_DETECT_MIN_FRAMES. */
  lemma {:induction false} DwellCountsStreak(ds: seq<bool>, minFramesParam: int)
    ensures DwellRun(ds, minFramesParam).frames == Streak(ds)
    ensures |ds| > 0 ==> (DwellRun(ds, minFramesParam).minFrames <==> Streak(ds) >= minFramesParam)
  {
    if |ds| > 0 {
      DwellCountsStreak(ds[..|ds| - 1], minFramesParam);
    }
  }

  /** A switch is allowed on a motion tick only when min_frames was already set
      by the previous ticks, so motion has lasted MOTION_DETECT_MIN_FRAMES
      ticks before this one: the decision lags the counter by one tick. */
  lemma SwitchNeedsEarlierStreak(ds: seq<bool>, minFramesParam: int)
    requires |ds| > 0 && ds[|ds| - 1] && DwellRun(ds[..|ds| - 1], minFramesParam).minFrames
    ensures |ds| >= 2 && Streak(ds) >= minFramesParam + 1
  {
    var prefix := ds[..|ds| - 1];
    DwellCountsStreak(prefix, minFramesParam);
    DwellCountsStreak(ds, minFramesParam);
  }

  /** One picture on the KING canvas. */
  datatype Tile = Tile(channel: int, at: Rect)

  /** The six KING cells on a 3x3 grid: cell 1 spans 2x2, cells 2-3 the right
      column, 4-6 the bottom row; a seventh channel gets the empty cv::Rect. */
  function KingCell(x: int, w: int, h: int): (r: Option<Rect>)
    ensures r.Some? <==> 1 <= x <= 6
  {
    if x == 1 then Some(Rect(0, 0, 2 * w, 2 * h))
    else if x == 2 then Some(Rect(2 * w, 0, w, h))
    else if x == 3 then Some(Rect(2 * w, h, w, h))
    else if x == 4 then Some(Rect(0, 2 * h, w, h))
    else if x == 5 then Some(Rect(w, 2 * h, w, h))
    else if x == 6 then Some(Rect(2 * w, 2 * h, w, h))
    else None
  }

  lemma KingCellsDisjointInside(a: int, b: int, cw: int, ch: int)
    requires 1 <= a <= 6 && 1 <= b <= 6 && a != b && cw >= 0 && ch >= 0
    ensures InsideCanvas(KingCell(a, cw / 3, ch / 3).value, cw, ch)
    ensures Disjoint(KingCell(a, cw / 3, ch / 3).value, KingCell(b, cw / 3, ch / 3).value)
  {
  }

  predicate HasFrame(hasFrame: seq<bool>, ch: int)
  {
    0 <= ch < |hasFrame| && hasFrame[ch]
  }

  /** The channels of chs whose latest frame is non-empty, in order. */
  function WithFrames(chs: seq<int>, hasFrame: seq<bool>): (r: seq<int>)
    ensures |r| <= |chs|
    ensures forall k :: 0 <= k < |r| ==> r[k] in chs && HasFrame(hasFrame, r[k])
  {
    if |chs| == 0 then []
    else
      var rest := WithFrames(chs[..|chs| - 1], hasFrame);
      if HasFrame(hasFrame, chs[|chs| - 1]) then rest + [chs[|chs| - 1]] else rest
  }

  /** The k-th channel with a frame takes cell k+1, up to the sixth. */
  function KingTiles(fs: seq<int>, w: int, h: int): (ts: seq<Tile>)
    ensures |ts| == Min(|fs|, 6)
  {
    seq(Min(|fs|, 6), k requires 0 <= k < Min(|fs|, 6) => Tile(fs[k], KingCell(k + 1, w, h).value))
  }

  /** paint_main_mat_king(chs): the cell counter advances only past channels
      whose frame is non-empty. */
  method PaintKing(chs: seq<int>, hasFrame: seq<bool>, displayWidth: int, displayHeight: int)
    returns (tiles: seq<Tile>)
    ensures tiles == KingTiles(WithFrames(chs, hasFrame), displayWidth / 3, displayHeight / 3)
  {
    var w := displayWidth / 3;
    var h := displayHeight / 3;
    tiles := [];
    var x := 1;
    var i := 0;
    while i < |chs|
      invariant 0 <= i <= |chs|
      invariant x == 1 + |WithFrames(chs[..i], hasFrame)|
      invariant tiles == KingTiles(WithFrames(chs[..i], hasFrame), w, h)
    {
      assert chs[..i + 1][..i] == chs[..i];
      var ch := chs[i];
      if HasFrame(hasFrame, ch) {
        var cell := KingCell(x, w, h);
        if cell.Some? {
          tiles := tiles + [Tile(ch, cell.value)];
        }
        x := x + 1;
      }
      i := i + 1;
    }
    assert chs[..|chs|] == chs;
  }

  /** Every KING picture lies on the canvas and no two overlap. */
  lemma KingTilesSound(fs: seq<int>, cw: int, ch: int)
    requires cw >= 0 && ch >= 0
    ensures var ts := KingTiles(fs, cw / 3, ch / 3);
      && (forall k :: 0 <= k < |ts| ==> InsideCanvas(ts[k].at, cw, ch))
      && (forall a, b :: 0 <= a < b < |ts| ==> Disjoint(ts[a].at, ts[b].at))
  {
    var ts := KingTiles(fs, cw / 3, ch / 3);
    forall k | 0 <= k < |ts|
      ensures InsideCanvas(ts[k].at, cw, ch)
    {
      KingCellsDisjointInside(k + 1, if k == 0 then 2 else 1, cw, ch);
    }
    forall a, b | 0 <= a < b < |ts|
      ensures Disjoint(ts[a].at, ts[b].at)
    {
      KingCellsDisjointInside(a + 1, b + 1, cw, ch);
    }
  }

  /** paint_main_mat_top's channel list: the current channel, then 1..6
      without it. */
  method TopOrder(current: int) returns (chs: seq<int>)
    ensures chs == [current] + Layouts.OtherChannels(current, 6)
  {
    chs := [current];
    var i := 0;
    while i < 6
      invariant 0 <= i <= 6
      invariant chs == [current] + Layouts.OtherChannels(current, i)
    {
      var x := i + 1;
      if x != current {
        chs := chs + [x];
      }
      i := i + 1;
    }
  }

  /** The TOP list shows every channel once, the current one first. */
  lemma TopOrderPermutes(current: int)
    requires 1 <= current <= 6
    ensures multiset([current] + Layouts.OtherChannels(current, 6)) == multiset(Iota(6))
    ensures |[current] + Layouts.OtherChannels(current, 6)| == 6
  {
    Layouts.TopOrderIsPermutation(current, 6);
  }

  class FrameMotionDetector {
    const motionArea: real
    const tourFrameCount: int
    const minFramesParam: int
    var currentChannel: int
    var motionCh: int
    var motionChFrames: int
    var motionDetected: bool
    var motionDetectedMinFrames: bool
    var tourFrameIndex: int
    var sortedChs: seq<int>
    var enableMotion: bool
    var motionDisplayMode: MotionDisplayMode

    /** The member initialisers of src/motion_detector.hpp and the
        constructor's m_sorted_chs_area_all({1..6}). */
    constructor (motionArea: real, tourFrameCount: int, minFramesParam: int, mode: MotionDisplayMode)
      ensures this.motionArea == motionArea && this.tourFrameCount == tourFrameCount
      ensures this.minFramesParam == minFramesParam && motionDisplayMode == mode
      ensures currentChannel == 1 && motionCh == 1 && motionChFrames == 0 && tourFrameIndex == 0
      ensures !motionDetected && !motionDetectedMinFrames && enableMotion
      ensures sortedChs == Iota(6)
    {
      this.motionArea := motionArea;
      this.tourFrameCount := tourFrameCount;
      this.minFramesParam := minFramesParam;
      currentChannel := 1;
      motionCh := 1;
      motionChFrames := 0;
      motionDetected := false;
      motionDetectedMinFrames := false;
      tourFrameIndex := 0;
      sortedChs := Iota(6);
      enableMotion := true;
      motionDisplayMode := mode;
    }

    method DoTourLogic()
      modifies this`tourFrameIndex, this`currentChannel
      ensures old(tourFrameIndex) + 1 >= tourFrameCount ==>
        tourFrameIndex == 0 && currentChannel == TourNext(old(currentChannel))
      ensures old(tourFrameIndex) + 1 < tourFrameCount ==>
        tourFrameIndex == old(tourFrameIndex) + 1 && currentChannel == old(currentChannel)
    {
      tourFrameIndex := tourFrameIndex + 1;
      if tourFrameIndex >= tourFrameCount {
        tourFrameIndex := 0;
        currentChannel := TourNext(currentChannel);
      }
    }

    /** move_to_front on the member list, with std::find written out. */
    method MoveChannelToFront(value: int)
      modifies this`sortedChs
      ensures sortedChs == MoveToFront(old(sortedChs), value)
    {
      var l := sortedChs;
      var i := 0;
      while i < |l| && l[i] != value
        invariant 0 <= i <= |l|
        invariant forall j :: 0 <= j < i ==> l[j] != value
      {
        i := i + 1;
      }
      if i < |l| {
        RemoveFirstAt(l, value, i);
        sortedChs := [value] + (l[..i] + l[i + 1..]);
      }
    }

    /** detect_largest_motion_area_set_channel: contourArea >= m_motion_area
        qualifies, the bounding rectangle's area is scored. */
    method DetectLargest(contours: seq<Contour>)
      modifies this`motionDetected, this`tourFrameIndex, this`motionCh, this`motionChFrames,
               this`motionDetectedMinFrames, this`currentChannel, this`sortedChs
      ensures var best := Pick(RectAreaAtLeast(contours, motionArea, 0.0));
        motionDetected == (old(motionDetected) || best.Some?)
      ensures var best := Pick(RectAreaAtLeast(contours, motionArea, 0.0));
        var region := if best.Some? then contours[best.value].rect else Rect(0, 0, 0, 0);
        var newCh := Channel3x2(region);
        && (motionDetected ==> tourFrameIndex == 0 && motionCh == newCh)
        && (!motionDetected ==> tourFrameIndex == old(tourFrameIndex) && motionCh == old(motionCh))
        && (var switch := motionDetected && old(motionDetectedMinFrames) && old(currentChannel) != newCh;
            && (switch ==> currentChannel == newCh && sortedChs == MoveToFront(old(sortedChs), newCh))
            && (!switch ==> currentChannel == old(currentChannel) && sortedChs == old(sortedChs)))
      ensures FrameDwell(motionChFrames, motionDetectedMinFrames)
              == DwellStep(FrameDwell(old(motionChFrames), old(motionDetectedMinFrames)), motionDetected, minFramesParam)
    {
      var cs := RectAreaAtLeast(contours, motionArea, 0.0);
      var best := SelectLargest(cs);
      var region := Rect(0, 0, 0, 0);
      if best.Some? {
        region := contours[best.value].rect;
        motionDetected := true;
      }
      if motionDetected {
        tourFrameIndex := 0;
        var newChannel := Channel3x2(region);
        if motionCh != newChannel {
          motionCh := newChannel;
        }
        motionChFrames := motionChFrames + 1;
        if motionDetectedMinFrames && currentChannel != newChannel {
          currentChannel := newChannel;
          MoveChannelToFront(currentChannel);
        }
      } else {
        motionChFrames := 0;
      }
      motionDetectedMinFrames := motionChFrames >= minFramesParam;
    }

    /** One pass of the detect_motion thread: the flag is cleared, and
        detection runs only with motion enabled, a channel-0 frame available
        and one of the motion display modes selected. */
    method DetectMotionTick(frame0Available: bool, contours: seq<Contour>)
      modifies this`motionDetected, this`tourFrameIndex, this`motionCh, this`motionChFrames,
               this`motionDetectedMinFrames, this`currentChannel, this`sortedChs
      ensures !(enableMotion && frame0Available && motionDisplayMode != NoMotionDisplay) ==>
        !motionDetected && motionChFrames == old(motionChFrames) && currentChannel == old(currentChannel)
        && sortedChs == old(sortedChs) && tourFrameIndex == old(tourFrameIndex)
        && motionCh == old(motionCh) && motionDetectedMinFrames == old(motionDetectedMinFrames)
      ensures enableMotion && frame0Available && motionDisplayMode != NoMotionDisplay ==>
        var best := Pick(RectAreaAtLeast(contours, motionArea, 0.0));
        var region := if best.Some? then contours[best.value].rect else Rect(0, 0, 0, 0);
        var newCh := Channel3x2(region);
        && motionDetected == best.Some?
        && (best.Some? ==> tourFrameIndex == 0 && motionCh == newCh)
        && (best.None? ==> tourFrameIndex == old(tourFrameIndex) && motionCh == old(motionCh))
        && (var switch := best.Some? && old(motionDetectedMinFrames) && old(currentChannel) != newCh;
            && (switch ==> currentChannel == newCh && sortedChs == MoveToFront(old(sortedChs), newCh))
            && (!switch ==> currentChannel == old(currentChannel) && sortedChs == old(sortedChs)))
        && FrameDwell(motionChFrames, motionDetectedMinFrames)
           == DwellStep(FrameDwell(old(motionChFrames), old(motionDetectedMinFrames)), best.Some?, minFramesParam)
    {
      motionDetected := false;
      if !enableMotion || !frame0Available {
        return;
      }
      match motionDisplayMode
      case NoMotionDisplay =>
      case _ => DetectLargest(contours);
    }
  }
}
