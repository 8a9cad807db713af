/** The second C++ detector (src/motion_detector_*.cpp) as one object: the
    detection tick that selects the largest region, runs the dwell and linger
    timers and follows motion to a channel; the tour; change_channel; the
    draw-loop iteration that picks what to show, paints the grids and hands
    the key to the key handler.  Frames are described only by their size and,
    for detection, by the contours the background subtractor reports; clock
    readings are integer milliseconds passed in. */
module Detector {
  import opened Common
  import Selection
  import ChannelMap
  import Dwell
  import KingChain
  import Keys
  import Layouts
  import Buffers

  datatype Size = Size(w: int, h: int)

  /** A frame the detection thread got from a reader: its size and the
      contours found in it. */
  datatype Frame = Frame(cols: int, rows: int, contours: seq<Contour>)

  /** Bounding rectangles of contours found in a frame start inside it. */
  predicate ContoursInside(f: Frame)
  {
    forall i :: 0 <= i < |f.contours| ==>
      0 <= f.contours[i].rect.x < f.cols && 0 <= f.contours[i].rect.y < f.rows
  }

  /** ---------------- ignore contours ---------------- */

  /** The ignore contours with the empty ones removed, order kept. */
  function NonEmpty(ics: seq<seq<Point>>): (r: seq<seq<Point>>)
    ensures |r| <= |ics|
    ensures forall k :: 0 <= k < |r| ==> r[k] != []
  {
    if |ics| == 0 then []
    else if ics[|ics| - 1] == [] then NonEmpty(ics[..|ics| - 1])
    else NonEmpty(ics[..|ics| - 1]) + [ics[|ics| - 1]]
  }

  lemma {:induction false} NonEmptyAppend(a: seq<seq<Point>>, b: seq<seq<Point>>)
    ensures NonEmpty(a + b) == NonEmpty(a) + NonEmpty(b)
  {
    if |b| > 0 {
      NonEmptyAppend(a, b[..|b| - 1]);
      assert (a + b)[..|a + b| - 1] == a + b[..|b| - 1];
    } else {
      assert a + b == a;
    }
  }

  /** Removing the empty contours loses no point and keeps their order. */
  lemma {:induction false} NonEmptyKeepsPoints(ics: seq<seq<Point>>)
    ensures Keys.Flatten(NonEmpty(ics)) == Keys.Flatten(ics)
  {
    if |ics| > 0 {
      NonEmptyKeepsPoints(ics[..|ics| - 1]);
      var init := NonEmpty(ics[..|ics| - 1]);
      if ics[|ics| - 1] != [] {
        assert (init + [ics[|ics| - 1]])[..|init|] == init;
      }
    }
  }

  /** A list without empty contours is left as it is. */
  lemma {:induction false} NonEmptyIdentity(ics: seq<seq<Point>>)
    requires forall k :: 0 <= k < |ics| ==> ics[k] != []
    ensures NonEmpty(ics) == ics
  {
    if |ics| > 0 {
      NonEmptyIdentity(ics[..|ics| - 1]);
    }
  }

  /** The in-place cleanup of detect_largest_motion_area_set_channel: erase
      an empty entry and look at the same index again. */
  method EraseEmpty(ics0: seq<seq<Point>>) returns (ics: seq<seq<Point>>)
    ensures ics == NonEmpty(ics0)
  {
    ics := ics0;
    var i := 0;
    while i < |ics|
      invariant 0 <= i <= |ics|
      invariant NonEmpty(ics) == NonEmpty(ics0)
      invariant forall k :: 0 <= k < i ==> ics[k] != []
      decreases |ics| - i
    {
      if ics[i] == [] {
        assert ics == ics[..i] + [ics[i]] + ics[i + 1..];
        NonEmptyAppend(ics[..i] + [ics[i]], ics[i + 1..]);
        NonEmptyAppend(ics[..i], [ics[i]]);
        NonEmptyAppend(ics[..i], ics[i + 1..]);
        ics := ics[..i] + ics[i + 1..];
      } else {
        i := i + 1;
      }
    }
    NonEmptyIdentity(ics);
  }

  /** ---------------- the tour ---------------- */

  /** m_tour_start_set, m_tour_start and m_tour_current_channel. */
  datatype Tour = Tour(startSet: bool, start: int, current: int)

  /** One call of do_tour_logic: the first call starts the clock; once
      tour_ms have elapsed the clock restarts and the tour channel advances,
      wrapping from CHANNEL_COUNT to 1. */
  function TourStep(t: Tour, now: int, tourMs: int): (t': Tour)
    ensures t'.startSet
    ensures 0 <= t.current <= KingChain.ChannelCount ==> 1 <= t'.current <= KingChain.ChannelCount || t'.current == t.current
  {
    var start := if t.startSet then t.start else now;
    if now - start >= tourMs then Tour(true, now, Keys.NextOf(t.current))
    else Tour(true, start, t.current)
  }

  /** Whether this call advances the tour. */
  predicate TourAdvances(t: Tour, now: int, tourMs: int)
  {
    now - (if t.startSet then t.start else now) >= tourMs
  }

  /** The tour channel changes exactly on the calls that advance it, and then
      to the next channel; otherwise the clock start is kept. */
  lemma TourStepAdvancesIff(t: Tour, now: int, tourMs: int)
    requires 0 <= t.current <= KingChain.ChannelCount
    ensures TourStep(t, now, tourMs).current != t.current <==> TourAdvances(t, now, tourMs)
    ensures TourAdvances(t, now, tourMs) ==>
      TourStep(t, now, tourMs).start == now && 1 <= TourStep(t, now, tourMs).current <= KingChain.ChannelCount
    ensures !TourAdvances(t, now, tourMs) ==> TourStep(t, now, tourMs).start == (if t.startSet then t.start else now)
  {
  }

  /** The channel after k advances. */
  function Advance(c: int, k: nat): int
  {
    if k == 0 then c else Keys.NextOf(Advance(c, k - 1))
  }

  /** k advances from channel c reach channel (c - 1 + k) mod 8 + 1, so the
      tour visits every channel once in eight steps and then repeats. */
  lemma {:induction false} AdvanceCycles(c: int, k: nat)
    requires 1 <= c <= KingChain.ChannelCount
    ensures Advance(c, k) == (c - 1 + k) % KingChain.ChannelCount + 1
  {
    if k > 0 {
      AdvanceCycles(c, k - 1);
      ModSuccessor(c - 2 + k);
    }
  }

  /** One more step around the ring of channel numbers. */
  lemma ModSuccessor(x: int)
    ensures (x + 1) % KingChain.ChannelCount
      == if x % KingChain.ChannelCount + 1 == KingChain.ChannelCount then 0 else x % KingChain.ChannelCount + 1
  {
    var q := x / 8;
    assert x == 8 * q + x % 8;
    if x % 8 == 7 {
      assert x + 1 == 8 * (q + 1);
    } else {
      assert x + 1 == 8 * q + (x % 8 + 1);
    }
  }

  /** ---------------- following motion ---------------- */

  /** The bounding rect of the region the detection loop keeps, if any. */
  function Largest(contours: seq<Contour>, minArea: real, minRectArea: real): (r: Option<Rect>)
    ensures r.Some? <==> exists j :: 0 <= j < |contours| && contours[j].area >= minArea
                          && RectArea(contours[j].rect) as real >= minRectArea && RectArea(contours[j].rect) > 0
    ensures r.Some? ==> exists j :: 0 <= j < |contours| && contours[j].rect == r.value
  {
    var cs := Selection.RectAreaAtLeast(contours, minArea, minRectArea);
    Selection.PickSomeIff(cs);
    var p := Selection.Pick(cs);
    if p.Some? then Some(contours[p.value].rect) else None
  }

  /** change_channel when a min-ms tick maps the region to a different
      channel and no channel is in focus. */
  function Follow(c: Keys.Channels, minMs: bool, region: Rect, focusChannel: int): (c': Keys.Channels)
    ensures c' != c ==> minMs && focusChannel == -1 && c'.current == ChannelMap.Channel3x3(region)
  {
    var target := ChannelMap.Channel3x3(region);
    if minMs && focusChannel == -1 && c.current != target then Keys.ChangeChannel(c, target) else c
  }

  /** Following a region inside the 704x576 stream keeps the channels valid,
      and after a min-ms tick the current channel is the region's. */
  lemma FollowKeepsValid(c: Keys.Channels, minMs: bool, region: Rect, focusChannel: int)
    requires Keys.ValidChannels(c) && 0 <= region.x < W0 && 0 <= region.y < H0
    ensures Keys.ValidChannels(Follow(c, minMs, region, focusChannel))
    ensures minMs && focusChannel == -1 ==> Follow(c, minMs, region, focusChannel).current == ChannelMap.Channel3x3(region)
  {
    Keys.ChangeChannelKeepsValid(c, ChannelMap.Channel3x3(region));
  }

  /** The region ring after a push: appended unless full. */
  function Pushed(rs: seq<Rect>, slots: nat, r: Option<Rect>): seq<Rect>
  {
    if r.Some? && |rs| < slots - 1 then rs + [r.value] else rs
  }

  /** A region as drawn on the tile of channel ch, before scaling. */
  function TileRelative(region: Rect, ch: int): (r: Rect)
    ensures r.w == region.w && r.h == region.h
  {
    var off := ChannelMap.RegionOffset(ch);
    Rect(region.x - off.x, region.y - off.y, region.w, region.h)
  }

  /** A region that starts in the low-CPU tile of channel ch starts inside
      that tile once shifted. */
  lemma TileRelativeInsideTile(region: Rect, ch: int)
    requires 1 <= ch <= 6
    requires ChannelMap.LowCpuTile(ch).x <= region.x < ChannelMap.LowCpuTile(ch).x + W0 / 3
    requires ChannelMap.LowCpuTile(ch).y <= region.y < ChannelMap.LowCpuTile(ch).y + H0 / 3
    ensures 0 <= TileRelative(region, ch).x < W0 / 3 && 0 <= TileRelative(region, ch).y < H0 / 3
  {
  }

  /** ---------------- the draw loop ---------------- */

  /** What an iteration of draw_loop shows. */
  datatype Source = Detection | CurrentChannel | SortGrid | KingGrid | TopGrid | AllGrid | NoSource

  /** The decision chain of draw_loop. */
  function DrawSource(u: Keys.UiState, focusChannel: int): (src: Source)
    ensures (u.switches.minimapFullscreen || focusChannel != -1) <==> src == Detection
    ensures src == CurrentChannel <==>
      !(u.switches.minimapFullscreen || focusChannel != -1)
      && (u.switches.fullscreenChannel || u.displayMode == Keys.DisplayModeSingle
          || (u.motion.enabled && u.switches.zoomLargest && (u.motion.detectedMinMs || u.motion.linger)))
  {
    if u.switches.minimapFullscreen || focusChannel != -1 then Detection
    else if u.switches.fullscreenChannel || u.displayMode == Keys.DisplayModeSingle
         || (u.motion.enabled && u.switches.zoomLargest && (u.motion.detectedMinMs || u.motion.linger)) then CurrentChannel
    else if u.displayMode == Keys.DisplayModeSort then SortGrid
    else if u.displayMode == Keys.DisplayModeKing then KingGrid
    else if u.displayMode == Keys.DisplayModeTop then TopGrid
    else if u.displayMode == Keys.DisplayModeAll then AllGrid
    else NoSource
  }

  /** Every one of the five display modes shows something, and a grid is
      shown only in its own mode. */
  lemma DrawSourceByMode(u: Keys.UiState, focusChannel: int)
    requires 0 <= u.displayMode <= 4
    ensures DrawSource(u, focusChannel) != NoSource
    ensures DrawSource(u, focusChannel) == SortGrid ==> u.displayMode == Keys.DisplayModeSort
    ensures DrawSource(u, focusChannel) == KingGrid ==> u.displayMode == Keys.DisplayModeKing
    ensures DrawSource(u, focusChannel) == TopGrid ==> u.displayMode == Keys.DisplayModeTop
    ensures DrawSource(u, focusChannel) == AllGrid ==> u.displayMode == Keys.DisplayModeAll
  {
  }

  /** The grid layout of a grid source. */
  function LayoutOf(src: Source): Layouts.GridLayout
    requires src.SortGrid? || src.KingGrid? || src.TopGrid? || src.AllGrid?
  {
    match src
    case SortGrid => Layouts.SortGrid
    case KingGrid => Layouts.KingGrid
    case TopGrid => Layouts.TopGrid
    case AllGrid => Layouts.AllGrid
  }

  predicate IsGrid(src: Source)
  {
    src.SortGrid? || src.KingGrid? || src.TopGrid? || src.AllGrid?
  }

  /** A reader as get_frame sees it: running and active, and its latest frame. */
  datatype Reader = Reader(live: bool, latest: Option<Size>)

  /** Where get_frame takes a channel's picture from. */
  datatype Picture = FromReader | NoPicture | FromTile(at: Rect)

  /** get_frame: in low-CPU mode a live reader is used only with hq motion;
      otherwise the channel's tile of the detection frame, or nothing when
      that frame is empty.  Without low-CPU mode the reader is used. */
  function GetFrame(lowCpu: bool, hqMotion: bool, reader: Reader, frame0: Option<Size>, ch: int): (p: Picture)
    ensures p == FromReader <==> !lowCpu || (hqMotion && reader.live)
    ensures p == NoPicture <==> lowCpu && !(hqMotion && reader.live) && frame0 == None
  {
    if lowCpu then
      if hqMotion && reader.live then FromReader
      else if frame0 == None then NoPicture
      else FromTile(ChannelMap.LowCpuTile(ch))
  else FromReader
  }

  /** A tile picture of channel 1..8 lies inside the detection frame, and the
      tiles of different channels do not overlap. */
  lemma GetFrameTiles(lowCpu: bool, hqMotion: bool, reader: Reader, reader': Reader, frame0: Option<Size>, a: int, b: int)
    requires 1 <= a <= KingChain.ChannelCount && 1 <= b <= KingChain.ChannelCount && a != b
    ensures var p := GetFrame(lowCpu, hqMotion, reader, frame0, a);
      p.FromTile? ==> InsideCanvas(p.at, W0, H0)
    ensures var p := GetFrame(lowCpu, hqMotion, reader, frame0, a);
      var q := GetFrame(lowCpu, hqMotion, reader', frame0, b);
      p.FromTile? && q.FromTile? ==> Disjoint(p.at, q.at)
  {
    ChannelMap.LowCpuTilesDisjoint(a, b);
  }

  /** The size of the picture get_frame hands back, None when it is empty. */
  function PictureSize(p: Picture, reader: Reader): Option<Size>
  {
    match p
    case FromReader => reader.latest
    case NoPicture => None
    case FromTile(r) => Some(Size(r.w, r.h))
  }

  /** Which channels have a picture this iteration, indexed by channel. */
  function HasFrames(lowCpu: bool, hqMotion: bool, readers: seq<Reader>, frame0: Option<Size>): (hf: seq<bool>)
    ensures |hf| == |readers|
    ensures forall c :: 0 <= c < |readers| ==>
      (hf[c] <==> PictureSize(GetFrame(lowCpu, hqMotion, readers[c], frame0, c), readers[c]).Some?)
  {
    seq(|readers|, c requires 0 <= c < |readers| =>
      PictureSize(GetFrame(lowCpu, hqMotion, readers[c], frame0, c), readers[c]).Some?)
  }

  /** The inputs of one draw-loop iteration: the clock, the detection frame,
      every reader, the canvas of the grid layouts and the key pressed. */
  datatype DrawInputs = DrawInputs(now: int, frame0: Option<Size>, readers: seq<Reader>, canvas: Size, key: int)

  /** The channels after the tour part of a draw iteration: the tour's
      channel change when the tour is on and advances, then layout_changed
      cleared when a grid is painted. */
  ghost function TouredChannels(c: Keys.Channels, t: Tour, now: int, tourMs: int, tourOn: bool, grid: bool): Keys.Channels
  {
    var c1 := if tourOn && TourAdvances(t, now, tourMs) then Keys.ChangeChannel(c, TourStep(t, now, tourMs).current) else c;
    if grid then c1.(layoutChanged := false) else c1
  }

  /** Painting the motion region: when active and the ring is not empty,
      the oldest region is popped and drawn relative to the current
      channel's tile; otherwise nothing is drawn and the ring is kept. */
  ghost predicate Popped(active: bool, current: int, before: seq<Rect>, after: seq<Rect>, drawn: Option<Rect>)
  {
    if active && before != [] then drawn == Some(TileRelative(before[0], current)) && after == before[1..]
    else drawn == None && after == before
  }

  class MotionDetector {
    /** m_focus_channel (-1: none) and the focus area, when one is set. */
    const focusChannel: int
    const focusArea: Option<Rect>
    const enableIgnoreContours: bool
    const enableInfoRect: bool
    const lowCpu: bool
    const lowCpuHqMotion: bool
    const motionMinArea: real
    const motionMinRectArea: real
    const motionDetectMinMs: int
    const tourMs: int
    const codes: Keys.KeyCodes
    /** m_motion_region: the regions waiting to be drawn. */
    const regions: Buffers.LockFreeRingBuffer<Rect>

    var running: bool
    var motion: Keys.MotionFlags
    var displayMode: int
    var switches: Keys.Switches
    var channels: Keys.Channels
    var marks: Keys.Marks
    var startSet: bool
    var start: int
    var lingerStart: int
    var tourStartSet: bool
    var tourStart: int
    var tourCurrent: int
    var displayWidth: int
    var displayHeight: int

    /** The state the keys act on. */
    function Ui(): Keys.UiState
      reads this
    {
      Keys.UiState(running, motion, displayMode, switches, channels, marks)
    }

    /** The dwell and linger timers. */
    function Timers(): Dwell.DwellState
      reads this
    {
      Dwell.DwellState(startSet, start, motion.detectedMinMs, motion.linger, lingerStart)
    }

    function TourState(): Tour
      reads this
    {
      Tour(tourStartSet, tourStart, tourCurrent)
    }

    ghost predicate Valid()
      reads this, regions
    {
      Keys.Valid(Ui()) && 0 <= tourCurrent <= KingChain.ChannelCount && regions.Valid()
    }

    constructor (focusChannel: int, focusArea: Option<Rect>, enableIgnoreContours: bool, enableInfoRect: bool,
                 lowCpu: bool, lowCpuHqMotion: bool, motionMinArea: real, motionMinRectArea: real,
                 motionDetectMinMs: int, tourMs: int, codes: Keys.KeyCodes, regionSlots: nat,
                 initial: Keys.UiState, displayWidth: int, displayHeight: int)
      requires Keys.Valid(initial) && regionSlots >= 1
      ensures Valid() && fresh(regions) && fresh(regions.buffer)
      ensures Ui() == initial && Timers() == Dwell.DwellState(false, 0, initial.motion.detectedMinMs, initial.motion.linger, 0)
      ensures TourState() == Tour(false, 0, 0) && regions.Contents() == [] && regions.size == regionSlots
      ensures this.focusChannel == focusChannel && this.focusArea == focusArea
      ensures this.enableIgnoreContours == enableIgnoreContours && this.enableInfoRect == enableInfoRect
      ensures this.lowCpu == lowCpu && this.lowCpuHqMotion == lowCpuHqMotion
      ensures this.motionMinArea == motionMinArea && this.motionMinRectArea == motionMinRectArea
      ensures this.motionDetectMinMs == motionDetectMinMs && this.tourMs == tourMs && this.codes == codes
      ensures this.displayWidth == displayWidth && this.displayHeight == displayHeight
    {
      this.focusChannel := focusChannel;
      this.focusArea := focusArea;
      this.enableIgnoreContours := enableIgnoreContours;
      this.enableInfoRect := enableInfoRect;
      this.lowCpu := lowCpu;
      this.lowCpuHqMotion := lowCpuHqMotion;
      this.motionMinArea := motionMinArea;
      this.motionMinRectArea := motionMinRectArea;
      this.motionDetectMinMs := motionDetectMinMs;
      this.tourMs := tourMs;
      this.codes := codes;
      regions := new Buffers.LockFreeRingBuffer<Rect>(regionSlots);
      running := initial.running;
      motion := initial.motion;
      displayMode := initial.displayMode;
      switches := initial.switches;
      channels := initial.channels;
      marks := initial.marks;
      startSet := false;
      start := 0;
      lingerStart := 0;
      tourStartSet := false;
      tourStart := 0;
      tourCurrent := 0;
      this.displayWidth := displayWidth;
      this.displayHeight := displayHeight;
    }

    /** change_channel: mark the layout changed, move ch to the front of the
        king chain, make it current. */
    method ChangeChannel(ch: int)
      requires Valid() && 1 <= ch <= KingChain.ChannelCount
      modifies this`channels
      ensures channels == Keys.ChangeChannel(old(channels), ch)
      ensures Valid()
    {
      var chain := KingChain.MoveToFrontLoop(channels.kingChain, ch);
      Keys.ChangeChannelKeepsValid(channels, ch);
      channels := Keys.Channels(ch, chain, true);
    }

    /** do_tour_logic. */
    method DoTourLogic(now: int)
      requires Valid()
      modifies this`tourStartSet, this`tourStart, this`tourCurrent, this`channels
      ensures Valid()
      ensures TourState() == TourStep(old(TourState()), now, tourMs)
      ensures channels == if TourAdvances(old(TourState()), now, tourMs)
                          then Keys.ChangeChannel(old(channels), TourState().current) else old(channels)
    {
      if !tourStartSet {
        tourStart := now;
        tourStartSet := true;
      }
      var elapsed := now - tourStart;
      if elapsed >= tourMs {
        tourStart := now;
        tourCurrent := tourCurrent + 1;
        if tourCurrent > KingChain.ChannelCount {
          tourCurrent := 1;
        }
        ChangeChannel(tourCurrent);
      }
    }

    /** detect_largest_motion_area_set_channel, from the ignore-contour
        cleanup to the linger timeout; returns the contours blacked out. */
    method DetectLargest(contours: seq<Contour>, now: int) returns (blackout: seq<seq<Point>>)
      requires Valid()
      requires focusChannel == -1 ==> ContoursInside(Frame(W0, H0, contours))
      modifies this`motion, this`startSet, this`start, this`lingerStart, this`channels, regions, regions.buffer
      ensures Valid()
      ensures blackout == if enableIgnoreContours then NonEmpty(marks.ignoreContours) else []
      ensures var best := Largest(contours, motionMinArea, motionMinRectArea);
        && motion.enabled == old(motion.enabled)
        && motion.detected == best.Some?
        && Timers() == Dwell.Step(old(Timers()), Dwell.Tick(best.Some?, now), motionDetectMinMs)
        && channels == Follow(old(channels), motion.detectedMinMs, if best.Some? then best.value else Rect(0, 0, 0, 0), focusChannel)
        && regions.Contents() == Pushed(old(regions.Contents()), regions.size, best)
    {
      blackout := [];
      if enableIgnoreContours {
        blackout := EraseEmpty(marks.ignoreContours);
      }
      var best := Selection.BestRect(contours, Selection.RectAreaAtLeast(contours, motionMinArea, motionMinRectArea));
      DwellOn(best, now);
    }

    /** The timer part of detect_largest_motion_area_set_channel: record
        the detection and push the region, then step the dwell timer. */
    method DwellOn(best: Option<Rect>, now: int)
      requires Valid()
      requires focusChannel == -1 && best.Some? ==> 0 <= best.value.x < W0 && 0 <= best.value.y < H0
      modifies this`motion, this`startSet, this`start, this`lingerStart, this`channels, regions, regions.buffer
      ensures Valid()
      ensures && motion.enabled == old(motion.enabled)
        && motion.detected == best.Some?
        && Timers() == Dwell.Step(old(Timers()), Dwell.Tick(best.Some?, now), motionDetectMinMs)
        && channels == Follow(old(channels), motion.detectedMinMs, if best.Some? then best.value else Rect(0, 0, 0, 0), focusChannel)
        && regions.Contents() == Pushed(old(regions.Contents()), regions.size, best)
    {
      var region := Rect(0, 0, 0, 0);
      motion := motion.(detected := false);
      if best.Some? {
        region := best.value;
        motion := motion.(detected := true);
        var _ := regions.Push(region);
      }
      StepTimers(region, now);
    }

    /** Start or stop the dwell timer, follow the region after the minimum
        time, and end the linger after its timeout. */
    method StepTimers(region: Rect, now: int)
      requires Valid()
      requires focusChannel == -1 && motion.detected ==> 0 <= region.x < W0 && 0 <= region.y < H0
      modifies this`motion, this`startSet, this`start, this`lingerStart, this`channels
      ensures Valid()
      ensures && motion.enabled == old(motion.enabled)
        && motion.detected == old(motion.detected)
        && Timers() == Dwell.Step(old(Timers()), Dwell.Tick(motion.detected, now), motionDetectMinMs)
        && channels == Follow(old(channels), motion.detectedMinMs, region, focusChannel)
    {
      if motion.detected {
        StartOrKeepDwell(region, now);
      } else {
        startSet := false;
        motion := motion.(detectedMinMs := false);
      }
      if motion.linger && now - lingerStart >= Dwell.MotionDetectLingerMs {
        motion := motion.(linger := false);
      }
    }

    /** The motion branch of the timers: keep or set the start, and on a
        min-ms tick follow the region and restart the linger. */
    method StartOrKeepDwell(region: Rect, now: int)
      requires Valid() && motion.detected
      requires focusChannel == -1 ==> 0 <= region.x < W0 && 0 <= region.y < H0
      modifies this`motion, this`startSet, this`start, this`lingerStart, this`channels
      ensures Valid()
      ensures motion.enabled == old(motion.enabled) && motion.detected
      ensures Timers() == Dwell.Detect(old(Timers()), Dwell.Tick(true, now), motionDetectMinMs)
      ensures channels == Follow(old(channels), motion.detectedMinMs, region, focusChannel)
    {
      if !startSet {
        start, startSet := now, true;
      }
      var minMs := now - start >= motionDetectMinMs;
      if minMs {
        FollowRegion(region);
        lingerStart := now;
      }
      motion := motion.(detectedMinMs := minMs, linger := minMs || motion.linger);
    }

    /** After a min-ms tick with no channel in focus, switch to the channel
        the region falls in unless it is already current. */
    method FollowRegion(region: Rect)
      requires Valid()
      requires focusChannel == -1 ==> 0 <= region.x < W0 && 0 <= region.y < H0
      modifies this`channels
      ensures Valid()
      ensures channels == Follow(old(channels), true, region, focusChannel)
    {
      if focusChannel == -1 {
        var newChannel := ChannelMap.Channel3x3(region);
        if channels.current != newChannel {
          ChangeChannel(newChannel);
        }
      }
    }

    /** One pass of detect_motion's loop: clear motion_detected, then run
        detection on the frame if motion is enabled and the frame is usable.
        Returns whether detection ran. */
    method DetectMotion(frame: Option<Frame>, now: int) returns (ran: bool)
      requires Valid()
      requires frame.Some? ==> ContoursInside(frame.value)
      modifies this`motion, this`startSet, this`start, this`lingerStart, this`channels, regions, regions.buffer
      ensures Valid()
      ensures ran <==> (motion.enabled && frame.Some? &&
        if focusChannel == -1 then frame.value.cols == W0 && frame.value.rows == H0
        else focusArea.None? || ChannelMap.ClampFocus(focusArea.value, frame.value.cols, frame.value.rows).Some?)
      ensures !ran ==> && motion == old(motion).(detected := false) && Timers() == old(Timers())
                       && channels == old(channels) && regions.Contents() == old(regions.Contents())
      ensures ran ==> var best := Largest(frame.value.contours, motionMinArea, motionMinRectArea);
        && motion.detected == best.Some?
        && Timers() == Dwell.Step(old(Timers()), Dwell.Tick(best.Some?, now), motionDetectMinMs)
        && channels == Follow(old(channels), motion.detectedMinMs, if best.Some? then best.value else Rect(0, 0, 0, 0), focusChannel)
        && regions.Contents() == Pushed(old(regions.Contents()), regions.size, best)
    {
      motion := motion.(detected := false);
      ran := false;
      if motion.enabled {
        if focusChannel == -1 {
          if frame.Some? && frame.value.cols == W0 && frame.value.rows == H0 {
            var _ := DetectLargest(frame.value.contours, now);
            ran := true;
          }
        } else if frame.Some? {
          if focusArea.Some? {
            var roi := ChannelMap.ClampFocus(focusArea.value, frame.value.cols, frame.value.rows);
            if roi.Some? {
              var _ := DetectLargest(frame.value.contours, now);
              ran := true;
            }
          } else {
            var _ := DetectLargest(frame.value.contours, now);
            ran := true;
          }
        }
      }
    }

    /** draw_paint_motion_region: with the info rectangle on and min-ms
        motion, pop one region and draw it relative to the current channel's
        tile.  The float scaling to the target picture is not modelled. */
    method PaintMotionRegion() returns (drawn: Option<Rect>)
      requires regions.Valid()
      modifies regions`tail
      ensures regions.Valid()
      ensures var active := enableInfoRect && motion.detectedMinMs && old(regions.Contents()) != [];
        && drawn == (if active then Some(TileRelative(old(regions.Contents())[0], channels.current)) else None)
        && regions.Contents() == (if active then old(regions.Contents())[1..] else old(regions.Contents()))
    {
      drawn := None;
      if !enableInfoRect || !motion.detectedMinMs {
        return;
      }
      var region := regions.Pop();
      if region.Some? {
        drawn := Some(TileRelative(region.value, channels.current));
      }
    }

    /** The four draw_paint_main_mat_* functions: each slot whose channel
        has a picture is placed, the motion region is drawn on the one slot
        that carries it, and layout_changed is cleared. */
    method PaintMainMat(layout: Layouts.GridLayout, hasFrame: seq<bool>) returns (ps: seq<Layouts.Placement>, drawn: Option<Rect>)
      requires Valid()
      modifies this`channels, regions`tail
      ensures Valid()
      ensures channels == old(channels).(layoutChanged := false)
      ensures ps == Layouts.Placements(layout, Layouts.ChannelCount, channels.kingChain, channels.current,
                                       displayWidth, displayHeight, hasFrame)
      ensures var active := enableInfoRect && motion.detectedMinMs && old(regions.Contents()) != []
                            && exists k :: 0 <= k < |ps| && ps[k].motionRegion;
        && drawn == (if active then Some(TileRelative(old(regions.Contents())[0], channels.current)) else None)
        && regions.Contents() == (if active then old(regions.Contents())[1..] else old(regions.Contents()))
    {
      KingChain.ChainShape(channels.kingChain);
      var seen;
      ps, seen := PlaceSlots(layout, channels.kingChain, channels.current, displayWidth, displayHeight, hasFrame);
      drawn := None;
      if seen {
        drawn := PaintMotionRegion();
      }
      channels := channels.(layoutChanged := false);
    }

    /** Appending a placement adds its motion flag to the "some placement
        carries the region" test. */
    static lemma AnyMotionSnoc(ps: seq<Layouts.Placement>, p: Layouts.Placement)
      ensures (exists k :: 0 <= k < |ps + [p]| && (ps + [p])[k].motionRegion)
              <==> (exists k :: 0 <= k < |ps| && ps[k].motionRegion) || p.motionRegion
    {
      assert (ps + [p])[|ps|] == p;
      assert forall k :: 0 <= k < |ps| ==> (ps + [p])[k] == ps[k];
    }

    /** The state of the slot loop after slots 0..i-1. */
    static ghost predicate Placed(layout: Layouts.GridLayout, i: nat, chain: seq<int>, current: int, cw: int, ch: int,
                                  hasFrame: seq<bool>, ps: seq<Layouts.Placement>, seen: bool)
      requires i <= Layouts.ChannelCount && |chain| == Layouts.ChannelCount && 1 <= current <= Layouts.ChannelCount
    {
      && ps == Layouts.Placements(layout, i, chain, current, cw, ch, hasFrame)
      && (seen <==> exists k :: 0 <= k < |ps| && ps[k].motionRegion)
    }

    /** One turn of the slot loop keeps its state. */
    static lemma PlacedStep(layout: Layouts.GridLayout, i: nat, chain: seq<int>, current: int, cw: int, ch: int,
                            hasFrame: seq<bool>, ps: seq<Layouts.Placement>, seen: bool)
      requires i < Layouts.ChannelCount && |chain| == Layouts.ChannelCount && 1 <= current <= Layouts.ChannelCount
      requires Placed(layout, i, chain, current, cw, ch, hasFrame, ps, seen)
      ensures var p := Layouts.Slot(layout, i, chain, current, cw, ch);
        if 0 <= p.channel < |hasFrame| && hasFrame[p.channel]
        then Placed(layout, i + 1, chain, current, cw, ch, hasFrame, ps + [p], seen || p.motionRegion)
        else Placed(layout, i + 1, chain, current, cw, ch, hasFrame, ps, seen)
    {
      var p := Layouts.Slot(layout, i, chain, current, cw, ch);
      Layouts.PlacementsStep(layout, i, chain, current, cw, ch, hasFrame);
      if 0 <= p.channel < |hasFrame| && hasFrame[p.channel] {
        AnyMotionSnoc(ps, p);
      }
    }

    /** The slot loop of a paint: the slots whose channel has a picture,
        and whether one of them carries the motion region. */
    static method PlaceSlots(layout: Layouts.GridLayout, chain: seq<int>, current: int, cw: int, ch: int,
                             hasFrame: seq<bool>)
      returns (ps: seq<Layouts.Placement>, seen: bool)
      requires |chain| == Layouts.ChannelCount && 1 <= current <= Layouts.ChannelCount
      ensures ps == Layouts.Placements(layout, Layouts.ChannelCount, chain, current, cw, ch, hasFrame)
      ensures seen <==> exists k :: 0 <= k < |ps| && ps[k].motionRegion
    {
      ps := [];
      seen := false;
      var i := 0;
      while i < Layouts.ChannelCount
        invariant 0 <= i <= Layouts.ChannelCount
        invariant Placed(layout, i, chain, current, cw, ch, hasFrame, ps, seen)
      {
        var p := Layouts.Slot(layout, i, chain, current, cw, ch);
        PlacedStep(layout, i, chain, current, cw, ch, hasFrame, ps, seen);
        if 0 <= p.channel < |hasFrame| && hasFrame[p.channel] {
          seen := seen || p.motionRegion;
          ps := ps + [p];
        }
        i := i + 1;
      }
    }

    /** Lines 48-71 of draw_loop: the tour, then the source chain and its
        painting.  Returns the source, the size of what it produced (None
        when it is empty), the motion region drawn and, for a grid, the
        placements. */
    method Compose(inp: DrawInputs) returns (src: Source, shown: Option<Size>, drawn: Option<Rect>, ps: seq<Layouts.Placement>)
      requires Valid() && |inp.readers| > KingChain.ChannelCount
      modifies this`tourStartSet, this`tourStart, this`tourCurrent, this`channels, regions`tail
      ensures Valid()
      ensures src == DrawSource(old(Ui()), focusChannel)
      ensures TourState() == if switches.tour then TourStep(old(TourState()), inp.now, tourMs) else old(TourState())
      ensures src == Detection ==> shown == inp.frame0 && ps == [] && drawn == None
      ensures IsGrid(src) ==> shown == Some(inp.canvas) && channels.layoutChanged == false
      ensures IsGrid(src) ==> ps == Layouts.Placements(LayoutOf(src), Layouts.ChannelCount, channels.kingChain,
                                   channels.current, displayWidth, displayHeight,
                                   HasFrames(lowCpu, lowCpuHqMotion, inp.readers, inp.frame0))
      ensures src == CurrentChannel ==> shown == PictureSize(
        GetFrame(lowCpu, lowCpuHqMotion, inp.readers[channels.current], inp.frame0, channels.current),
        inp.readers[channels.current])
      ensures src == NoSource ==> shown == None
      ensures !IsGrid(src) ==> channels.layoutChanged == (old(channels.layoutChanged) ||
                                 (switches.tour && TourAdvances(old(TourState()), inp.now, tourMs)))
      ensures channels == TouredChannels(old(channels), old(TourState()), inp.now, tourMs, switches.tour, IsGrid(src))
      ensures src == Detection || src == NoSource ==> drawn == None && regions.Contents() == old(regions.Contents())
      ensures src == CurrentChannel ==>
        Popped(enableInfoRect && motion.detectedMinMs, channels.current, old(regions.Contents()), regions.Contents(), drawn)
      ensures IsGrid(src) ==>
        Popped(enableInfoRect && motion.detectedMinMs && exists k :: 0 <= k < |ps| && ps[k].motionRegion,
               channels.current, old(regions.Contents()), regions.Contents(), drawn)
    {
      TourIfOn(inp.now);
      src := DrawSource(Ui(), focusChannel);
      shown, drawn, ps := PaintSource(src, inp);
    }

    /** Line 48 of draw_loop: the tour runs only when its switch is on. */
    method TourIfOn(now: int)
      requires Valid()
      modifies this`tourStartSet, this`tourStart, this`tourCurrent, this`channels
      ensures Valid()
      ensures TourState() == if switches.tour then TourStep(old(TourState()), now, tourMs) else old(TourState())
      ensures channels == TouredChannels(old(channels), old(TourState()), now, tourMs, switches.tour, false)
    {
      if switches.tour {
        DoTourLogic(now);
      }
    }

    /** Lines 51-71 of draw_loop after the tour: the picture of the chosen
        source, with the motion region drawn on it. */
    method PaintSource(src: Source, inp: DrawInputs) returns (shown: Option<Size>, drawn: Option<Rect>, ps: seq<Layouts.Placement>)
      requires Valid() && |inp.readers| > KingChain.ChannelCount
      modifies this`channels, regions`tail
      ensures Valid()
      ensures channels == if IsGrid(src) then old(channels).(layoutChanged := false) else old(channels)
      ensures src == Detection ==> shown == inp.frame0 && ps == []
      ensures IsGrid(src) ==> shown == Some(inp.canvas)
      ensures IsGrid(src) ==> ps == Layouts.Placements(LayoutOf(src), Layouts.ChannelCount, channels.kingChain,
                                   channels.current, displayWidth, displayHeight,
                                   HasFrames(lowCpu, lowCpuHqMotion, inp.readers, inp.frame0))
      ensures src == CurrentChannel ==> shown == PictureSize(
        GetFrame(lowCpu, lowCpuHqMotion, inp.readers[channels.current], inp.frame0, channels.current),
        inp.readers[channels.current])
      ensures src == NoSource ==> shown == None
      ensures src == Detection || src == NoSource ==> drawn == None && regions.Contents() == old(regions.Contents())
      ensures src == CurrentChannel ==>
        Popped(enableInfoRect && motion.detectedMinMs, channels.current, old(regions.Contents()), regions.Contents(), drawn)
      ensures IsGrid(src) ==>
        Popped(enableInfoRect && motion.detectedMinMs && exists k :: 0 <= k < |ps| && ps[k].motionRegion,
               channels.current, old(regions.Contents()), regions.Contents(), drawn)
    {
      shown := None;
      drawn := None;
      ps := [];
      if src == Detection {
        shown := inp.frame0;
      } else if src == CurrentChannel {
        var ch := channels.current;
        shown := PictureSize(GetFrame(lowCpu, lowCpuHqMotion, inp.readers[ch], inp.frame0, ch), inp.readers[ch]);
        drawn := PaintMotionRegion();
      } else if IsGrid(src) {
        ps, drawn := PaintMainMat(LayoutOf(src), HasFrames(lowCpu, lowCpuHqMotion, inp.readers, inp.frame0));
        shown := Some(inp.canvas);
      }
    }

    /** Lines 73-91 of draw_loop: with a non-empty picture, adopt its size
        where the display size is still 0 and handle the key; with an empty
        one, nothing happens. */
    method Present(shown: Option<Size>, key: int)
      requires Valid()
      modifies this`displayWidth, this`displayHeight, this`running, this`motion, this`displayMode,
               this`switches, this`channels, this`marks
      ensures Valid()
      ensures shown.None? ==> Ui() == old(Ui()) && displayWidth == old(displayWidth) && displayHeight == old(displayHeight)
      ensures shown.Some? ==>
        && displayWidth == (if old(displayWidth) == 0 then shown.value.w else old(displayWidth))
        && displayHeight == (if old(displayHeight) == 0 then shown.value.h else old(displayHeight))
        && Ui() == Keys.Apply(old(Ui()), Keys.KeyCommand(key, codes))
    {
      if shown.Some? {
        if displayWidth == 0 {
          displayWidth := shown.value.w;
        }
        if displayHeight == 0 {
          displayHeight := shown.value.h;
        }
        HandleKey(key);
      }
    }

    /** One iteration of draw_loop.  mid is the UI state between the
        composition and the key: the composition changes only the channels
        (the tour), and the key acts only when a picture was shown. */
    method DrawIteration(inp: DrawInputs) returns (src: Source, shown: Option<Size>, drawn: Option<Rect>, ps: seq<Layouts.Placement>,
                                                  ghost mid: Keys.UiState)
      requires Valid() && |inp.readers| > KingChain.ChannelCount
      modifies this`tourStartSet, this`tourStart, this`tourCurrent, this`channels, regions`tail,
               this`displayWidth, this`displayHeight, this`running, this`motion, this`displayMode, this`switches, this`marks
      ensures Valid()
      ensures src == DrawSource(old(Ui()), focusChannel)
      ensures TourState() == if old(switches.tour) then TourStep(old(TourState()), inp.now, tourMs) else old(TourState())
      ensures mid == old(Ui()).(channels := mid.channels)
      ensures mid.channels == TouredChannels(old(channels), old(TourState()), inp.now, tourMs, old(switches.tour), IsGrid(src))
      ensures src == Detection || src == NoSource ==> drawn == None && regions.Contents() == old(regions.Contents())
      ensures src == CurrentChannel ==>
        Popped(enableInfoRect && old(motion.detectedMinMs), mid.channels.current, old(regions.Contents()), regions.Contents(), drawn)
      ensures src == Detection ==> ps == []
      ensures IsGrid(src) ==> ps == Layouts.Placements(LayoutOf(src), Layouts.ChannelCount, mid.channels.kingChain,
                                   mid.channels.current, old(displayWidth), old(displayHeight),
                                   HasFrames(lowCpu, lowCpuHqMotion, inp.readers, inp.frame0))
      ensures IsGrid(src) ==>
        Popped(enableInfoRect && old(motion.detectedMinMs) && exists k :: 0 <= k < |ps| && ps[k].motionRegion,
               mid.channels.current, old(regions.Contents()), regions.Contents(), drawn)
      ensures shown.None? ==> Ui() == mid
      ensures shown.Some? ==> Ui() == Keys.Apply(mid, Keys.KeyCommand(inp.key, codes))
      ensures shown.None? ==> displayWidth == old(displayWidth) && displayHeight == old(displayHeight)
      ensures shown.Some? && old(displayWidth) == 0 ==> displayWidth == shown.value.w
      ensures shown.Some? && old(displayHeight) == 0 ==> displayHeight == shown.value.h
      ensures old(displayWidth) != 0 ==> displayWidth == old(displayWidth)
      ensures old(displayHeight) != 0 ==> displayHeight == old(displayHeight)
    {
      src, shown, drawn, ps := Compose(inp);
      mid := Ui();
      Present(shown, inp.key);
    }

    /** draw_loop_handle_keys: the key's command, carried out.  The class
        runs the corrected chain KeyCommand; the chain as written is
        Keys.KeyCommandAsWritten. */
    method HandleKey(key: int)
      requires Valid()
      modifies this`running, this`motion, this`displayMode, this`switches, this`channels, this`marks
      ensures Valid()
      ensures Ui() == Keys.Apply(old(Ui()), Keys.KeyCommand(key, codes))
    {
      var c := Keys.KeyCommand(key, codes);
      Execute(c);
    }

    /** The reset key's channel part: channel 1 and the chain 1..8. */
    method ResetChannels()
      requires Valid()
      modifies this`channels
      ensures Valid()
      ensures channels == old(channels).(current := 1, kingChain := Keys.InitialChain)
    {
      Keys.InitialChainIsChain();
      channels := channels.(current := 1, kingChain := Keys.InitialChain);
    }

    /** One branch of draw_loop_handle_keys, applied field by field. */
    method Execute(c: Keys.Command)
      requires Valid()
      requires c.SetDisplayMode? ==> 0 <= c.mode <= 4
      requires c.SelectChannel? ==> 1 <= c.ch <= KingChain.ChannelCount
      modifies this`running, this`motion, this`displayMode, this`switches, this`channels, this`marks
      ensures Valid()
      ensures Ui() == Keys.Apply(old(Ui()), c)
    {
      match c {
        case Quit => running := false;
        case ToggleMotion =>
          motion := motion.(enabled := !motion.enabled);
          if !motion.enabled {
            motion := motion.(detected := false, detectedMinMs := false, linger := false);
          }
        case Toggle(f) => switches := Keys.Flip(switches, f);
        case SetDisplayMode(m) => displayMode := m;
        case DisplayModeUp =>
          displayMode := displayMode + 1;
          if displayMode > 4 {
            displayMode := 4;
          }
        case DisplayModeDown =>
          displayMode := displayMode - 1;
          if displayMode < 0 {
            displayMode := 0;
          }
        case Reset =>
          ResetChannels();
          motion := motion.(detected := false, enabled := Keys.EnableMotion);
          switches := switches.(info := Keys.EnableInfo, minimap := Keys.EnableMinimap,
                                fullscreenChannel := Keys.EnableFullscreenChannel, tour := Keys.EnableTour);
        case NextChannel => ChangeChannel(Keys.NextOf(channels.current));
        case PreviousChannel => ChangeChannel(Keys.PreviousOf(channels.current));
        case SelectChannel(ch) => ChangeChannel(ch);
        case Edit(e) => marks := Keys.EditMarks(marks, e);
        case NoCommand =>
      }
    }
  }
}
