/** The single-file detector of main.cpp: one detection stream (channel 0)
    cropped to 704x384, six HD channels, a 3x2 grid from motion position to
    channel, and four keys. */
module Legacy {
  import opened Common
  import Selection
  import ChannelMap

  /** The members the display loop reads and writes. */
  datatype LoopState = LoopState(running: bool, currentChannel: int, enableInfo: bool, enableMotion: bool,
                         enableMinimap: bool)

  /** After the constructor and the first statement of start. */
  const Started: LoopState := LoopState(true, 1, false, true, false)

  /** contourArea >= motion_area qualifies; the bounding rectangle's area is
      compared with the running maximum. */
  function Candidates(contours: seq<Contour>, motionArea: int): (cs: seq<Selection.Candidate>)
    ensures |cs| == |contours|
    ensures forall i :: 0 <= i < |cs| ==>
      cs[i].ok == (contours[i].area >= motionArea as real) && cs[i].score == RectArea(contours[i].rect) as real
  {
    seq(|contours|, i requires 0 <= i < |contours| =>
      Selection.Candidate(contours[i].area >= motionArea as real, RectArea(contours[i].rect) as real))
  }

  /** The motion region the selection loop leaves, None when motion_detected
      stays false. */
  function Largest(contours: seq<Contour>, motionArea: int): (r: Option<Rect>)
    ensures r.Some? ==> RectArea(r.value) > 0
    ensures r.Some? ==> exists k :: 0 <= k < |contours| && contours[k].area >= motionArea as real
                                    && r.value == contours[k].rect
  {
    match Selection.Pick(Candidates(contours, motionArea))
    case None => None
    case Some(k) => Some(contours[k].rect)
  }

  /** motion_detected holds exactly when some contour of at least motion_area
      has a bounding rectangle of positive area, and the region is then the
      rectangle of the first contour whose area no other qualifying one
      exceeds, strictly beating the ones before it. */
  lemma LargestIsFirstStrictMax(contours: seq<Contour>, motionArea: int)
    ensures Largest(contours, motionArea).Some? <==>
      exists j :: 0 <= j < |contours| && contours[j].area >= motionArea as real && RectArea(contours[j].rect) > 0
    ensures Largest(contours, motionArea).Some? ==>
      exists k :: Selection.IsFirstStrictMax(Candidates(contours, motionArea), k)
        && Largest(contours, motionArea) == Some(contours[k].rect)
  {
    var cs := Candidates(contours, motionArea);
    Selection.PickSomeIff(cs);
    if exists j :: 0 <= j < |cs| && cs[j].ok && cs[j].score > 0.0 {
      var j :| 0 <= j < |cs| && cs[j].ok && cs[j].score > 0.0;
      assert contours[j].area >= motionArea as real && RectArea(contours[j].rect) > 0;
    }
    if exists j :: 0 <= j < |contours| && contours[j].area >= motionArea as real && RectArea(contours[j].rect) > 0 {
      var j :| 0 <= j < |contours| && contours[j].area >= motionArea as real && RectArea(contours[j].rect) > 0;
      assert cs[j].ok && cs[j].score > 0.0;
    }
  }

  /** The channel after one detection: the 3x2 cell of the region's corner
      when motion was detected, the previous channel otherwise. */
  function Follow(current: int, region: Option<Rect>): (c: int)
    ensures region.None? ==> c == current
    ensures region.Some? && 0 <= region.value.x < CropWidth && 0 <= region.value.y < CropHeight ==> 1 <= c <= 6
  {
    if region.Some? then ChannelMap.Channel3x2(region.value) else current
  }

  /** The key dispatch at the end of each displayed frame. */
  function Key(s: LoopState, key: char): (s': LoopState)
    ensures s'.running == (s.running && key != 'q')
    ensures s'.enableMotion == (s.enableMotion != (key == 'a'))
    ensures s'.enableInfo == (s.enableInfo != (key == 'i'))
    ensures s'.enableMinimap == (s.enableMinimap != (key == 'm'))
    ensures s'.currentChannel == if '1' <= key <= '6' then key as int - '0' as int else s.currentChannel
  {
    if key == 'q' then s.(running := false)
    else if key == 'a' then s.(enableMotion := !s.enableMotion)
    else if key == 'i' then s.(enableInfo := !s.enableInfo)
    else if key == 'm' then s.(enableMinimap := !s.enableMinimap)
    else if '1' <= key <= '6' then s.(currentChannel := key as int - '0' as int)
    else s
  }

  /** One pass of the display loop: nothing happens without a detection
      frame; the keys are not read when the current channel has no frame. */
  function Tick(s: LoopState, frame0: Option<seq<Contour>>, mainReady: bool, key: char, motionArea: int): (s': LoopState)
    ensures frame0.None? ==> s' == s
    ensures !mainReady ==> s' == s.(currentChannel := s'.currentChannel)
    ensures frame0.Some? && !s.enableMotion && (!mainReady || !('1' <= key <= '6')) ==>
      s'.currentChannel == s.currentChannel
  {
    if frame0.None? then s
    else
      var region := if s.enableMotion then Largest(frame0.value, motionArea) else None;
      var s1 := s.(currentChannel := Follow(s.currentChannel, region));
      if mainReady then Key(s1, key) else s1
  }

  /** The bounding rectangles findContours returns for the cropped stream
      start inside the crop. */
  ghost predicate InCrop(contours: seq<Contour>)
  {
    forall i :: 0 <= i < |contours| ==>
      0 <= contours[i].rect.x < CropWidth && 0 <= contours[i].rect.y < CropHeight
  }

  /** The selected region is one of the contours' rectangles. */
  lemma LargestIsAContour(contours: seq<Contour>, motionArea: int)
    ensures Largest(contours, motionArea).Some? ==>
      exists k :: 0 <= k < |contours| && Largest(contours, motionArea).value == contours[k].rect
  {
    var p := Selection.Pick(Candidates(contours, motionArea));
    if p.Some? {
      assert Largest(contours, motionArea).value == contours[p.value].rect;
    }
  }

  /** readers[current_channel] stays one of the six HD readers: a pass keeps
      the current channel in 1..6. */
  lemma TickKeepsChannel(s: LoopState, frame0: Option<seq<Contour>>, mainReady: bool, key: char, motionArea: int)
    requires 1 <= s.currentChannel <= 6
    requires frame0.Some? ==> InCrop(frame0.value)
    ensures 1 <= Tick(s, frame0, mainReady, key, motionArea).currentChannel <= 6
  {
    if frame0.Some? {
      var region := if s.enableMotion then Largest(frame0.value, motionArea) else None;
      if region.Some? {
        LargestInCrop(frame0.value, motionArea);
      }
      var s1 := s.(currentChannel := Follow(s.currentChannel, region));
      KeyKeepsChannel(s1, key);
    }
  }

  /** The region picked from in-crop contours maps to one of the six HD
      channels. */
  lemma LargestInCrop(contours: seq<Contour>, motionArea: int)
    requires InCrop(contours)
    ensures Largest(contours, motionArea).Some? ==> 1 <= Follow(0, Largest(contours, motionArea)) <= 6
  {
    var region := Largest(contours, motionArea);
    if region.Some? {
      LargestIsAContour(contours, motionArea);
      var k :| 0 <= k < |contours| && region.value == contours[k].rect;
      var r := region.value;
      assert InsideCanvas(Rect(r.x, r.y, 1, 1), CropWidth, CropHeight);
    }
  }

  /** The keys keep the current channel among the six HD channels. */
  lemma KeyKeepsChannel(s: LoopState, key: char)
    requires 1 <= s.currentChannel <= 6
    ensures 1 <= Key(s, key).currentChannel <= 6
  {
    if '1' <= key <= '6' {
      assert Key(s, key).currentChannel == key as int - '0' as int;
    }
  }

  /** Without a qualifying contour (or with motion disabled) and without a
      channel key the current channel is left as it was. */
  lemma QuietTickKeepsChannel(s: LoopState, contours: seq<Contour>, mainReady: bool, key: char, motionArea: int)
    requires !s.enableMotion || forall j :: 0 <= j < |contours| ==>
      contours[j].area < motionArea as real || RectArea(contours[j].rect) <= 0
    requires !('1' <= key <= '6')
    ensures Tick(s, Some(contours), mainReady, key, motionArea).currentChannel == s.currentChannel
  {
    LargestIsFirstStrictMax(contours, motionArea);
  }

  /** 'a', 'i' and 'm' each flip one flag: pressing one twice restores the
      state. */
  lemma TogglesAreInvolutions(s: LoopState, key: char)
    requires key == 'a' || key == 'i' || key == 'm'
    ensures Key(Key(s, key), key) == s
    ensures Key(s, key) != s
  {
  }

  /** A digit key selects that channel and changes nothing else; any key
      outside q, a, i, m and 1..6 changes nothing at all. */
  lemma DigitKeySelects(s: LoopState, key: char)
    ensures '1' <= key <= '6' ==>
      Key(s, key) == s.(currentChannel := key as int - '0' as int) && 1 <= Key(s, key).currentChannel <= 6
    ensures key !in "qaim" && !('1' <= key <= '6') ==> Key(s, key) == s
  {
  }

  class LegacyMotionDetector {
    const motionArea: int
    var running: bool
    var currentChannel: int
    var enableInfo: bool
    var enableMotion: bool
    var enableMinimap: bool

    function State(): LoopState
      reads this
    {
      LoopState(running, currentChannel, enableInfo, enableMotion, enableMinimap)
    }

    /** The constructor's initialisers followed by running = true in start. */
    constructor (area: int)
      ensures State() == Started && motionArea == area
    {
      motionArea := area;
      running := true;
      currentChannel := 1;
      enableInfo := false;
      enableMotion := true;
      enableMinimap := false;
    }

    /** The detection block: the selection loop over the contours, then the
        channel of the region's cell. */
    method DetectMotion(contours: seq<Contour>) returns (region: Option<Rect>)
      modifies this`currentChannel
      ensures region == (if enableMotion then Largest(contours, motionArea) else None)
      ensures currentChannel == Follow(old(currentChannel), region)
    {
      region := None;
      if enableMotion {
        region := Selection.BestRect(contours, Candidates(contours, motionArea));
        if region.Some? {
          var newChannel := ChannelMap.Channel3x2(region.value);
          if newChannel != currentChannel {
            currentChannel := newChannel;
          }
        }
      }
    }

    method HandleKey(key: char)
      modifies this
      ensures State() == Key(old(State()), key)
    {
      if key == 'q' {
        running := false;
      } else if key == 'a' {
        enableMotion := !enableMotion;
      } else if key == 'i' {
        enableInfo := !enableInfo;
      } else if key == 'm' {
        enableMinimap := !enableMinimap;
      } else if '1' <= key <= '6' {
        currentChannel := key as int - '0' as int;
      }
    }

    /** One pass of the while (running) loop. */
    method Step(frame0: Option<seq<Contour>>, mainReady: bool, key: char)
      modifies this
      ensures State() == Tick(old(State()), frame0, mainReady, key, motionArea)
    {
      if frame0.None? {
        return;
      }
      var region := DetectMotion(frame0.value);
      if !mainReady {
        return;
      }
      HandleKey(key);
    }
  }
}
