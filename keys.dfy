/** Keyboard control of the second C++ detector
    (src/motion_detector_handle_keys.cpp): each key code maps to one command,
    and each command changes the detector's user-facing state.  The
    KEY_LINUX_* and KEY_WIN_* codes, KEY_BACKSPACE and KEY_ENTER are not
    defined in any file of this model; they are a parameter record. */
module Keys {
  import opened Common
  import KingChain

  const DisplayModeSingle: int := 0
  const DisplayModeAll: int := 1
  const DisplayModeSort: int := 2
  const DisplayModeKing: int := 3
  const DisplayModeTop: int := 4

  /** Compile-time defaults (src/globals.hpp, non-debug build). */
  const EnableInfo: bool := false
  const EnableMotion: bool := true
  const EnableMinimap: bool := false
  const EnableFullscreenChannel: bool := false
  const EnableTour: bool := false

  /** The chain the reset key writes. */
  const InitialChain: seq<int> := [1, 2, 3, 4, 5, 6, 7, 8]

  datatype KeyCodes = KeyCodes(
    linuxArrowUp: int, winArrowUp: int, linuxArrowDown: int, winArrowDown: int,
    linuxArrowLeft: int, winArrowLeft: int, linuxArrowRight: int, winArrowRight: int,
    linuxPageUp: int, winPageUp: int, linuxPageDown: int, winPageDown: int,
    backspace: int, enter: int)

  /** The plain on/off switches. */
  datatype Switch = ZoomLargest | Info | Minimap | FullscreenChannel | Tour | MinimapFullscreen | AlarmPixels

  /** The commands that edit the ignore contours and the alarm pixels. */
  datatype Mark = AddIgnorePoint | CommitIgnoreContour | ClearIgnoreContours | ClearAlarmPixels | AddAlarmPixel

  datatype Command =
    | Quit | ToggleMotion | Toggle(switch: Switch)
    | SetDisplayMode(mode: int) | DisplayModeUp | DisplayModeDown
    | Reset | NextChannel | PreviousChannel | SelectChannel(ch: int)
    | Edit(mark: Mark)
    | NoCommand

  function Code(c: char): int { c as int }

  /** The if-chain of draw_loop_handle_keys exactly as written: the page-down
      test compares with KEY_LINUX_PAGE_DOWN twice, and the right-arrow test
      compares with KEY_WIN_ARROW_LEFT, which the left-arrow test already
      took. */
  function KeyCommandAsWritten(key: int, k: KeyCodes): (c: Command)
    ensures c.SetDisplayMode? ==> 0 <= c.mode <= 4
    ensures c.SelectChannel? ==> 1 <= c.ch <= KingChain.ChannelCount && key == Code('0') + c.ch
    ensures c == PreviousChannel ==> key == k.linuxArrowRight
    ensures c == Toggle(Minimap) ==> key == Code('o') || key == k.linuxPageDown
  {
    KeyChain(key, k, k.linuxPageDown, k.winArrowLeft)
  }

  /** The if-chain with the evidently intended codes: KEY_WIN_PAGE_DOWN
      toggles the minimap and KEY_WIN_ARROW_RIGHT steps back a channel. */
  function KeyCommand(key: int, k: KeyCodes): (c: Command)
    ensures c.SetDisplayMode? ==> 0 <= c.mode <= 4
    ensures c.SelectChannel? ==> 1 <= c.ch <= KingChain.ChannelCount && key == Code('0') + c.ch
  {
    KeyChain(key, k, k.winPageDown, k.winArrowRight)
  }

  /** The chain, with the two codes that differ between the versions as
      parameters. */
  function KeyChain(key: int, k: KeyCodes, secondPageDown: int, secondArrowRight: int): Command
  {
    if key == Code('q') then Quit
    else if key == Code('m') || key == Code('*') then ToggleMotion
    else if key == Code('l') || key == Code('/') then Toggle(ZoomLargest)
    else if key == Code('n') then SetDisplayMode(DisplayModeSingle)
    else if key == Code('a') then SetDisplayMode(DisplayModeAll)
    else if key == Code('s') then SetDisplayMode(DisplayModeSort)
    else if key == Code('j') then SetDisplayMode(DisplayModeTop)
    else if key == Code('k') then SetDisplayMode(DisplayModeKing)
    else if key == k.linuxArrowUp || key == k.winArrowUp then DisplayModeUp
    else if key == k.linuxArrowDown || key == k.winArrowDown then DisplayModeDown
    else if key == Code('i') || key == k.linuxPageUp || key == k.winPageUp then Toggle(Info)
    else if key == Code('o') || key == k.linuxPageDown || key == secondPageDown then Toggle(Minimap)
    else if key == Code('f') || key == Code('+') then Toggle(FullscreenChannel)
    else if key == Code('t') || key == Code('.') then Toggle(Tour)
    else if key == Code('r') || key == k.backspace then Reset
    else if key == Code('0') then Toggle(MinimapFullscreen)
    else if key == k.linuxArrowLeft || key == k.winArrowLeft then NextChannel
    else if key == k.linuxArrowRight || key == secondArrowRight then PreviousChannel
    else if Code('1') <= key <= Code('0') + KingChain.ChannelCount then SelectChannel(key - Code('0'))
    else if key == Code('c') then Edit(AddIgnorePoint)
    else if key == Code('v') then Edit(CommitIgnoreContour)
    else if key == Code('b') then Edit(ClearIgnoreContours)
    else if key == Code('d') || key == k.enter then Toggle(AlarmPixels)
    else if key == Code('z') then Edit(ClearAlarmPixels)
    else if key == Code('x') then Edit(AddAlarmPixel)
    else NoCommand
  }

  /** OpenCV's usual codes of the GTK and Win32 back ends, for illustration. */
  const ExampleCodes: KeyCodes := KeyCodes(82, 2490368, 84, 2621440, 81, 2424832, 83, 2555904,
                                           85, 2162688, 86, 2228224, 8, 13)

  /** The two versions agree on every key but the two mistyped ones. */
  lemma KeyCommandAgrees(key: int, k: KeyCodes)
    requires key != k.winArrowRight && key != k.winPageDown
    ensures KeyCommand(key, k) == KeyCommandAsWritten(key, k)
  {
  }

  /** As written, KEY_WIN_ARROW_RIGHT and KEY_WIN_PAGE_DOWN do nothing when
      their codes differ from every other key's, as with these codes; the
      corrected chain gives them their commands. */
  lemma WindowsKeysDeadAsWritten()
    ensures KeyCommandAsWritten(ExampleCodes.winArrowRight, ExampleCodes) == NoCommand
    ensures KeyCommandAsWritten(ExampleCodes.winPageDown, ExampleCodes) == NoCommand
    ensures KeyCommand(ExampleCodes.winArrowRight, ExampleCodes) == PreviousChannel
    ensures KeyCommand(ExampleCodes.winPageDown, ExampleCodes) == Toggle(Minimap)
  {
  }

  /** The detector's motion flags. */
  datatype MotionFlags = MotionFlags(enabled: bool, detected: bool, detectedMinMs: bool, linger: bool)

  /** The on/off switches of the display. */
  datatype Switches = Switches(zoomLargest: bool, info: bool, minimap: bool, fullscreenChannel: bool,
                               tour: bool, minimapFullscreen: bool, alarmPixels: bool)

  /** The current channel, the king chain and the layout-changed flag. */
  datatype Channels = Channels(current: int, kingChain: seq<int>, layoutChanged: bool)

  /** The ignore contour being drawn, the committed ones, the alarm pixels and
      the last mouse position. */
  datatype Marks = Marks(ignoreContour: seq<Point>, ignoreContours: seq<seq<Point>>,
                         alarmPixels: seq<Point>, mousePos: Point)

  /** The part of the detector the keys act on. */
  datatype UiState = UiState(running: bool, motion: MotionFlags, displayMode: int, switches: Switches,
                             channels: Channels, marks: Marks)

  ghost predicate ValidChannels(c: Channels)
  {
    1 <= c.current <= KingChain.ChannelCount && KingChain.IsChain(c.kingChain)
  }

  ghost predicate Valid(s: UiState)
  {
    0 <= s.displayMode <= 4 && ValidChannels(s.channels)
  }

  function Flip(w: Switches, f: Switch): (w': Switches)
  {
    match f
    case ZoomLargest => w.(zoomLargest := !w.zoomLargest)
    case Info => w.(info := !w.info)
    case Minimap => w.(minimap := !w.minimap)
    case FullscreenChannel => w.(fullscreenChannel := !w.fullscreenChannel)
    case Tour => w.(tour := !w.tour)
    case MinimapFullscreen => w.(minimapFullscreen := !w.minimapFullscreen)
    case AlarmPixels => w.(alarmPixels := !w.alarmPixels)
  }

  /** Each switch is an involution, and flips only its own flag. */
  lemma FlipIsInvolution(w: Switches, f: Switch)
    ensures Flip(Flip(w, f), f) == w
    ensures Flip(w, f) != w
  {
  }

  /** change_channel: mark the layout changed, move ch to the chain's head
      and make it current. */
  function ChangeChannel(c: Channels, ch: int): (c': Channels)
    ensures c'.current == ch && c'.layoutChanged && |c'.kingChain| == |c.kingChain|
    ensures |c.kingChain| > 0 ==> c'.kingChain[0] == ch
  {
    Channels(ch, KingChain.MoveToFront(c.kingChain, ch), true)
  }

  /** On a valid chain, change_channel to any of the eight keeps it valid. */
  lemma ChangeChannelKeepsValid(c: Channels, ch: int)
    requires ValidChannels(c) && 1 <= ch <= KingChain.ChannelCount
    ensures ValidChannels(ChangeChannel(c, ch))
    ensures ChangeChannel(c, ch).kingChain == [ch] + KingChain.Without(c.kingChain, ch)
  {
    KingChain.MoveToFrontKeepsChain(c.kingChain, ch);
  }

  /** The channel the left arrow moves to: the next one, 8 wrapping to 1. */
  function NextOf(ch: int): (n: int)
    ensures 1 <= ch <= KingChain.ChannelCount ==> 1 <= n <= KingChain.ChannelCount
  {
    if ch + 1 > KingChain.ChannelCount then 1 else ch + 1
  }

  /** The channel the right arrow moves to: the previous one, 1 wrapping to 8. */
  function PreviousOf(ch: int): (p: int)
    ensures 1 <= ch <= KingChain.ChannelCount ==> 1 <= p <= KingChain.ChannelCount
  {
    if ch - 1 < 1 then KingChain.ChannelCount else ch - 1
  }

  /** The two arrows undo each other on the channels 1..8. */
  lemma ArrowsInverse(ch: int)
    requires 1 <= ch <= KingChain.ChannelCount
    ensures PreviousOf(NextOf(ch)) == ch && NextOf(PreviousOf(ch)) == ch
  {
  }

  /** The ignore-contour and alarm-pixel edits; a mouse position at the
      origin counts as no position. */
  function EditMarks(m: Marks, e: Mark): Marks
  {
    match e
    case AddIgnorePoint =>
      if m.mousePos != Point(0, 0) then m.(ignoreContour := m.ignoreContour + [m.mousePos]) else m
    case CommitIgnoreContour =>
      if m.ignoreContour != [] then m.(ignoreContours := m.ignoreContours + [m.ignoreContour], ignoreContour := [])
      else m
    case ClearIgnoreContours => m.(ignoreContours := [], ignoreContour := [])
    case ClearAlarmPixels => m.(alarmPixels := [])
    case AddAlarmPixel =>
      if m.mousePos != Point(0, 0) then m.(alarmPixels := m.alarmPixels + [m.mousePos]) else m
  }

  /** What a command does to the state. */
  function Apply(s: UiState, c: Command): (r: UiState)
    ensures !c.Quit? ==> r.running == s.running
    ensures !c.Edit? ==> r.marks == s.marks
    ensures !(c.Toggle? || c.Reset?) ==> r.switches == s.switches
    ensures !(c.SetDisplayMode? || c.DisplayModeUp? || c.DisplayModeDown?) ==> r.displayMode == s.displayMode
    ensures !(c.Reset? || c.NextChannel? || c.PreviousChannel? || c.SelectChannel?) ==> r.channels == s.channels
    ensures !(c.ToggleMotion? || c.Reset?) ==> r.motion == s.motion
  {
    match c
    case Quit => s.(running := false)
    case ToggleMotion =>
      if s.motion.enabled then s.(motion := MotionFlags(false, false, false, false))
      else s.(motion := s.motion.(enabled := true))
    case Toggle(f) => s.(switches := Flip(s.switches, f))
    case SetDisplayMode(m) => s.(displayMode := m)
    case DisplayModeUp => s.(displayMode := if s.displayMode + 1 > 4 then 4 else s.displayMode + 1)
    case DisplayModeDown => s.(displayMode := if s.displayMode - 1 < 0 then 0 else s.displayMode - 1)
    case Reset =>
      s.(channels := s.channels.(current := 1, kingChain := InitialChain),
         motion := s.motion.(detected := false, enabled := EnableMotion),
         switches := s.switches.(info := EnableInfo, minimap := EnableMinimap,
                                 fullscreenChannel := EnableFullscreenChannel, tour := EnableTour))
    case NextChannel => s.(channels := ChangeChannel(s.channels, NextOf(s.channels.current)))
    case PreviousChannel => s.(channels := ChangeChannel(s.channels, PreviousOf(s.channels.current)))
    case SelectChannel(ch) => s.(channels := ChangeChannel(s.channels, ch))
    case Edit(e) => s.(marks := EditMarks(s.marks, e))
    case NoCommand => s
  }

  lemma InitialChainIsChain()
    ensures KingChain.IsChain(InitialChain)
  {
  }

  /** Every key keeps the display mode in 0..4, the channel in 1..8 and the
      chain a permutation of the channels, provided a set mode is one of the
      five and a selected channel one of the eight, as KeyCommand ensures. */
  lemma ApplyPreservesValid(s: UiState, c: Command)
    requires Valid(s)
    requires c.SetDisplayMode? ==> 0 <= c.mode <= 4
    requires c.SelectChannel? ==> 1 <= c.ch <= KingChain.ChannelCount
    ensures Valid(Apply(s, c))
  {
    match c
    case NextChannel => ChangeChannelKeepsValid(s.channels, NextOf(s.channels.current));
    case PreviousChannel => ChangeChannelKeepsValid(s.channels, PreviousOf(s.channels.current));
    case SelectChannel(ch) => ChangeChannelKeepsValid(s.channels, ch);
    case Reset => InitialChainIsChain();
    case _ =>
  }

  /** Switch keys are involutions: pressing one twice restores the state. */
  lemma TogglesAreInvolutions(s: UiState, f: Switch)
    ensures Apply(Apply(s, Toggle(f)), Toggle(f)) == s
  {
    FlipIsInvolution(s.switches, f);
  }

  /** Switching motion off clears every motion flag; switching it on changes
      nothing else. */
  lemma MotionOffClearsFlags(s: UiState)
    ensures var s' := Apply(s, ToggleMotion);
      s'.motion.enabled == !s.motion.enabled
      && (s.motion.enabled ==> !s'.motion.detected && !s'.motion.detectedMinMs && !s'.motion.linger)
      && (!s.motion.enabled ==> s' == s.(motion := s.motion.(enabled := true)))
  {
  }

  /** The left arrow steps to the next channel, wrapping 8 to 1, keeps the
      state valid, and the right arrow then returns to the channel before. */
  lemma ArrowsCycle(s: UiState)
    requires Valid(s)
    ensures var s' := Apply(s, NextChannel);
      && s'.channels.current == (if s.channels.current == 8 then 1 else s.channels.current + 1)
      && Valid(s')
      && Apply(s', PreviousChannel).channels.current == s.channels.current
  {
    ApplyPreservesValid(s, NextChannel);
    ArrowsInverse(s.channels.current);
  }

  /** Up and down stay within the five modes. */
  lemma ModeStepsClamp(s: UiState)
    requires 0 <= s.displayMode <= 4
    ensures 0 <= Apply(s, DisplayModeUp).displayMode <= 4
    ensures 0 <= Apply(s, DisplayModeDown).displayMode <= 4
  {
  }

  /** Down undoes up below the top mode. */
  lemma ModeDownUndoesUp(s: UiState)
    requires 0 <= s.displayMode < 4
    ensures Apply(Apply(s, DisplayModeUp), DisplayModeDown).displayMode == s.displayMode
  {
  }

  /** Up at the top mode changes nothing. */
  lemma ModeUpAtTopIsNoOp(s: UiState)
    requires s.displayMode == 4
    ensures Apply(s, DisplayModeUp) == s
  {
  }

  /** Reset restores channel 1 and the canonical chain, keeps the state
      valid, and a second reset changes nothing. */
  lemma ResetIdempotent(s: UiState)
    requires Valid(s)
    ensures Apply(s, Reset).channels.current == 1
    ensures Apply(s, Reset).channels.kingChain == InitialChain
    ensures Valid(Apply(s, Reset))
    ensures Apply(Apply(s, Reset), Reset) == Apply(s, Reset)
  {
    ApplyPreservesValid(s, Reset);
  }

  /** Points flattened in the order they were added. */
  function Flatten(cs: seq<seq<Point>>): seq<Point>
  {
    if |cs| == 0 then [] else Flatten(cs[..|cs| - 1]) + cs[|cs| - 1]
  }

  /** Committing the contour in progress loses no point: the committed
      contours followed by the one in progress hold the same points, and no
      empty contour is ever committed. */
  lemma CommitKeepsPoints(m: Marks)
    ensures var m' := EditMarks(m, CommitIgnoreContour);
      && Flatten(m'.ignoreContours) + m'.ignoreContour == Flatten(m.ignoreContours) + m.ignoreContour
      && m'.ignoreContour == []
      && ((forall k :: 0 <= k < |m.ignoreContours| ==> m.ignoreContours[k] != []) ==>
          (forall k :: 0 <= k < |m'.ignoreContours| ==> m'.ignoreContours[k] != []))
  {
    var m' := EditMarks(m, CommitIgnoreContour);
    if m.ignoreContour != [] {
      assert m'.ignoreContours[..|m'.ignoreContours| - 1] == m.ignoreContours;
    }
  }
}
