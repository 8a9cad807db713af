/** MotionDetectorParams: the values the command-line parser hands over,
    copied member by member, then adjusted by the ignore/alarm editing mode,
    screen-size detection, the low-CPU switches and the automatic sleeps. */
module Params {
  import opened Common

  /** What program->get returns for each option. */
  datatype Arguments = Arguments(
    ip: string, username: string, password: string, subtype: int,
    width: int, height: int, fullscreen: bool, displayMode: int,
    area: int, rarea: int, motionDetectMinMs: int, currentChannel: int,
    enableMotion: int, enableMotionZoomLargest: int,
    sleepMsDraw: int, sleepMsMotion: int, enableTour: int, tourMs: int,
    enableInfo: int, enableInfoLine: int, enableInfoRect: int,
    enableMinimap: int, enableMinimapFullscreen: int, enableFullscreenChannel: int,
    enableIgnoreContours: int, enableAlarmPixels: int,
    ignoreContours: string, ignoreContoursFile: string,
    alarmPixels: string, alarmPixelsFile: string,
    focusChannel: int, focusChannelArea: string, focusChannelSound: int,
    lowCpu: int, lowCpuHqMotion: int, lowCpuHqMotionDual: int,
    ignoreAlarmMake: bool, detect: bool)

  /** The members of the struct, including the two automatic-sleep flags. */
  datatype MotionDetectorParams = MotionDetectorParams(
    ip: string, username: string, password: string, subtype: int,
    width: int, height: int, fullscreen: bool, displayMode: int,
    area: int, rarea: int, motionDetectMinMs: int, currentChannel: int,
    enableMotion: int, enableMotionZoomLargest: int,
    sleepMsDraw: int, sleepMsMotion: int, enableTour: int, tourMs: int,
    enableInfo: int, enableInfoLine: int, enableInfoRect: int,
    enableMinimap: int, enableMinimapFullscreen: int, enableFullscreenChannel: int,
    enableIgnoreContours: int, enableAlarmPixels: int,
    ignoreContours: string, ignoreContoursFile: string,
    alarmPixels: string, alarmPixelsFile: string,
    focusChannel: int, focusChannelArea: string, focusChannelSound: int,
    lowCpu: int, lowCpuHqMotion: int, lowCpuHqMotionDual: int,
    sleepMsDrawAuto: bool, sleepMsMotionAuto: bool)

  /** The member initialiser list: every member takes its option's value;
      the automatic-sleep flags start false. */
  function Initialised(a: Arguments): (p: MotionDetectorParams)
    ensures p.width == a.width && p.height == a.height && p.lowCpu == a.lowCpu
    ensures !p.sleepMsDrawAuto && !p.sleepMsMotionAuto
  {
    MotionDetectorParams(
      a.ip, a.username, a.password, a.subtype,
      a.width, a.height, a.fullscreen, a.displayMode,
      a.area, a.rarea, a.motionDetectMinMs, a.currentChannel,
      a.enableMotion, a.enableMotionZoomLargest,
      a.sleepMsDraw, a.sleepMsMotion, a.enableTour, a.tourMs,
      a.enableInfo, a.enableInfoLine, a.enableInfoRect,
      a.enableMinimap, a.enableMinimapFullscreen, a.enableFullscreenChannel,
      a.enableIgnoreContours, a.enableAlarmPixels,
      a.ignoreContours, a.ignoreContoursFile,
      a.alarmPixels, a.alarmPixelsFile,
      a.focusChannel, a.focusChannelArea, a.focusChannelSound,
      a.lowCpu, a.lowCpuHqMotion, a.lowCpuHqMotionDual,
      false, false)
  }

  /** The switches the constructor body makes consistent: a high-quality
      motion mode runs in low-CPU mode, the dual mode in both, and a sleep of
      -1 is automatic. */
  predicate Consistent(p: MotionDetectorParams)
  {
    (p.lowCpuHqMotion != 0 ==> p.lowCpu == 1)
    && (p.lowCpuHqMotionDual != 0 ==> p.lowCpu == 1 && p.lowCpuHqMotion == 1)
    && (p.sleepMsDraw == -1 ==> p.sleepMsDrawAuto)
    && (p.sleepMsMotion == -1 ==> p.sleepMsMotionAuto)
  }

  /** The constructor. detected is the (width, height) that
      detect_screen_size returns for the chosen resolution; it is read only
      when detection is asked for. */
  method Construct(a: Arguments, detected: (int, int)) returns (p: MotionDetectorParams)
    ensures Consistent(p)
    // Screen-size detection runs after the editing mode, so its size wins.
    ensures a.detect ==> p.width == detected.0 && p.height == detected.1
    ensures !a.detect && a.ignoreAlarmMake ==> p.width == W0 && p.height == H0
    ensures !a.detect && !a.ignoreAlarmMake ==> p.width == a.width && p.height == a.height
    // The editing mode shows the minimap full screen with both overlays on.
    ensures a.ignoreAlarmMake ==>
      p.enableMinimapFullscreen == 1 && p.enableIgnoreContours == 1 && p.enableAlarmPixels == 1
    ensures !a.ignoreAlarmMake ==>
      p.enableMinimapFullscreen == a.enableMinimapFullscreen && p.enableIgnoreContours == a.enableIgnoreContours
      && p.enableAlarmPixels == a.enableAlarmPixels
    // The low-CPU switches are only ever raised, and only by the two modes.
    ensures p.lowCpu == (if a.lowCpuHqMotion != 0 || a.lowCpuHqMotionDual != 0 then 1 else a.lowCpu)
    ensures p.lowCpuHqMotion == (if a.lowCpuHqMotionDual != 0 then 1 else a.lowCpuHqMotion)
    ensures p.sleepMsDrawAuto <==> a.sleepMsDraw == -1
    ensures p.sleepMsMotionAuto <==> a.sleepMsMotion == -1
    // Every other member is the option's value.
    ensures p.(width := a.width, height := a.height, enableMinimapFullscreen := a.enableMinimapFullscreen,
               enableIgnoreContours := a.enableIgnoreContours, enableAlarmPixels := a.enableAlarmPixels,
               lowCpu := a.lowCpu, lowCpuHqMotion := a.lowCpuHqMotion,
               sleepMsDrawAuto := false, sleepMsMotionAuto := false)
      == Initialised(a)
  {
    p := Initialised(a);
    if a.ignoreAlarmMake {
      p := p.(width := W0, height := H0);
      p := p.(enableMinimapFullscreen := 1, enableIgnoreContours := 1, enableAlarmPixels := 1);
    }
    if a.detect {
      p := p.(width := detected.0, height := detected.1);
    }
    if p.lowCpuHqMotion != 0 {
      p := p.(lowCpu := 1);
    }
    if p.lowCpuHqMotionDual != 0 {
      p := p.(lowCpu := 1, lowCpuHqMotion := 1);
    }
    if p.sleepMsDraw == -1 {
      p := p.(sleepMsDrawAuto := true);
    }
    if p.sleepMsMotion == -1 {
      p := p.(sleepMsMotionAuto := true);
    }
  }
}
