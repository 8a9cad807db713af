# Motion-following camera kiosk, modelled in Dafny

The kiosk watches a Dahua recorder. A low-resolution detection stream
(channel 0, 704x576) runs through a background subtractor. The largest
moving region picks which high-definition camera fills the screen, or
which region a zoom window follows. The repository holds five Python
prototypes (`dcm_dminimap_fs.py`, `test1_zoom.py`, `test1_both.py`,
`test2.py`, `test2_noffmpeg.py`) and three generations of the C++
detector:

- the single-file `main.cpp`;
- the first class in `src/motion_detector.cpp`;
- the current class, split over `src/motion_detector_*.cpp`.

This project models the integer logic under the OpenCV calls. The
background subtractor and `findContours` are opaque. Their output is a
sequence of `Contour(area, rect)` values (`contourArea` as a `real`,
`boundingRect` as an integer `Rect`). Clock readings are integer
milliseconds passed in as inputs.

The modules follow the program's structure:

- `common.dfy` (`Common`): rectangles, points, contours, `W_0 = 704`,
  `H_0 = 576`, the 704x384 crop, and C's truncating `/` and `%`.
- `selection.dfy` (`Selection`): the "first strictly largest" selection
  loop every detector runs, with its characterisation.
- `zoom.dfy`, `minimap.dfy`: the zoom window and minimap placement of
  the Python prototypes. `ZoomTracker` is a class whose methods are the
  per-frame loop bodies.
- `channel_map.dfy`: motion position to channel (3x2 and 3x3 grids),
  the low-CPU tiles and the focus-area clamp.
- `arbiter.dfy`: the per-tick channel polling of `test2.py` and
  `test2_noffmpeg.py`.
- `buffers.dfy`: the lock-free ring buffer (an `array` with head and
  tail) and the double buffers. `frame_queue.dfy`: `main.cpp`'s bounded
  frame deque.
- `dwell.dfy`: the milliseconds-plus-linger timers of
  `src/motion_detector_motion.cpp`, with lemmas about whole runs of ticks.
- `frame_detector.dfy`: the first C++ class (tour counter, `std::list`
  move-to-front, frame-count dwell, KING and TOP layouts).
- `chain.dfy` (`KingChain`), `keys.dfy`, `layouts.dfy`, `detector.dfy`:
  the current C++ class. This covers the king chain, the key state
  machine, the four grid layouts, and the `MotionDetector` class with its
  detection pass, timers, tour, paints and draw-loop iteration.
- `decimal.dfy`, `parsers.dfy`: `std::stoi`/`std::stol`/`operator<<` on
  integers, and the focus-area, ignore-contour and alarm-pixel text
  formats with their printers.
- `rtsp.dfy`: the stream URL of `FrameReader::constructRtspUrl`. It uses
  the `rtsp://` scheme of RFC 2326 section 3.2, with the userinfo of
  RFC 3986 section 3.2.1, and comes with a reader that recovers the
  fields.
- `params.dfy`: the `MotionDetectorParams` constructor's normalisation.
- `legacy.dfy`: `main.cpp`'s `MotionDetector::start` loop.

Two behaviours of the code are worth stating up front:

- The zoom origin is only raised to 0, so the window can overrun the
  right or bottom edge (`Zoom.ZoomWindowCanOverrun`).
- `get_minimap_position` does not clamp (`Minimap.NonNegativeIffFits`).

## Model

| member | source | states |
|---|---|---|
| Selection.Pick | main.cpp:252-263 | the index the selection loop keeps is a qualifying candidate scoring above 0 that beats every earlier candidate and is not beaten by any later one; None exactly when no candidate can displace the initial maximum |
| Selection.PickIsUnique | main.cpp:252-263 | the first-strict-maximum characterisation determines the pick: any index satisfying it is the one picked |
| Selection.PickSomeIff | main.cpp:252-263 | a region is found iff some candidate qualifies with a positive score |
| Selection.SelectLargest | main.cpp:252-263 | the `max_area` loop returns exactly the characterised pick |
| Selection.AreaAbove | test1_zoom.py:36-44 | the prototypes' candidates: a contour qualifies iff its area is strictly above the threshold, and is scored by its area |
| Selection.RectAreaAtLeast | src/motion_detector_motion.cpp:140-156 | the C++ candidates: a contour qualifies iff contourArea >= min area and its rectangle's area >= min rectangle area, and is scored by the rectangle's area |
| Selection.BestRect | main.cpp:252-263 | the loop yields a rectangle iff the pick exists, and it is the picked contour's bounding rectangle |
| Selection.TwoComponentsExample | dcm_dminimap_fs.py:85-92 | areas 30 and 80 at threshold 20 select the second; at threshold 100 nothing is selected |
| Zoom.ZoomRectFor | dcm_dminimap_fs.py:94-98 | the window is always 235x192 and its centre is the region's floor centre, except that an origin below 0 is raised to 0 |
| Zoom.Track | test1_zoom.py:36-52 | zoom becomes active iff some contour is above the threshold and above 0; when inactive, the window is kept; when active, it follows the first strictly largest contour |
| Zoom.TrackPreservesWellFormed | test1_zoom.py:15-50 | the initial state (inactive, (0,0,235,192)) is well formed, and every update keeps the window 235x192 with a non-negative origin |
| Zoom.TrackForgetsPreviousWindow | test1_zoom.py:46-50 | an active window depends on the frame alone, and feeding the same frame twice gives the same state |
| Zoom.CropWindow | test1_zoom.py:56-57 | numpy's slice of a 704x384 frame is min(235, 704-x) wide and min(192, 384-y) tall, and empty past the edge |
| Zoom.CropNeverEmpty | test1_zoom.py:46-57 | for a region inside the crop, the zoom crop is never empty |
| Zoom.ZoomWindowCanOverrun | test1_zoom.py:46-57 | a region at the right edge gives a window that overruns the frame, and the slice is only 119 wide |
| Zoom.ZoomTracker.constructor | test1_zoom.py:15-16 | zoom starts inactive with window (0,0,235,192) |
| Zoom.ZoomTracker.Update | test1_zoom.py:36-52 | one frame's selection and window update is exactly `Track` |
| Zoom.ZoomTracker.TickZoom | test1_zoom.py:36-60 | the frame shows the zoom crop iff zoom is active, and the whole frame otherwise |
| Zoom.ZoomTracker.TickBoth | test1_both.py:35-79 | the output is the blended zoom view exactly when zoom is active, and the plain frame otherwise |
| Zoom.ZoomTracker.TickMinimap | dcm_dminimap_fs.py:85-159 | the zoom view with the minimap in the corner opposite the zoom centre exactly when active, and the plain frame otherwise |
| Minimap.CentreBeforeMidlineIff | dcm_dminimap_fs.py:20-29 | the float test `norm < 0.5` is equivalent to the integer test 2z + zw < f |
| Minimap.GetMinimapPosition | dcm_dminimap_fs.py:13-48 | the origin is one of the four corners, on the right iff the zoom centre is left of the midline and at the bottom iff it is above the midline |
| Minimap.MidlineTakesElse | dcm_dminimap_fs.py:29-46 | a centre exactly on a midline puts the minimap at margin on that axis |
| Minimap.AxesIndependent | dcm_dminimap_fs.py:13-48 | x depends only on the horizontal inputs and y only on the vertical ones |
| Minimap.OppositeCorner | dcm_dminimap_fs.py:27-46 | whenever the two corners differ, the minimap and the zoom centre are on opposite sides of each midline |
| Minimap.NonNegativeIffFits | dcm_dminimap_fs.py:32-36 | there is no clamping: the origin is non-negative iff the chosen corner leaves room for the minimap and margin |
| Minimap.ScaleToDisplay | dcm_dminimap_fs.py:144-145 | `int(m * display / crop)` is the floor quotient for non-negative inputs, bracketed by the crop size |
| Minimap.DisplayMinimapPosition | dcm_dminimap_fs.py:137-145 | on the 1920x1080 display the minimap lands at x 27 or 1063 and y 28 or 590, and lies entirely on screen |
| Minimap.FixedMinimapPosition | main.cpp:181-184 | `getMinimapPosition` returns (margin, margin) whatever the sizes |
| ChannelMap.Channel3x2 | main.cpp:266-273 | for a corner inside the 704x384 crop the channel is in 1..6: its column is the third of the width x falls in, and the lower half adds 3 |
| ChannelMap.Channel3x2Onto | main.cpp:266-273 | every channel 1..6 is chosen by some in-crop corner |
| ChannelMap.Channel3x3 | src/motion_detector_motion.cpp:176-189 | for a corner inside 704x576 the channel is in 1..8 |
| ChannelMap.Channel3x3Cells | src/motion_detector_motion.cpp:176-189 | row 0 gives 1+col, row 1 gives 4+col, row 2 gives 7 in column 0 and 8 otherwise |
| ChannelMap.LowCpuTile | src/motion_detector_utils.cpp:14-24 | the tile of a channel is 234x192 and, for channels 1..8, lies inside the 704x576 frame |
| ChannelMap.LowCpuTilesDisjoint | src/motion_detector_utils.cpp:14-24 | tiles of different channels do not overlap |
| ChannelMap.TileCentreMapsBack | src/motion_detector_utils.cpp:14-24 | the centre of a channel's tile maps back to that channel through the 3x3 grid |
| ChannelMap.TileAndGridDisagreeAtEdge | src/motion_detector_utils.cpp:14-24 | the tile grid uses width 234 while the channel grid splits at 704/3, so x = 234 starts tile 2 yet still maps to channel 1 |
| ChannelMap.RegionOffset | src/motion_detector_draw_paint.cpp:158-170 | the offset removed before drawing is the corner of the channel's tile |
| ChannelMap.ClampFocus | src/motion_detector_motion.cpp:48-64 | the cropped area has its origin raised to 0 and its size cut to the frame; it is used iff both sizes stay positive, and then lies inside the frame |
| ChannelMap.ClampFocusKeepsInnerArea | src/motion_detector_motion.cpp:50-58 | an area already inside the frame is used unchanged |
| Arbiter.HasContourAbove | test2.py:52-56 | the inner loop reports a hit iff some contour area is strictly above the threshold |
| Arbiter.FirstQualifying | test2.py:42-59 | the winner is the lowest channel in range with a qualifying read; no earlier channel qualifies; None iff none does |
| Arbiter.AppliedAfter | test2.py:43-48 | exactly the channels polled up to the winner with a successful read have their frame applied to their own model |
| Arbiter.PollChannels | test2_noffmpeg.py:29-46 | the polling loop returns the first qualifying channel, stops after it, skips short reads without touching their models, and polls in ascending order |
| Arbiter.FfmpegArbiter.constructor | test2.py:30-31 | the active channel starts at 0 with empty models |
| Arbiter.FfmpegArbiter.Tick | test2.py:38-62 | channels 1..6 are polled; the active channel becomes the winner or 0, and changes (restarting the player) iff it differs |
| Arbiter.FfmpegNeverAppliesChannelZero | test2.py:42 | channel 0's model is never touched by `test2.py` |
| Arbiter.CaptureArbiter.constructor | test2_noffmpeg.py:20 | every channel's model starts empty |
| Arbiter.CaptureArbiter.Tick | test2_noffmpeg.py:26-51 | channels 0..6 are polled; the winner's frame is shown, otherwise the fallback read from channel 0, or nothing when that read fails |
| Arbiter.LowestQualifyingWins | test2.py:42-59 | when two channels qualify, the higher one never wins |
| Arbiter.LaterReadsIrrelevant | test2.py:58-59 | reads of channels after the winner do not affect the outcome |
| Buffers.Next | src/buffers.hpp:19 | the index after i around the ring, wrapping to 0 |
| Buffers.Window | src/buffers.hpp:16-38 | the occupied slots from tail to head, never more than Size-1 of them |
| Buffers.WindowPush | src/buffers.hpp:24-25 | writing the head slot and advancing head appends the item to the contents |
| Buffers.WindowPop | src/buffers.hpp:37-38 | advancing tail removes the oldest item |
| Buffers.LockFreeRingBuffer.Contents | src/buffers.hpp:8-13 | at most Size-1 items are held, and none exactly when head == tail |
| Buffers.LockFreeRingBuffer.constructor | src/buffers.hpp:11-13 | a new ring is empty with head = tail = 0 |
| Buffers.LockFreeRingBuffer.Push | src/buffers.hpp:16-27 | push succeeds iff fewer than Size-1 items are held and then appends; on failure nothing changes |
| Buffers.LockFreeRingBuffer.Pop | src/buffers.hpp:29-40 | pop returns nothing iff head == tail; otherwise it returns the oldest item and removes it |
| Buffers.FifoOrder | src/buffers.hpp:16-40 | two items pushed are popped in the same order |
| Buffers.DoubleBuffer.Empty | src/buffers.hpp:108 | the default double buffer starts with slot 0 active |
| Buffers.DoubleBuffer.constructor | src/buffers.hpp:110-114 | a buffer built with initial data returns it before any update |
| Buffers.DoubleBuffer.Update | src/buffers.hpp:116-121 | update flips the active index and publishes the new value; the previous value stays in the other slot |
| Buffers.DoubleBuffer.Get | src/buffers.hpp:123-127 | get returns the published value and changes nothing |
| Buffers.UpdateTwice | src/buffers.hpp:116-127 | two updates restore the active index and get returns the latest value |
| FrameQueue.LastN | main.cpp:124-129 | the last n frames, or all of them when fewer |
| FrameQueue.FrameReaderQueue.constructor | main.cpp:68 | the queue starts empty |
| FrameQueue.FrameReaderQueue.Push | main.cpp:124-129 | a full queue drops its oldest frame first, so at most two frames are held and the newest is last |
| FrameQueue.FrameReaderQueue.GetLatestFrame | main.cpp:139-146 | returns the most recently pushed frame, or the empty picture for an empty queue, and empties the queue |
| FrameQueue.PushAllKeepsNewest | main.cpp:124-129 | after any run of grabs the queue holds the last two frames of everything pushed |
| FrameQueue.LatestIsLastPushed | main.cpp:139-146 | after a run of grabs, getLatestFrame returns the last frame grabbed |
| Dwell.Step | src/motion_detector_motion.cpp:158-213 | a tick without motion clears start_set and min_ms; with motion, the start is kept or set to now; min_ms iff motion has lasted motion_detect_min_ms; every min_ms tick sets linger at now |
| Dwell.Detect | src/motion_detector_motion.cpp:158-206 | first half of a tick: start_set follows the tick; the start is kept or set to now; min_ms iff motion has lasted the minimum; a min-ms tick raises the linger and restarts its clock, any other tick leaves the linger alone |
| Dwell.Expire | src/motion_detector_motion.cpp:208-213 | second half: the linger survives iff it was on and is younger than 3000 ms; nothing else changes |
| Dwell.LastMinMs | src/motion_detector_motion.cpp:195-213 | the last min-ms tick so far, or None when there was none |
| Dwell.RunExplained | src/motion_detector_motion.cpp:158-213 | after any run of ticks, start is the first tick of the current motion streak, min_ms holds iff that streak has lasted the minimum, and linger tracks the last min-ms tick |
| Dwell.MinMsMeansSustainedMotion | src/motion_detector_motion.cpp:166-194 | min_ms after a run means motion was seen on every tick for at least motion_detect_min_ms |
| Dwell.NoMotionResets | src/motion_detector_motion.cpp:203-206 | a tick without motion clears start_set and min_ms and never sets linger |
| Dwell.LingerExpires | src/motion_detector_motion.cpp:195-213 | linger is off once MOTION_DETECT_LINGER_MS has passed since the last min-ms tick, and off when there was none |
| FrameDetector.TourNext | src/motion_detector.cpp:46 | the tour moves to current % 6 + 1, which stays in 1..6 and wraps 6 to 1 |
| FrameDetector.TourCycles | src/motion_detector.cpp:41-48 | after any number of advances from channel c the tour is at (c - 1 + steps) mod 6 + 1: ascending order, wrapping from 6 to 1, back at c after every six |
| FrameDetector.RemoveFirst | src/motion_detector.cpp:68-70 | `erase(find(v))` leaves the list unchanged when v is absent and removes one element otherwise |
| FrameDetector.RemoveFirstMultiset | src/motion_detector.cpp:68-70 | removing the first v takes exactly one v out of the list's multiset |
| FrameDetector.RemoveFirstAt | src/motion_detector.cpp:68-70 | the element removed is the first occurrence of v, and the others keep their order |
| FrameDetector.MoveToFront | src/motion_detector.cpp:63-75 | the length is kept; v is first when present; a list without v is unchanged |
| FrameDetector.MoveToFrontFacts | src/motion_detector.cpp:63-75 | move-to-front is a permutation, puts v first when present, keeps the other elements in order, and is idempotent |
| FrameDetector.DwellStep | src/motion_detector.cpp:107-117 | the counter grows on motion and resets to 0 without it; min_frames iff the counter reaches the minimum |
| FrameDetector.DwellCountsStreak | src/motion_detector.cpp:107-117 | after any run the counter is the length of the current motion streak |
| FrameDetector.SwitchNeedsEarlierStreak | src/motion_detector.cpp:108-117 | a switch, which tests the previous tick's min_frames, needs a streak one tick longer than the minimum |
| FrameDetector.KingCell | src/motion_detector.cpp:245-270 | the KING grid has exactly six cells, for indices 1..6 |
| FrameDetector.KingCellsDisjointInside | src/motion_detector.cpp:245-270 | the six KING cells lie on the canvas and do not overlap |
| FrameDetector.WithFrames | src/motion_detector.cpp:240-242 | the channels kept are those of the list with a non-empty frame |
| FrameDetector.KingTiles | src/motion_detector.cpp:239-270 | at most six pictures are placed, one per channel with a frame |
| FrameDetector.PaintKing | src/motion_detector.cpp:230-275 | the tiles painted are the KING cells filled, in list order, by the channels that have a frame, so an empty frame uses no cell |
| FrameDetector.KingTilesSound | src/motion_detector.cpp:236-271 | every KING picture lies on the canvas and no two overlap |
| FrameDetector.TopOrder | src/motion_detector.cpp:277-290 | the TOP list is the current channel, then the others of 1..6 in ascending order |
| FrameDetector.TopOrderPermutes | src/motion_detector.cpp:277-290 | for a current channel in 1..6 the TOP list is a permutation of 1..6 |
| FrameDetector.FrameMotionDetector.constructor | src/motion_detector.cpp:17-24 | channel 1, zeroed counters, motion enabled, and the area order 1..6 |
| FrameDetector.FrameMotionDetector.DoTourLogic | src/motion_detector.cpp:41-48 | the frame index counts up, and on reaching TOUR_FRAME_COUNT resets to 0 and advances the channel to current % 6 + 1 |
| FrameDetector.FrameMotionDetector.MoveChannelToFront | src/motion_detector.cpp:63-75 | the member list becomes its move-to-front |
| FrameDetector.FrameMotionDetector.DetectLargest | src/motion_detector.cpp:77-120 | motion_detected is raised iff a contour qualifies, which also resets the tour index; the dwell counters take one `DwellStep`; the channel switches to the region's 3x2 cell only when the previous tick had min_frames and the cell differs, and that channel is moved to the front |
| FrameDetector.FrameMotionDetector.DetectMotionTick | src/motion_detector.cpp:327-348 | without motion enabled, a detection frame or a display mode the flag is only cleared and nothing else changes; otherwise motion_detected iff a contour qualifies, which resets the tour index and sets motion_ch to the region's 3x2 cell, the dwell counters take one `DwellStep`, and the channel switches to that cell (moved to the front) only when the previous tick had min_frames and the cell differs |
| KingChain.Without | src/motion_detector_utils.cpp:55-60 | the values other than ch, in order; shorter when ch occurs |
| KingChain.Zeros | src/motion_detector_utils.cpp:51 | a fresh vector of n zeros |
| KingChain.MoveToFront | src/motion_detector_utils.cpp:48-62 | the result has the input's length and starts with ch |
| KingChain.MoveToFrontPresent | src/motion_detector_utils.cpp:48-62 | when ch occurs, the result is ch, then the other values in order, then zero fill for any further copies of ch |
| KingChain.WithoutMultiset | src/motion_detector_utils.cpp:55-60 | exactly the occurrences of ch are dropped |
| KingChain.ChainIsPermutation | src/motion_detector_utils.cpp:48-62 | a valid king chain is exactly a permutation of 1..8 |
| KingChain.ChainShape | src/motion_detector_utils.cpp:48-62 | a chain holds eight distinct channels, each in 1..8 |
| KingChain.ChainMoveIsExact | src/motion_detector_utils.cpp:48-62 | on a chain, ch occurs once, so the move leaves no zero fill and the result is ch followed by the others |
| KingChain.MoveToFrontKeepsChain | src/motion_detector_utils.cpp:30-62 | on a chain, move-to-front keeps a chain, puts ch first, keeps the others in order, and is idempotent |
| KingChain.MoveToFrontLoop | src/motion_detector_utils.cpp:48-62 | the index loop that fills the new vector computes `MoveToFront` |
| Keys.KeyCommand | src/motion_detector_handle_keys.cpp:7-96 | the command a key selects, with the two mistyped Windows codes corrected; display modes stay in 0..4 and digit keys select channels 1..8 |
| Keys.KeyCommandAgrees | src/motion_detector_handle_keys.cpp:7-96 | the corrected and as-written chains agree on every key except the two mistyped Windows codes |
| Keys.KeyCommandAsWritten | src/motion_detector_handle_keys.cpp:7-96 | the chain as written: display modes stay in 0..4, digit keys select channels 1..8, and only the Linux right arrow steps back a channel and only 'o' or the Linux page-down toggle the minimap |
| Keys.Apply | src/motion_detector_handle_keys.cpp:7-96 | each command changes only its own part of the state: only quit stops, only the edit keys change the marks, only toggles and reset change the switches, only the mode keys change the mode, only the channel keys and reset change the channels, only the motion key and reset change the motion flags |
| Keys.WindowsKeysDeadAsWritten | src/motion_detector_handle_keys.cpp:26-46 | as written, the Windows right arrow and page-down keys do nothing |
| Keys.FlipIsInvolution | src/motion_detector_handle_keys.cpp:17-41 | each switch flip is its own inverse and changes the state |
| Keys.ChangeChannel | src/motion_detector_utils.cpp:30-46 | `change_channel` makes ch current, sets layout_changed, and puts ch at the head of the chain |
| Keys.ChangeChannelKeepsValid | src/motion_detector_utils.cpp:30-62 | on a valid chain, changing to any channel 1..8 keeps it a chain with ch first and the others in order |
| Keys.NextOf | src/motion_detector_handle_keys.cpp:43-44 | the next channel stays in 1..8 |
| Keys.PreviousOf | src/motion_detector_handle_keys.cpp:47-48 | the previous channel stays in 1..8 |
| Keys.ArrowsInverse | src/motion_detector_handle_keys.cpp:42-50 | left then right, or right then left, returns to the same channel |
| Keys.ApplyPreservesValid | src/motion_detector_handle_keys.cpp:7-96 | every key keeps the display mode in 0..4, the channel in 1..8 and the king chain a permutation |
| Keys.TogglesAreInvolutions | src/motion_detector_handle_keys.cpp:17-41 | pressing a switch key twice restores the state |
| Keys.MotionOffClearsFlags | src/motion_detector_handle_keys.cpp:9-16 | turning motion off clears detected, min_ms and linger; turning it on changes nothing else |
| Keys.ArrowsCycle | src/motion_detector_handle_keys.cpp:42-50 | the left arrow steps to the next channel, wrapping 8 to 1, keeps the state valid, and the right arrow then returns |
| Keys.ModeStepsClamp | src/motion_detector_handle_keys.cpp:23-24 | up and down keep the display mode in 0..4 |
| Keys.ModeDownUndoesUp | src/motion_detector_handle_keys.cpp:23-24 | below the top mode, down undoes up |
| Keys.ModeUpAtTopIsNoOp | src/motion_detector_handle_keys.cpp:23 | up at mode 4 changes nothing |
| Keys.ResetIdempotent | src/motion_detector_handle_keys.cpp:29-38 | reset gives channel 1 and the chain 1..8, keeps the state valid, and a second reset changes nothing |
| Keys.InitialChainIsChain | src/motion_detector_handle_keys.cpp:31 | the chain the reset writes is a valid chain |
| Keys.CommitKeepsPoints | src/motion_detector_handle_keys.cpp:62-74 | committing the pending contour moves its points into the list, loses none, empties the pending contour, and adds no empty contour |
| Layouts.GridTile | src/motion_detector_draw_paint.cpp:15-19 | a grid tile is w x h |
| Layouts.KingSlot | src/motion_detector_draw_paint.cpp:78-93 | slot 0 spans 3x3 cells at the origin; every other slot is one w x h cell in the right column or the bottom row |
| Layouts.TopSlot | src/motion_detector_draw_paint.cpp:126-143 | the same shape for TOP: slot 0 spans 3x3 cells, every other slot is one cell in the right column or the bottom row |
| Layouts.GridTilesDisjointInside | src/motion_detector_draw_paint.cpp:3-24 | the nine tiles of the W/3 x H/3 grid lie inside the canvas and are pairwise disjoint |
| Layouts.KingSlotsDisjointInside | src/motion_detector_draw_paint.cpp:63-95 | the eight KING slots lie within the canvas and are pairwise disjoint |
| Layouts.TopSlotsDisjointInside | src/motion_detector_draw_paint.cpp:102-144 | the eight TOP slots lie within the canvas and are pairwise disjoint |
| Layouts.TopMirrorsKingBottomRow | src/motion_detector_draw_paint.cpp:126-143 | for every slot 0..7, TOP uses the KING cells: slots 0..3 are the same cells and the bottom row 4..7 is reversed (TOP slot i is KING slot 11 - i) |
| Layouts.OtherChannels | src/motion_detector_draw_paint.cpp:109-114 | active_channels has n-1 entries when current is in 1..n, and n otherwise |
| Layouts.OtherChannelsAscending | src/motion_detector_draw_paint.cpp:109-114 | active_channels is exactly the channels of 1..n other than current, strictly ascending |
| Layouts.OtherChannelIndex | src/motion_detector_draw_paint.cpp:129-131 | slot k >= 1 of TOP shows active_channels[k-1] |
| Layouts.TopOrderIsPermutation | src/motion_detector_draw_paint.cpp:109-131 | the current channel followed by active_channels is a permutation of 1..n |
| Layouts.ActiveChannels | src/motion_detector_draw_paint.cpp:109-114 | the push_back loop builds exactly the other channels in ascending order |
| Layouts.Placements | src/motion_detector_draw_paint.cpp:3-151 | only slots whose channel has a non-empty frame are painted |
| Layouts.PlacementsFromSlots | src/motion_detector_draw_paint.cpp:3-151 | the pictures come from strictly increasing slots, in slot order |
| Layouts.SlotsDisjointInside | src/motion_detector_draw_paint.cpp:3-151 | in every layout the slots lie on the canvas and do not overlap, so the parallel bodies write disjoint tiles |
| Layouts.SlotMotionUnique | src/motion_detector_draw_paint.cpp:3-151 | with a chain of distinct channels, no two slots both carry the motion region |
| Layouts.MotionFreeBefore | src/motion_detector_draw_paint.cpp:3-151 | no picture before the motion slot carries the region |
| Layouts.PaintIsSound | src/motion_detector_draw_paint.cpp:3-151 | every painted picture lies on the canvas, no two overlap, and at most one carries the motion region |
| Detector.NonEmpty | src/motion_detector_motion.cpp:107-114 | the contours kept are all non-empty and no more than before |
| Detector.NonEmptyAppend | src/motion_detector_motion.cpp:107-114 | the cleanup distributes over concatenation |
| Detector.NonEmptyKeepsPoints | src/motion_detector_motion.cpp:107-114 | removing the empty contours loses no point and keeps the order |
| Detector.NonEmptyIdentity | src/motion_detector_motion.cpp:107-114 | a list without empty contours is left unchanged |
| Detector.EraseEmpty | src/motion_detector_motion.cpp:107-114 | the erase loop with its `--i` computes `NonEmpty` |
| Detector.TourStep | src/motion_detector_utils.cpp:64-82 | after a step the tour clock is running, and a channel in 0..8 ends in 1..8 or unchanged |
| Detector.TourStepAdvancesIff | src/motion_detector_utils.cpp:64-82 | the tour channel changes iff tour_ms has elapsed, and then wraps from 8 to 1 with the clock restarted |
| Detector.AdvanceCycles | src/motion_detector_utils.cpp:64-82 | k advances from c reach (c - 1 + k) mod 8 + 1, visiting every channel |
| Detector.Largest | src/motion_detector_motion.cpp:132-156 | a region is found iff some contour passes both area tests with a positive rectangle area, and it is one of the contours' rectangles |
| Detector.Follow | src/motion_detector_motion.cpp:173-194 | the channels change only on a min-ms tick without focus, and then to the region's 3x3 cell |
| Detector.FollowKeepsValid | src/motion_detector_motion.cpp:173-194 | following an in-frame region keeps the chain valid and lands on its 3x3 cell |
| Detector.TileRelative | src/motion_detector_draw_paint.cpp:158-176 | the region keeps its size when drawn relative to the tile |
| Detector.TileRelativeInsideTile | src/motion_detector_draw_paint.cpp:158-176 | a region starting inside a channel's tile starts inside the tile after the offset |
| Detector.DrawSource | src/motion_detector_draw_loop.cpp:51-71 | the detection picture is shown iff minimap-fullscreen or a focus channel is set; otherwise the current channel iff fullscreen channel, SINGLE mode, or zoom-largest motion with min_ms or linger; otherwise the grid of the display mode |
| Detector.DrawSourceByMode | src/motion_detector_draw_loop.cpp:51-71 | every display mode 0..4 shows something, and a grid is shown only in its own mode |
| Detector.GetFrame | src/motion_detector_utils.cpp:5-28 | a live reader is used unless low-CPU mode is on without a live hq reader; the picture is empty iff the detection frame is then missing |
| Detector.GetFrameTiles | src/motion_detector_utils.cpp:5-28 | tile pictures of channels 1..8 lie inside the detection frame, and different channels get disjoint tiles |
| Detector.HasFrames | src/motion_detector_utils.cpp:5-28 | a channel has a picture exactly when `get_frame` would return a non-empty one |
| Detector.MotionDetector.constructor | src/motion_detector_utils.cpp:64-68 | the tour clock starts unset, as the first call of `do_tour_logic` expects, and so does the dwell start; the UI state and settings are the ones given and the region ring is empty. The member defaults of the detector's header are not modelled (see "## Left out") |
| Detector.MotionDetector.ChangeChannel | src/motion_detector_utils.cpp:30-46 | the channels become `Keys.ChangeChannel` of the old ones, and stay valid |
| Detector.MotionDetector.DoTourLogic | src/motion_detector_utils.cpp:64-82 | the tour state takes one `TourStep`, and the channel changes to the tour channel exactly when the tour advances |
| Detector.MotionDetector.DetectLargest | src/motion_detector_motion.cpp:98-213 | the empty ignore contours are dropped before blackout; motion_detected iff a region is found; the region is pushed; the timers take one `Dwell.Step`; the channels follow the region |
| Detector.MotionDetector.DwellOn | src/motion_detector_motion.cpp:158-213 | a found region is pushed onto the ring and flagged; then the timers step and the channel follows |
| Detector.MotionDetector.StepTimers | src/motion_detector_motion.cpp:158-213 | the timer fields take exactly one `Dwell.Step`, and the channel follows only on a min-ms tick |
| Detector.MotionDetector.StartOrKeepDwell | src/motion_detector_motion.cpp:166-197 | on a motion tick the start is set only when unset, the timers take the first half of a `Dwell.Step` (`Dwell.Detect`), and the channel follows the region only on a min-ms tick |
| Detector.MotionDetector.FollowRegion | src/motion_detector_motion.cpp:173-194 | without a focus channel, changes to the region's 3x3 channel unless it is already current |
| Detector.MotionDetector.DetectMotion | src/motion_detector_motion.cpp:35-71 | detection runs iff motion is enabled and a frame arrived that, without a focus channel, is exactly 704x576, or, with one, has no focus area or a usable one; otherwise only motion_detected is cleared; when run, motion_detected says whether `Largest` found a region and the timers take one `Dwell.Step`, the channels follow the region (`Follow`) and the region is pushed |
| Detector.MotionDetector.PaintMotionRegion | src/motion_detector_draw_paint.cpp:153-180 | a no-op unless info_rect and min_ms are set; then at most one region is popped and drawn relative to the current channel's tile |
| Detector.MotionDetector.PaintMainMat | src/motion_detector_draw_paint.cpp:3-151 | the layout's placements are painted, the motion region is drawn only when a slot carries it, and layout_changed is false afterwards |
| Detector.MotionDetector.PlaceSlots | src/motion_detector_draw_paint.cpp:3-151 | the slot loop builds exactly `Placements` and reports whether any slot carries the motion region |
| Detector.MotionDetector.TourIfOn | src/motion_detector_draw_loop.cpp:48 | with the tour switch on, the tour takes one `TourStep` and the channel changes to the tour channel when it advances; with it off, neither changes |
| Detector.MotionDetector.PaintSource | src/motion_detector_draw_loop.cpp:50-71 | the frame-0 picture for the detection source; the current channel's picture from `GetFrame` with the oldest motion region drawn on it (`Popped`); a grid's `Placements`, clearing layout_changed, with the region drawn only when a placement shows it; nothing for no source, which keeps the region ring |
| Detector.MotionDetector.Compose | src/motion_detector_draw_loop.cpp:48-71 | the tour runs only when enabled; the source is `DrawSource` of the UI state before the tour; the channels are the tour's change followed by a grid's clearing of layout_changed (`TouredChannels`); the picture, placements, drawn region and region ring as in `PaintSource` |
| Detector.MotionDetector.Present | src/motion_detector_draw_loop.cpp:73-91 | an empty picture changes nothing; otherwise a display size of 0 is taken from the picture and the key is handled through the corrected chain `Keys.KeyCommand` (see Findings) |
| Detector.MotionDetector.DrawIteration | src/motion_detector_draw_loop.cpp:38-113 | one iteration: the source is chosen from the UI state; the tour takes one `TourStep` iff it is on; the composition changes only the channels (`mid`), to `TouredChannels`; the drawn region, the placements and the region ring are those of `PaintSource` on `mid`; with no picture nothing else changes, otherwise the key acts on `mid` through the corrected chain `Keys.KeyCommand` (see Findings); a display size of 0 adopts the picture's size and a non-zero one is kept |
| Detector.MotionDetector.HandleKey | src/motion_detector_handle_keys.cpp:4-97 | the state becomes `Keys.Apply` of the key's command under the corrected chain `Keys.KeyCommand`, which differs from the code only on the two mistyped Windows codes (see Findings) |
| Detector.MotionDetector.ResetChannels | src/motion_detector_handle_keys.cpp:29-38 | reset writes channel 1 and the chain 1..8, keeping the state valid |
| Detector.MotionDetector.Execute | src/motion_detector_handle_keys.cpp:7-96 | each branch changes the fields exactly as `Keys.Apply` says |
| Decimal.Strtol | src/motion_detector_utils.cpp:93-96 | strtol reads nothing iff no digit follows the white space and optional sign |
| Decimal.Stoi | src/motion_detector_utils.cpp:117-118 | `std::stoi` throws invalid_argument iff strtol reads nothing, throws out_of_range iff the value is outside int, and otherwise returns strtol's value |
| Decimal.Stol | src/motion_detector_utils.cpp:93-96 | `std::stol` behaves the same for a 64-bit long |
| Decimal.NatToString | main.cpp:79-80 | the decimal digits of a natural number, at least one |
| Decimal.IntToString | main.cpp:79-80 | a minus sign only in front, otherwise digits |
| Decimal.NatToStringValue | main.cpp:79-80 | reading back the digits of n gives n |
| Decimal.StrtolOfIntToString | src/motion_detector_utils.cpp:117-118 | strtol reads back any printed integer followed by a non-digit |
| Decimal.StoiOfIntToString | src/motion_detector_utils.cpp:117-118 | `std::stoi` inverts the printing of any int |
| Decimal.StolOfIntToString | src/motion_detector_utils.cpp:93-96 | `std::stol` inverts the printing of any long |
| Decimal.StrtolSkipsSpace | src/motion_detector_utils.cpp:93-96 | leading white space is skipped |
| Parsers.Find | src/motion_detector_utils.cpp:86-91 | `find` returns the first index of c, or npos iff c is absent |
| Parsers.ParseArea | src/motion_detector_utils.cpp:84-99 | every field is a long; without ';' the npos + 1 wrap makes the second half the whole text, so w = x and h = y |
| Parsers.ParseAreaRoundTrip | src/motion_detector_utils.cpp:84-99 | "XxY;WxH" of any four longs parses back to the same area |
| Parsers.ParseAreaOfNumber | src/motion_detector_utils.cpp:86-96 | a bare number n is read as the area (n, n, n, n) |
| Parsers.Pieces | src/motion_detector_utils.cpp:108 | the pieces between separators, none containing it |
| Parsers.Split | src/motion_detector_utils.cpp:108-126 | the getline tokens contain no separator, and there are none iff the text is empty |
| Parsers.PointOf | src/motion_detector_utils.cpp:113-120 | a token without 'x' is skipped; otherwise both halves go through `std::stoi` |
| Parsers.Collect | src/motion_detector_utils.cpp:108-126 | the getline loop keeps at most one value per token |
| Parsers.CollectErrorStops | src/motion_detector_utils.cpp:108-126 | once a token throws, the tokens after it are never read |
| Parsers.CollectKeepsEveryValue | src/motion_detector_utils.cpp:108-126 | when every token reads a value, all of them are kept in order |
| Parsers.ContourOf | src/motion_detector_utils.cpp:109-125 | a contour that is kept is never empty |
| Parsers.ContoursAreNonEmpty | src/motion_detector_utils.cpp:123-125 | every parsed ignore contour has at least one point |
| Parsers.ParsePoints | src/motion_detector_utils.cpp:113-121 | the inner getline loop computes the points of its tokens |
| Parsers.ParseIgnoreContours | src/motion_detector_utils.cpp:102-129 | the contours of the ';' tokens, each made of its ',' tokens, or the exception std::stoi throws |
| Parsers.ParseAlarmPixels | src/motion_detector_utils.cpp:180-197 | the points of the ';' tokens, or the exception |
| Parsers.PrintPoints | src/motion_detector_utils.cpp:171-174 | the points printed "AxB" with the separator between two of them |
| Parsers.PointsText | src/motion_detector_utils.cpp:171-174 | the printed points are empty iff there are none, and take at least four characters per point less one |
| Parsers.PrintIgnoreContours | src/motion_detector_utils.cpp:166-178 | the contours printed with ';' between contours and ',' between points |
| Parsers.ContoursText | src/motion_detector_utils.cpp:166-178 | the printed contours hold at least the separators between them, and four characters per point less one when no contour is empty |
| Parsers.PointRoundTrip | src/motion_detector_utils.cpp:113-120 | a printed int point parses back to itself |
| Parsers.PointsRoundTrip | src/motion_detector_utils.cpp:113-121 | points printed with a separator that no number contains split and parse back to the same list |
| Parsers.ContourSplits | src/motion_detector_utils.cpp:113-121 | a printed non-empty contour re-parses to itself |
| Parsers.ContoursRoundTrip | src/motion_detector_utils.cpp:108-126 | the ';' pieces of the printed contours parse back to the same list |
| Parsers.IgnoreContoursRoundTrip | src/motion_detector_utils.cpp:166-178 | the text print_ignore_contours writes re-parses to the same list when every contour is non-empty |
| Parsers.AlarmPixelsRoundTripFailsAsWritten | src/motion_detector_utils.cpp:224-233 | as written, two pixels print as one ';' token, which parses back as the first pixel only |
| Parsers.AlarmPixelsTextAsWritten | src/motion_detector_utils.cpp:224-233 | what `print_alarm_pixels` writes: no ';' at all, so `parse_alarm_pixels` sees one token; empty iff there are no pixels |
| Parsers.PrintAlarmPixels | src/motion_detector_utils.cpp:224-233 | the corrected printer of the Findings row: the pixels printed with ';' between two of them, the separator `parse_alarm_pixels` splits on; the code as written joins with ',' (`Parsers.AlarmPixelsTextAsWritten`) |
| Parsers.AlarmPixelsRoundTrip | src/motion_detector_utils.cpp:180-197 | with ';' as the separator, every list of int pixels re-parses to itself |
| Rtsp.Subtype | main.cpp:77 | the subtype is always 0, because USE_SUBTYPE1 is false |
| Rtsp.ReadUrl | main.cpp:78-80 | a URL that is read starts with the `rtsp://` scheme |
| Rtsp.ConstructRtspUrl | main.cpp:75-81 | the URL begins with `rtsp://` and ends with `&subtype=0`, since the substream is never selected |
| Rtsp.UrlPieces | main.cpp:78-80 | the URL is the scheme, the authority user:pass@ip:554, and the path /cam/realmonitor?channel=N&subtype=0 |
| Rtsp.ReadAuthorityOf | main.cpp:78-79 | the authority splits back into user, password, host and port 554 |
| Rtsp.ReadStreamOf | main.cpp:79-80 | the path reads back as the channel and subtype 0 |
| Rtsp.ReadConstructedUrl | main.cpp:75-81 | the URL reads back as exactly the user, password, ip, port 554, channel and subtype 0 it was built from |
| Params.Initialised | src/motion_detector_params.cpp:8-43 | every member takes its option's value, and the automatic-sleep flags start false |
| Params.Construct | src/motion_detector_params.cpp:47-78 | the result is consistent: hq motion implies low CPU, dual mode implies both, and -1 sleeps are automatic. The editing mode forces 704x576 and the three overlays; a detected screen size wins over it; the low-CPU switches are only raised; every other member is copied |
| Legacy.Candidates | main.cpp:253-256 | a contour qualifies iff contourArea >= motion_area, and is scored by its rectangle's area |
| Legacy.LargestIsFirstStrictMax | main.cpp:251-263 | motion_detected iff some qualifying contour has a positive rectangle area, and the region is the first strict maximum's rectangle |
| Legacy.LargestIsAContour | main.cpp:251-263 | the region is one of the contours' rectangles |
| Legacy.Largest | main.cpp:251-263 | a region is the rectangle of a contour of at least motion_area, with positive area |
| Legacy.Follow | main.cpp:266-274 | no region keeps the channel; an in-crop region gives a channel in 1..6 |
| Legacy.Key | main.cpp:342-350 | 'q' stops, 'a', 'i' and 'm' flip their flag, '1'..'6' select that channel, and every field is otherwise kept |
| Legacy.Tick | main.cpp:228-351 | without a detection frame nothing changes; without the main frame only the channel can change; with motion off and no digit key the channel is kept |
| Legacy.TickKeepsChannel | main.cpp:265-278 | a pass keeps current_channel in 1..6, so `readers[current_channel]` is always an HD reader |
| Legacy.QuietTickKeepsChannel | main.cpp:265-274 | without a qualifying contour and without a digit key, the channel is unchanged |
| Legacy.TogglesAreInvolutions | main.cpp:347-349 | 'a', 'i' and 'm' each flip one flag, and twice restores the state |
| Legacy.DigitKeySelects | main.cpp:342-350 | keys '1'..'6' set the channel and nothing else; other keys outside q, a, i and m change nothing |
| Legacy.LegacyMotionDetector.constructor | main.cpp:187-210 | channel 1, info and minimap off, motion on, running |
| Legacy.LegacyMotionDetector.DetectMotion | main.cpp:240-275 | with motion enabled the region is the selected one and the channel becomes its 3x2 cell; otherwise nothing changes |
| Legacy.LegacyMotionDetector.HandleKey | main.cpp:342-350 | the key dispatch is `Key` |
| Legacy.LegacyMotionDetector.Step | main.cpp:228-351 | one pass: nothing without a detection frame, detection, then the keys only when the current channel's frame is there |

## Left out

- OpenCV is foreign code. The background subtractors, thresholding,
  `findContours`, `contourArea`, `boundingRect`, `pointPolygonTest`,
  `resize`, `copyMakeBorder`, `addWeighted` and all drawing are absent.
  Their results are inputs (contours, frame sizes, whether a frame is
  empty).
- Concurrency: atomics, mutexes, condition variables, the reader and
  detection threads, and `cv::parallel_for_`. Everything is sequential.
  Disjointness of the layout tiles (`Layouts.PaintIsSound`) is what keeps
  the parallel bodies independent. The ring buffer is modelled
  single-threaded, so its memory orders are not captured.
- Clocks, FPS-derived sleeps, condition-variable waits and the tour
  progress line are left out. Times are integer milliseconds given as
  inputs.
- Float scaling of the minimap and motion rectangles
  (`draw_paint_motion_region`'s scaleX/scaleY, `test1_both.py`'s overlay)
  is not modelled. `Detector.TileRelative` stops before the scaling.
- Floats are modelled exactly. `contourArea` is a `real`. The
  float-to-int channel maps and the Python `norm < 0.5` tests are stated
  as their exact integer equivalents, which the lemmas prove.
- Frame acquisition is I/O: `src/frame_reader.*`, `VideoCapture`, the
  ffmpeg/ffplay subprocesses, `putenv` and thread affinity. Their reads
  are inputs (`Arbiter.ReadResult`, `Detector.Reader`).
- UI drawing and windows are left out: `draw_info`, `draw_paint_info`,
  `draw_minimap`, `imshow`, the mouse callback, and the info text of
  `main.cpp`. `waitKey` becomes the key given to each pass. In
  `main.cpp` it is assigned to a `char`, so the model takes a `char`.
- The `std::cout` messages and the `D(...)` debug prints are left out.
- The alarm-pixel sound and `pointPolygonTest` (src/motion_detector_motion.cpp:199-233) are left out (SDL and OpenCV).
- The file parsers `parse_ignore_contours_file` and
  `parse_alarm_pixels_file` are file I/O. Their per-line logic is that of
  the string parsers.
- `src/args.cpp`, `src/main.cpp`, `main()`, `detect_screen_size`
  (xrandr), `src/utils.cpp`, `src/sound.cpp`, `src/signal.cpp` and the
  debug headers are left out. In `Params.Construct` the detected screen
  size is a parameter.
- `CHANNEL_COUNT` is fixed at 8, the size the reset key writes. The
  header that defines it is not part of this model. `TOUR_FRAME_COUNT`,
  `MOTION_DETECT_MIN_FRAMES`, the key codes and the region ring's size are
  parameters. `MOTION_DETECT_LINGER_MS` is 3000.
- The current detector's header, which declares its member defaults, is
  not part of this model. `Detector.MotionDetector.constructor` takes the
  settings as parameters and starts every timer unset.
- Params.Construct: the header `src/motion_detector_params.hpp` declares
  neither `sleep_ms_draw`/`sleep_ms_motion` nor their `_auto` flags, which
  the constructor body uses. The model gives the struct those members,
  with the flags starting false.
- Detector.MotionDetector.HandleKey: the class runs the corrected key
  chain `Keys.KeyCommand`, so the Windows page-down and right-arrow codes
  act in the model where the code ignores them; `Keys.KeyCommandAsWritten`
  is the chain as written and `Keys.KeyCommandAgrees` shows the two differ
  on those codes only.
- Detector.MotionDetector.Present: it hands the key to `HandleKey`, so the
  Windows page-down and right-arrow codes act in the model where
  `src/motion_detector_handle_keys.cpp` lines 26 and 46 ignore them.
- Detector.MotionDetector.DrawIteration: it hands the key to `Present`, so
  the Windows page-down and right-arrow codes act in the model where
  `src/motion_detector_handle_keys.cpp` lines 26 and 46 ignore them.
- The `DoubleBuffer`-wrapped members of the current detector (king chain,
  ignore contours, alarm pixels, mouse position) are plain fields in
  `Detector.MotionDetector`. `Buffers.DoubleBuffer` proves that get after
  update returns the update, which justifies this.
- KingChain.MoveToFront: when ch is missing from the chain, the source
  writes one element past the end of `new_vec`. The model stops at the
  vector's end, and `MoveToFrontLoop` requires ch to be present. Every
  call site passes a channel of a valid chain
  (`KingChain.ChainMoveIsExact`).
- The `new_vec` of `move_to_front` is a local vector written by index; in
  `KingChain.MoveToFrontLoop` it is a local sequence updated by index.
- Rtsp.ReadConstructedUrl: the credentials are not percent-encoded, so
  the round trip needs a user name without ':', '@' or '/', and a password
  and host without '@' or '/'.
- Detector.MotionDetector.DetectMotion: the resize of the focus crop to
  the display size is not modelled. The contours are those of the frame
  handed in.
- Detector.MotionDetector.DrawIteration: the resize to the display size
  and the overlays drawn on the shown picture are left out.
- `src/motion_detector_draw_paint_main_mat.cpp` repeats the four layouts
  on `UMat`s with the same geometry; `Layouts` models the `Mat` version.
- `src/args.cpp` describes the ignore-contour and alarm-pixel formats
  differently in its help texts. The model follows the parsers' code.

## Findings

| source | as written | input that shows it | evidently intended | confidence | as-written member | corrected member |
|---|---|---|---|---|---|---|
| src/motion_detector_handle_keys.cpp:26-46 | the page-down branch tests `KEY_LINUX_PAGE_DOWN` twice, and the right-arrow branch tests `KEY_WIN_ARROW_LEFT`, which the left-arrow branch already caught | Windows page-down or right arrow: nothing happens | page-down toggles the minimap and the right arrow moves to the previous channel, as on Linux | not executed | Keys.WindowsKeysDeadAsWritten | Keys.KeyCommand |
| src/motion_detector_utils.cpp:224-233 | `print_alarm_pixels` joins the pixels with ',', but `parse_alarm_pixels` splits on ';' | pixels (1,2) and (3,4) print as `-ap "1x2,3x4"`, which parses back as the single pixel (1,2) | pixels printed with ';', so that the printed option re-parses to the same list | not executed | Parsers.AlarmPixelsRoundTripFailsAsWritten | Parsers.AlarmPixelsRoundTrip |
