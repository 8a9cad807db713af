/** The per-camera frame queue of main.cpp's FrameReader: the reader thread
    pushes every grabbed frame, dropping the oldest when two are queued, and
    the display loop takes the newest frame and discards the rest. */
module FrameQueue {
  import opened Common

  const MaxQueueSize: nat := 2

  /** The last n elements of s (all of s when it is shorter). */
  function LastN<F>(s: seq<F>, n: nat): (r: seq<F>)
    ensures |r| == Min(|s|, n)
    ensures forall i :: 0 <= i < |r| ==> r[i] == s[|s| - |r| + i]
  {
    if |s| <= n then s else s[|s| - n..]
  }

  class FrameReaderQueue<F> {
    var frameQueue: seq<F>

    ghost predicate Valid()
      reads this
    {
      |frameQueue| <= MaxQueueSize
    }

    constructor ()
      ensures Valid() && frameQueue == []
    {
      frameQueue := [];
    }

    /** One successful grab in readFrames: pop_front when full, then
        emplace_back. */
    method Push(frame: F)
      requires Valid()
      modifies this
      ensures Valid()
      ensures frameQueue == LastN(old(frameQueue) + [frame], MaxQueueSize)
      ensures frameQueue[|frameQueue| - 1] == frame
    {
      if |frameQueue| >= MaxQueueSize {
        frameQueue := frameQueue[1..];
      }
      frameQueue := frameQueue + [frame];
    }

    /** getLatestFrame: None stands for the empty cv::Mat. */
    method GetLatestFrame() returns (latest: Option<F>)
      requires Valid()
      modifies this
      ensures Valid() && frameQueue == []
      ensures old(frameQueue) == [] <==> latest.None?
      ensures latest.Some? ==> latest.value == old(frameQueue)[|old(frameQueue)| - 1]
    {
      if |frameQueue| == 0 {
        return None;
      }
      latest := Some(frameQueue[|frameQueue| - 1]);
      frameQueue := [];
    }
  }

  /** The queue after a run of grabs, pushed one at a time. */
  function PushAll<F>(q: seq<F>, frames: seq<F>): seq<F>
  {
    if |frames| == 0 then q
    else LastN(PushAll(q, frames[..|frames| - 1]) + [frames[|frames| - 1]], MaxQueueSize)
  }

  /** Whatever was queued before, after any run of grabs the queue holds the
      newest (at most two) of everything pushed, oldest first. */
  lemma {:induction false} PushAllKeepsNewest<F>(q: seq<F>, frames: seq<F>)
    requires |q| <= MaxQueueSize
    ensures PushAll(q, frames) == LastN(q + frames, MaxQueueSize)
  {
    if |frames| > 0 {
      var init := frames[..|frames| - 1];
      var x := frames[|frames| - 1];
      calc {
        PushAll(q, frames);
        LastN(PushAll(q, init) + [x], MaxQueueSize);
        { PushAllKeepsNewest(q, init); }
        LastN(LastN(q + init, MaxQueueSize) + [x], MaxQueueSize);
        { LastNSnoc(q + init, x, MaxQueueSize); }
        LastN((q + init) + [x], MaxQueueSize);
        { assert (q + init) + [x] == q + frames; }
        LastN(q + frames, MaxQueueSize);
      }
    }
  }

  /** Trimming before appending one more element changes nothing. */
  lemma LastNSnoc<F>(s: seq<F>, x: F, n: nat)
    ensures LastN(LastN(s, n) + [x], n) == LastN(s + [x], n)
  {
    if n == 0 || |s| < n {
    } else {
      var t := s[|s| - n..];
      assert LastN(s, n) == t;
      assert LastN(t + [x], n) == (t + [x])[1..];
      assert (t + [x])[1..] == s[|s| - n + 1..] + [x];
      assert (s + [x])[|s| + 1 - n..] == s[|s| - n + 1..] + [x];
    }
  }

  /** getLatestFrame after a run of grabs returns the last frame grabbed. */
  lemma LatestIsLastPushed<F>(q: seq<F>, frames: seq<F>)
    requires |q| <= MaxQueueSize && |frames| > 0
    ensures var r := PushAll(q, frames);
      |r| > 0 && r[|r| - 1] == frames[|frames| - 1]
  {
    PushAllKeepsNewest(q, frames);
  }
}
