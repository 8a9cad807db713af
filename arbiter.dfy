/** Multi-channel arbitration of the Python prototypes test2.py and
    test2_noffmpeg.py: every tick the channels are polled in ascending order
    and the first one whose background model reports a large enough contour
    wins.  The background subtractor is foreign: what a channel yields on a
    read is given as the frame and the contour areas the subtractor reports
    once that frame is applied to the channel's own model.  The model itself
    is represented by the frames applied to it so far. */
module Arbiter {
  import opened Common

  /** One read of one channel: a short or failed read, or a frame together
      with the contour areas found after applying it. */
  datatype ReadResult<F> = Short | Read(frame: F, areas: seq<real>)

  const FfmpegThreshold: real := 500.0
  const CaptureThreshold: real := 10000.0
  const ChannelSlots: nat := 7

  /** A read that yields a frame with some contour strictly above t. */
  ghost predicate Qualifies<F>(r: ReadResult<F>, t: real)
  {
    r.Read? && exists i :: 0 <= i < |r.areas| && r.areas[i] > t
  }

  /** The inner `for contour in contours: if area > t: ... break`. */
  method HasContourAbove(areas: seq<real>, t: real) returns (hit: bool)
    ensures hit <==> exists i :: 0 <= i < |areas| && areas[i] > t
  {
    hit := false;
    var i := 0;
    while i < |areas|
      invariant 0 <= i <= |areas|
      invariant forall j :: 0 <= j < i ==> areas[j] <= t
    {
      if areas[i] > t {
        hit := true;
        break;
      }
      i := i + 1;
    }
  }

  /** The first channel in [ch, hi) whose read qualifies. */
  ghost function FirstQualifying<F>(results: seq<ReadResult<F>>, ch: nat, hi: nat, t: real): (r: Option<nat>)
    requires hi <= |results|
    ensures r.Some? ==> ch <= r.value < hi && Qualifies(results[r.value], t)
    ensures r.Some? ==> forall c :: ch <= c < r.value ==> !Qualifies(results[c], t)
    ensures r.None? ==> forall c :: ch <= c < hi ==> !Qualifies(results[c], t)
    decreases hi - ch
  {
    if ch >= hi then None
    else if Qualifies(results[ch], t) then Some(ch)
    else FirstQualifying(results, ch + 1, hi, t)
  }

  /** The last channel read this tick: the winner, or hi - 1 when none wins. */
  ghost function LastPolled<F>(results: seq<ReadResult<F>>, lo: nat, hi: nat, t: real): int
    requires hi <= |results|
  {
    match FirstQualifying(results, lo, hi, t)
    case Some(c) => c
    case None => hi - 1
  }

  /** Per-channel models after applying the frame of every successful read
      among channels lo..last, one channel at a time. */
  function AppliedAfter<F>(models: seq<seq<F>>, results: seq<ReadResult<F>>, lo: nat, last: int): (m: seq<seq<F>>)
    requires |results| == |models| && last < |models|
    ensures |m| == |models|
    ensures forall c :: 0 <= c < |m| && !(lo <= c <= last && results[c].Read?) ==> m[c] == models[c]
    ensures forall c :: 0 <= c < |m| && lo <= c <= last && results[c].Read? ==> m[c] == models[c] + [results[c].frame]
    decreases last - lo
  {
    if last < lo then models
    else
      var prev := AppliedAfter(models, results, lo, last - 1);
      if results[last].Read? then prev[last := prev[last] + [results[last].frame]] else prev
  }

  /** Walks channels lo..hi-1: a short read is skipped without touching its
      model; otherwise the frame is applied and a qualifying channel stops the
      walk. */
  method PollChannels<F>(models: seq<seq<F>>, results: seq<ReadResult<F>>, lo: nat, hi: nat, t: real)
    returns (winner: Option<nat>, models': seq<seq<F>>, polled: seq<nat>)
    requires |results| == |models| && lo <= hi <= |results|
    ensures winner == FirstQualifying(results, lo, hi, t)
    ensures models' == AppliedAfter(models, results, lo, LastPolled(results, lo, hi, t))
    ensures |polled| == LastPolled(results, lo, hi, t) + 1 - lo
    ensures forall k :: 0 <= k < |polled| ==> polled[k] == lo + k
  {
    winner := None;
    models' := models;
    polled := [];
    var ch := lo;
    while ch < hi
      invariant lo <= ch <= hi
      invariant FirstQualifying(results, lo, hi, t) == FirstQualifying(results, ch, hi, t)
      invariant models' == AppliedAfter(models, results, lo, ch - 1)
      invariant |polled| == ch - lo && forall k :: 0 <= k < |polled| ==> polled[k] == lo + k
      decreases hi - ch
    {
      polled := polled + [ch];
      if results[ch].Short? {
        assert !Qualifies(results[ch], t);
        assert FirstQualifying(results, ch, hi, t) == FirstQualifying(results, ch + 1, hi, t);
        assert models' == AppliedAfter(models, results, lo, ch);
        ch := ch + 1;
        continue;
      }
      models' := models'[ch := models'[ch] + [results[ch].frame]];
      assert models' == AppliedAfter(models, results, lo, ch);
      var hit := HasContourAbove(results[ch].areas, t);
      if hit {
        assert Qualifies(results[ch], t);
        assert FirstQualifying(results, lo, hi, t) == Some(ch);
        winner := Some(ch);
        return;
      }
      assert !Qualifies(results[ch], t);
      assert FirstQualifying(results, ch, hi, t) == FirstQualifying(results, ch + 1, hi, t);
      ch := ch + 1;
    }
  }

  /** test2.py: channels 1..6 each feed their own background model; the winner
      (or channel 0) becomes the channel ffplay shows, restarted only on change. */
  class FfmpegArbiter<F> {
    var activeChannel: int
    var models: seq<seq<F>>

    ghost predicate Valid()
      reads this
    {
      |models| == ChannelSlots
    }

    constructor ()
      ensures Valid() && activeChannel == 0
      ensures forall c :: 0 <= c < |models| ==> models[c] == []
    {
      activeChannel := 0;
      models := seq(ChannelSlots, _ => []);
    }

    /** One iteration of the `while True` loop.  results[c] is what channel c's
        pipe yields if it is read this tick. */
    method Tick(results: seq<ReadResult<F>>) returns (restarted: bool, polled: seq<nat>)
      requires Valid() && |results| == ChannelSlots
      modifies this
      ensures Valid()
      ensures activeChannel == match FirstQualifying(results, 1, 7, FfmpegThreshold)
                               case Some(c) => c case None => 0
      ensures restarted <==> activeChannel != old(activeChannel)
      ensures models == AppliedAfter(old(models), results, 1, LastPolled(results, 1, 7, FfmpegThreshold))
      ensures |polled| == LastPolled(results, 1, 7, FfmpegThreshold) && forall k :: 0 <= k < |polled| ==> polled[k] == k + 1
    {
      var winner, models', p := PollChannels(models, results, 1, 7, FfmpegThreshold);
      models := models';
      polled := p;
      var newChannel := if winner.Some? then winner.value else 0;
      restarted := false;
      if newChannel != activeChannel {
        activeChannel := newChannel;
        restarted := true;
      }
    }
  }

  /** test2.py never reads channel 0 for motion, so its model never changes. */
  lemma FfmpegNeverAppliesChannelZero<F>(models: seq<seq<F>>, results: seq<ReadResult<F>>)
    requires |models| == ChannelSlots && |results| == ChannelSlots
    ensures AppliedAfter(models, results, 1, LastPolled(results, 1, 7, FfmpegThreshold))[0] == models[0]
  {
  }

  /** test2_noffmpeg.py: channels 0..6 are polled; the winner's frame is shown,
      otherwise a fresh read of channel 0, and nothing when that fails. */
  class CaptureArbiter<F> {
    var models: seq<seq<F>>

    ghost predicate Valid()
      reads this
    {
      |models| == ChannelSlots
    }

    constructor ()
      ensures Valid()
      ensures forall c :: 0 <= c < |models| ==> models[c] == []
    {
      models := seq(ChannelSlots, _ => []);
    }

    method Tick(results: seq<ReadResult<F>>, fallback: Option<F>) returns (shown: Option<F>)
      requires Valid() && |results| == ChannelSlots
      modifies this
      ensures Valid()
      ensures models == AppliedAfter(old(models), results, 0, LastPolled(results, 0, 7, CaptureThreshold))
      ensures match FirstQualifying(results, 0, 7, CaptureThreshold)
              case Some(c) => shown == Some(results[c].frame)
              case None => shown == fallback
    {
      var winner, models', _ := PollChannels(models, results, 0, 7, CaptureThreshold);
      models := models';
      if winner.Some? {
        shown := Some(results[winner.value].frame);
      } else {
        shown := fallback;
      }
    }
  }

  /** The arbitration prefers the lowest channel: if two channels qualify, the
      lower one wins whatever the other results are. */
  lemma LowestQualifyingWins<F>(results: seq<ReadResult<F>>, lo: nat, hi: nat, t: real, a: nat, b: nat)
    requires hi <= |results| && lo <= a < b < hi
    requires Qualifies(results[a], t) && Qualifies(results[b], t)
    ensures FirstQualifying(results, lo, hi, t) != Some(b)
    ensures FirstQualifying(results, lo, hi, t).Some?
  {
  }

  /** Reads of channels after the winner do not matter. */
  lemma {:induction false} LaterReadsIrrelevant<F>(results: seq<ReadResult<F>>, results': seq<ReadResult<F>>,
                                                 ch: nat, hi: nat, t: real, w: nat)
    requires hi <= |results| && |results'| == |results| && ch <= w < hi
    requires FirstQualifying(results, ch, hi, t) == Some(w)
    requires forall c :: ch <= c <= w ==> results'[c] == results[c]
    ensures FirstQualifying(results', ch, hi, t) == Some(w)
    decreases w - ch
  {
    if ch < w {
      LaterReadsIrrelevant(results, results', ch + 1, hi, t, w);
    }
  }
}
