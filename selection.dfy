/** Dominant-region selection, the loop every variant of the detector runs over
    the contours of one frame: keep a running maximum that starts at 0, and
    take a qualifying contour only when its score is strictly greater.  The
    call sites differ only in which contours qualify and what is scored. */
module Selection {
  import opened Common

  /** A contour as the selection loop sees it: does it pass the call site's
      thresholds, and what value is compared against the running maximum. */
  datatype Candidate = Candidate(ok: bool, score: real)

  /** k is the index the loop keeps: it qualifies, beats the initial maximum 0,
      beats every qualifying candidate before it strictly and is not beaten by
      any qualifying candidate after it. */
  ghost predicate IsFirstStrictMax(cs: seq<Candidate>, k: int)
  {
    && 0 <= k < |cs|
    && cs[k].ok && cs[k].score > 0.0
    && (forall j :: 0 <= j < k && cs[j].ok ==> cs[j].score < cs[k].score)
    && (forall j :: k < j < |cs| && cs[j].ok ==> cs[j].score <= cs[k].score)
  }

  /** No candidate can displace the initial maximum 0. */
  ghost predicate NoneQualifies(cs: seq<Candidate>)
  {
    forall j :: 0 <= j < |cs| && cs[j].ok ==> cs[j].score <= 0.0
  }

  /** The running maximum after the loop has seen all of cs. */
  function RunningMax(cs: seq<Candidate>, best: Option<nat>): real
  {
    if best.Some? && best.value < |cs| then cs[best.value].score else 0.0
  }

  /** The index the selection loop keeps after seeing all of cs. */
  function Pick(cs: seq<Candidate>): (r: Option<nat>)
    ensures r.Some? ==> IsFirstStrictMax(cs, r.value)
    ensures r.None? ==> NoneQualifies(cs)
  {
    if |cs| == 0 then None
    else
      var prev := Pick(cs[..|cs| - 1]);
      var last := cs[|cs| - 1];
      if last.ok && last.score > RunningMax(cs[..|cs| - 1], prev) then Some(|cs| - 1)
      else prev
  }

  /** The characterization determines the pick: whatever index satisfies it is
      the one the loop keeps, and a pick exists exactly when some qualifying
      candidate has a positive score. */
  lemma PickIsUnique(cs: seq<Candidate>, k: int)
    requires IsFirstStrictMax(cs, k)
    ensures Pick(cs) == Some(k)
  {
    var p := Pick(cs);
    assert cs[k].ok && cs[k].score > 0.0;
  }

  lemma PickSomeIff(cs: seq<Candidate>)
    ensures Pick(cs).Some? <==> exists j :: 0 <= j < |cs| && cs[j].ok && cs[j].score > 0.0
  {
    if Pick(cs).Some? {
      var k := Pick(cs).value;
      assert cs[k].ok && cs[k].score > 0.0;
    }
  }

  /** The selection loop itself, as the sources write it. */
  method SelectLargest(cs: seq<Candidate>) returns (best: Option<nat>)
    ensures best == Pick(cs)
    ensures best.Some? ==> IsFirstStrictMax(cs, best.value)
    ensures best.None? ==> NoneQualifies(cs)
  {
    best := None;
    var maxArea := 0.0;
    var i := 0;
    while i < |cs|
      invariant 0 <= i <= |cs|
      invariant best == Pick(cs[..i])
      invariant maxArea == RunningMax(cs[..i], best)
    {
      assert cs[..i + 1][..i] == cs[..i];
      if cs[i].ok && cs[i].score > maxArea {
        maxArea := cs[i].score;
        best := Some(i);
      }
      i := i + 1;
    }
    assert cs[..|cs|] == cs;
  }

  /** Python prototypes: contourArea > threshold qualifies, contourArea is scored. */
  function AreaAbove(contours: seq<Contour>, threshold: real): (cs: seq<Candidate>)
    ensures |cs| == |contours|
    ensures forall i :: 0 <= i < |cs| ==>
      cs[i].ok == (contours[i].area > threshold) && cs[i].score == contours[i].area
  {
    seq(|contours|, i requires 0 <= i < |contours| =>
      Candidate(contours[i].area > threshold, contours[i].area))
  }

  /** C++ detectors: contourArea >= minArea and (rect area) >= minRectArea
      qualify, the bounding rectangle's area is scored. */
  function RectAreaAtLeast(contours: seq<Contour>, minArea: real, minRectArea: real): (cs: seq<Candidate>)
    ensures |cs| == |contours|
    ensures forall i :: 0 <= i < |cs| ==>
      cs[i].ok == (contours[i].area >= minArea && RectArea(contours[i].rect) as real >= minRectArea)
      && cs[i].score == RectArea(contours[i].rect) as real
  {
    seq(|contours|, i requires 0 <= i < |contours| =>
      Candidate(contours[i].area >= minArea && RectArea(contours[i].rect) as real >= minRectArea,
                RectArea(contours[i].rect) as real))
  }

  /** The call sites' selection, returning the chosen contour's bounding rect. */
  method BestRect(contours: seq<Contour>, cs: seq<Candidate>) returns (r: Option<Rect>)
    requires |cs| == |contours|
    ensures r.Some? <==> Pick(cs).Some?
    ensures r.Some? ==> r.value == contours[Pick(cs).value].rect
  {
    var best := SelectLargest(cs);
    if best.Some? {
      r := Some(contours[best.value].rect);
    } else {
      r := None;
    }
  }

  /** Worked example: components of area 30 and 80 at min_area 20 give the
      80-area one; at min_area 100 nothing is selected. */
  lemma TwoComponentsExample(a: Rect, b: Rect)
    ensures Pick(AreaAbove([Contour(30.0, a), Contour(80.0, b)], 20.0)) == Some(1)
    ensures Pick(AreaAbove([Contour(30.0, a), Contour(80.0, b)], 100.0)) == None
  {
    var cs := AreaAbove([Contour(30.0, a), Contour(80.0, b)], 20.0);
    PickIsUnique(cs, 1);
    var ds := AreaAbove([Contour(30.0, a), Contour(80.0, b)], 100.0);
    PickSomeIff(ds);
  }
}
