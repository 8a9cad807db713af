/** Tile geometry of the multi-channel views of the detector
    (src/motion_detector_draw_paint.cpp and its UMat twin
    src/motion_detector_draw_paint_main_mat.cpp): a 3x3 grid for ALL and SORT,
    one 3x3-cell slot plus seven single cells on a 4x4 grid for KING and TOP.
    Disjointness of the slots is what lets the per-slot bodies run in parallel. */
module Layouts {
  import opened Common

  /** CHANNEL_COUNT: eight camera channels (the reset key writes [1..8]). */
  const ChannelCount: nat := 8

  datatype GridLayout = AllGrid | SortGrid | KingGrid | TopGrid

  /** One channel picture put on the canvas, and whether the motion region
      is drawn on it. */
  datatype Placement = Placement(channel: int, at: Rect, motionRegion: bool)

  lemma MulLe(a: int, b: int, w: int)
    requires a <= b && w >= 0
    ensures a * w <= b * w
  {
  }

  /** Tile i of the ALL and SORT grids. */
  function GridTile(i: nat, w: int, h: int): (r: Rect)
    ensures r.w == w && r.h == h
  {
    Rect((i % 3) * w, (i / 3) * h, w, h)
  }

  /** Each of the nine grid tiles lies inside the canvas the w = W/3,
      h = H/3 cells come from, and distinct tiles do not overlap. */
  lemma GridTilesDisjointInside(i: nat, j: nat, cw: int, ch: int)
    requires i < 9 && j < 9 && i != j && cw >= 0 && ch >= 0
    ensures InsideCanvas(GridTile(i, cw / 3, ch / 3), cw, ch)
    ensures Disjoint(GridTile(i, cw / 3, ch / 3), GridTile(j, cw / 3, ch / 3))
  {
    var w, h := cw / 3, ch / 3;
    MulLe(i % 3, 2, w);
    MulLe(i / 3, 2, h);
    if i % 3 < j % 3 {
      MulLe(i % 3 + 1, j % 3, w);
    } else if j % 3 < i % 3 {
      MulLe(j % 3 + 1, i % 3, w);
    } else if i / 3 < j / 3 {
      MulLe(i / 3 + 1, j / 3, h);
    } else {
      MulLe(j / 3 + 1, i / 3, h);
    }
  }

  /** Slot i of the KING view: slot 0 spans 3x3 cells, 1-3 run down the right
      column, 4-7 run along the bottom row from the left. */
  function KingSlot(i: nat, w: int, h: int): (r: Rect)
    ensures i == 0 ==> r == Rect(0, 0, 3 * w, 3 * h)
    ensures i > 0 ==> r.w == w && r.h == h && (r.x == 3 * w || r.y == 3 * h)
  {
    if i == 0 then Rect(0, 0, 3 * w, 3 * h)
    else if i == 1 then Rect(3 * w, 0, w, h)
    else if i == 2 then Rect(3 * w, h, w, h)
    else if i == 3 then Rect(3 * w, 2 * h, w, h)
    else if i == 4 then Rect(0, 3 * h, w, h)
    else if i == 5 then Rect(w, 3 * h, w, h)
    else if i == 6 then Rect(2 * w, 3 * h, w, h)
    else Rect(3 * w, 3 * h, w, h)
  }

  /** Slot i of the TOP view: as KING, but the bottom row runs from the right
      (slot 4 at the bottom-right corner, slot 7 at the bottom-left). */
  function TopSlot(i: nat, w: int, h: int): (r: Rect)
    ensures i == 0 ==> r == Rect(0, 0, 3 * w, 3 * h)
    ensures i > 0 ==> r.w == w && r.h == h && (r.x == 3 * w || r.y == 3 * h)
  {
    if i == 0 then Rect(0, 0, 3 * w, 3 * h)
    else if i == 1 then Rect(3 * w, 0, w, h)
    else if i == 2 then Rect(3 * w, h, w, h)
    else if i == 3 then Rect(3 * w, 2 * h, w, h)
    else if i == 4 then Rect(3 * w, 3 * h, w, h)
    else if i == 5 then Rect(2 * w, 3 * h, w, h)
    else if i == 6 then Rect(w, 3 * h, w, h)
    else Rect(0, 3 * h, w, h)
  }

  lemma KingSlotsDisjointInside(i: nat, j: nat, cw: int, ch: int)
    requires i < 8 && j < 8 && i != j && cw >= 0 && ch >= 0
    ensures InsideCanvas(KingSlot(i, cw / 4, ch / 4), cw, ch)
    ensures Disjoint(KingSlot(i, cw / 4, ch / 4), KingSlot(j, cw / 4, ch / 4))
  {
  }

  lemma TopSlotsDisjointInside(i: nat, j: nat, cw: int, ch: int)
    requires i < 8 && j < 8 && i != j && cw >= 0 && ch >= 0
    ensures InsideCanvas(TopSlot(i, cw / 4, ch / 4), cw, ch)
    ensures Disjoint(TopSlot(i, cw / 4, ch / 4), TopSlot(j, cw / 4, ch / 4))
  {
  }

  /** The TOP view uses the KING cells, with the bottom row mirrored. */
  lemma TopMirrorsKingBottomRow(i: nat, w: int, h: int)
    requires i < 8
    ensures 4 <= i ==> TopSlot(i, w, h) == KingSlot(11 - i, w, h)
    ensures i < 4 ==> TopSlot(i, w, h) == KingSlot(i, w, h)
  {
  }

  /** Channels 1..n other than current, ascending: the active_channels that
      fill TOP's small slots. */
  function OtherChannels(current: int, n: nat): (r: seq<int>)
    ensures |r| == if 1 <= current <= n then n - 1 else n
  {
    if n == 0 then []
    else if n == current then OtherChannels(current, n - 1)
    else OtherChannels(current, n - 1) + [n]
  }

  /** Exactly the channels of 1..n other than current, in ascending order. */
  lemma {:induction false} OtherChannelsAscending(current: int, n: nat)
    ensures forall k :: 0 <= k < |OtherChannels(current, n)| ==>
      1 <= OtherChannels(current, n)[k] <= n && OtherChannels(current, n)[k] != current
    ensures forall a, b :: 0 <= a < b < |OtherChannels(current, n)| ==>
      OtherChannels(current, n)[a] < OtherChannels(current, n)[b]
    ensures forall c :: 1 <= c <= n && c != current ==> c in OtherChannels(current, n)
  {
    if n > 0 {
      OtherChannelsAscending(current, n - 1);
      var prev := OtherChannels(current, n - 1);
      if n != current {
        var r := prev + [n];
        assert OtherChannels(current, n) == r;
        assert forall k :: 0 <= k < |prev| ==> r[k] == prev[k];
      }
    }
  }

  /** The k-th (from 1) channel other than current, in ascending order. */
  function OtherChannel(current: int, k: int): int
  {
    if k < current then k else k + 1
  }

  /** OtherChannel picks entry k - 1 of OtherChannels. */
  lemma {:induction false} OtherChannelIndex(current: int, n: nat, k: int)
    requires current >= 1 && 1 <= k <= |OtherChannels(current, n)|
    ensures OtherChannels(current, n)[k - 1] == OtherChannel(current, k)
  {
    if n > 0 {
      var prev := OtherChannels(current, n - 1);
      if k <= |prev| {
        OtherChannelIndex(current, n - 1, k);
        if n != current {
          assert OtherChannels(current, n) == prev + [n];
        }
      }
    }
  }

  /** The current channel followed by the others is a permutation of 1..n. */
  lemma TopOrderIsPermutation(current: int, n: nat)
    requires 1 <= current <= n
    ensures multiset([current] + OtherChannels(current, n)) == multiset(Iota(n))
  {
    OthersMultiset(current, n);
  }

  lemma OthersMultiset(current: int, n: nat)
    ensures 1 <= current <= n ==> multiset(OtherChannels(current, n)) + multiset{current} == multiset(Iota(n))
    ensures !(1 <= current <= n) ==> multiset(OtherChannels(current, n)) == multiset(Iota(n))
  {
    forall x
      ensures multiset(OtherChannels(current, n))[x] + (if 1 <= current <= n && x == current then 1 else 0)
              == multiset(Iota(n))[x]
    {
      OthersCount(current, n, x);
      IotaOnce(n, x);
    }
  }

  /** How often a value occurs among the other channels: once for each of
      1..n but current. */
  lemma {:induction false} OthersCount(current: int, n: nat, x: int)
    ensures multiset(OtherChannels(current, n))[x] == if 1 <= x <= n && x != current then 1 else 0
  {
    if n > 0 {
      OthersCount(current, n - 1, x);
      var prev := OtherChannels(current, n - 1);
      var here := OtherChannels(current, n);
      if n == current {
        assert here == prev;
      } else {
        assert here == prev + [n];
        CountSnoc(prev, n, x);
      }
    }
  }

  /** Appending y adds one occurrence of y and none of anything else. */
  lemma CountSnoc(s: seq<int>, y: int, x: int)
    ensures multiset(s + [y])[x] == multiset(s)[x] + (if x == y then 1 else 0)
  {
    assert multiset(s + [y]) == multiset(s) + multiset{y};
  }

  /** The loop of draw_paint_main_mat_top that builds active_channels. */
  method ActiveChannels(current: int) returns (active: seq<int>)
    ensures active == OtherChannels(current, ChannelCount)
  {
    active := [];
    var i := 1;
    while i <= ChannelCount
      invariant 1 <= i <= ChannelCount + 1
      invariant active == OtherChannels(current, i - 1)
    {
      if i != current {
        active := active + [i];
      }
      i := i + 1;
    }
  }

  /** What slot i of a layout shows and where, before the empty-frame test. */
  function Slot(layout: GridLayout, i: nat, kingChain: seq<int>, current: int, cw: int, ch: int): (p: Placement)
    requires i < ChannelCount && |kingChain| == ChannelCount
  {
    match layout
    case AllGrid => Placement(i + 1, GridTile(i, cw / 3, ch / 3), i + 1 == current)
    case SortGrid => Placement(kingChain[i], GridTile(i, cw / 3, ch / 3), kingChain[i] == current)
    case KingGrid => Placement(kingChain[i], KingSlot(i, cw / 4, ch / 4), i == 0)
    case TopGrid =>
      Placement(if i == 0 then current else OtherChannel(current, i),
                TopSlot(i, cw / 4, ch / 4), i == 0)
  }

  /** Slots 0..n-1 whose channel has a non-empty frame, in slot order;
      hasFrame[c] says whether get_frame(c) is non-empty this iteration. */
  function Placements(layout: GridLayout, n: nat, kingChain: seq<int>, current: int, cw: int, ch: int,
                      hasFrame: seq<bool>): (ps: seq<Placement>)
    requires n <= ChannelCount && |kingChain| == ChannelCount && 1 <= current <= ChannelCount
    ensures |ps| <= n
    ensures forall k :: 0 <= k < |ps| ==> 0 <= ps[k].channel < |hasFrame| && hasFrame[ps[k].channel]
  {
    if n == 0 then []
    else
      var p := Slot(layout, n - 1, kingChain, current, cw, ch);
      var rest := Placements(layout, n - 1, kingChain, current, cw, ch, hasFrame);
      if 0 <= p.channel < |hasFrame| && hasFrame[p.channel] then rest + [p] else rest
  }

  /** One more slot: its placement is appended exactly when its channel
      has a picture. */
  lemma PlacementsStep(layout: GridLayout, n: nat, kingChain: seq<int>, current: int, cw: int, ch: int,
                       hasFrame: seq<bool>)
    requires n < ChannelCount && |kingChain| == ChannelCount && 1 <= current <= ChannelCount
    ensures var p := Slot(layout, n, kingChain, current, cw, ch);
      var rest := Placements(layout, n, kingChain, current, cw, ch, hasFrame);
      Placements(layout, n + 1, kingChain, current, cw, ch, hasFrame)
      == if 0 <= p.channel < |hasFrame| && hasFrame[p.channel] then rest + [p] else rest
  {
  }

  /** Which slots a placement sequence came from: strictly increasing slot
      numbers, so distinct placements come from distinct slots. */
  ghost predicate FromSlots(ps: seq<Placement>, layout: GridLayout, kingChain: seq<int>, current: int,
                            cw: int, ch: int, slots: seq<nat>)
    requires |kingChain| == ChannelCount
  {
    && |slots| == |ps|
    && (forall k :: 0 <= k < |slots| ==>
          (slots[k] < ChannelCount && ps[k] == Slot(layout, slots[k], kingChain, current, cw, ch)))
    && (forall a, b :: 0 <= a < b < |slots| ==> slots[a] < slots[b])
  }

  lemma {:induction false} PlacementsFromSlots(layout: GridLayout, n: nat, kingChain: seq<int>, current: int,
                                               cw: int, ch: int, hasFrame: seq<bool>)
    returns (slots: seq<nat>)
    requires n <= ChannelCount && |kingChain| == ChannelCount && 1 <= current <= ChannelCount
    ensures FromSlots(Placements(layout, n, kingChain, current, cw, ch, hasFrame), layout, kingChain, current, cw, ch, slots)
    ensures forall k :: 0 <= k < |slots| ==> slots[k] < n
  {
    if n == 0 {
      slots := [];
    } else {
      slots := PlacementsFromSlots(layout, n - 1, kingChain, current, cw, ch, hasFrame);
      slots := FromSlotsStep(layout, n - 1, kingChain, current, cw, ch, hasFrame, slots);
    }
  }

  /** Placing one more slot extends the record of where the placements came
      from. */
  lemma FromSlotsStep(layout: GridLayout, j: nat, kingChain: seq<int>, current: int,
                      cw: int, ch: int, hasFrame: seq<bool>, slots: seq<nat>)
    returns (slots': seq<nat>)
    requires j < ChannelCount && |kingChain| == ChannelCount && 1 <= current <= ChannelCount
    requires FromSlots(Placements(layout, j, kingChain, current, cw, ch, hasFrame), layout, kingChain, current, cw, ch, slots)
    requires forall k :: 0 <= k < |slots| ==> slots[k] < j
    ensures FromSlots(Placements(layout, j + 1, kingChain, current, cw, ch, hasFrame), layout, kingChain, current, cw, ch, slots')
    ensures forall k :: 0 <= k < |slots'| ==> slots'[k] < j + 1
  {
    var p := Slot(layout, j, kingChain, current, cw, ch);
    var rest := Placements(layout, j, kingChain, current, cw, ch, hasFrame);
    PlacementsStep(layout, j, kingChain, current, cw, ch, hasFrame);
    slots' := slots;
    if 0 <= p.channel < |hasFrame| && hasFrame[p.channel] {
      FromSlotsSnoc(rest, p, layout, kingChain, current, cw, ch, slots, j);
      slots' := slots + [j];
    }
  }

  /** A placement from a slot after all the earlier ones extends the record. */
  lemma FromSlotsSnoc(ps: seq<Placement>, p: Placement, layout: GridLayout, kingChain: seq<int>, current: int,
                      cw: int, ch: int, slots: seq<nat>, j: nat)
    requires |kingChain| == ChannelCount && j < ChannelCount
    requires FromSlots(ps, layout, kingChain, current, cw, ch, slots)
    requires forall k :: 0 <= k < |slots| ==> slots[k] < j
    requires p == Slot(layout, j, kingChain, current, cw, ch)
    ensures FromSlots(ps + [p], layout, kingChain, current, cw, ch, slots + [j])
  {
    var ps', slots' := ps + [p], slots + [j];
    forall k | 0 <= k < |slots'|
      ensures slots'[k] < ChannelCount && ps'[k] == Slot(layout, slots'[k], kingChain, current, cw, ch)
    {
      if k < |slots| {
        assert ps'[k] == ps[k] && slots'[k] == slots[k];
      }
    }
    forall a, b | 0 <= a < b < |slots'|
      ensures slots'[a] < slots'[b]
    {
      assert slots'[a] == slots[a];
    }
  }

  /** Slots of one layout never overlap and stay on the canvas. */
  lemma SlotsDisjointInside(layout: GridLayout, i: nat, j: nat, kingChain: seq<int>, current: int, cw: int, ch: int)
    requires i < ChannelCount && j < ChannelCount && i != j && |kingChain| == ChannelCount
    requires cw >= 0 && ch >= 0
    ensures InsideCanvas(Slot(layout, i, kingChain, current, cw, ch).at, cw, ch)
    ensures Disjoint(Slot(layout, i, kingChain, current, cw, ch).at, Slot(layout, j, kingChain, current, cw, ch).at)
  {
    match layout
    case AllGrid => GridTilesDisjointInside(i, j, cw, ch);
    case SortGrid => GridTilesDisjointInside(i, j, cw, ch);
    case KingGrid => KingSlotsDisjointInside(i, j, cw, ch);
    case TopGrid => TopSlotsDisjointInside(i, j, cw, ch);
  }

  /** Two different slots never both carry the motion region when the chain
      holds distinct channels. */
  lemma SlotMotionUnique(layout: GridLayout, i: nat, j: nat, kingChain: seq<int>, current: int, cw: int, ch: int)
    requires i < ChannelCount && j < ChannelCount && i != j && |kingChain| == ChannelCount
    requires forall a, b :: 0 <= a < b < ChannelCount ==> kingChain[a] != kingChain[b]
    ensures !(Slot(layout, i, kingChain, current, cw, ch).motionRegion && Slot(layout, j, kingChain, current, cw, ch).motionRegion)
  {
    if layout.SortGrid? && i > j {
      assert kingChain[j] != kingChain[i];
    }
  }

  /** When slot n carries the motion region, none of the placements of the
      slots before it does. */
  lemma MotionFreeBefore(layout: GridLayout, n: nat, kingChain: seq<int>, current: int, cw: int, ch: int,
                         hasFrame: seq<bool>)
    requires n < ChannelCount && |kingChain| == ChannelCount && 1 <= current <= ChannelCount
    requires forall a, b :: 0 <= a < b < ChannelCount ==> kingChain[a] != kingChain[b]
    requires Slot(layout, n, kingChain, current, cw, ch).motionRegion
    ensures forall k :: 0 <= k < |Placements(layout, n, kingChain, current, cw, ch, hasFrame)| ==>
              !Placements(layout, n, kingChain, current, cw, ch, hasFrame)[k].motionRegion
  {
    var ps := Placements(layout, n, kingChain, current, cw, ch, hasFrame);
    var slots := PlacementsFromSlots(layout, n, kingChain, current, cw, ch, hasFrame);
    forall k | 0 <= k < |ps|
      ensures !ps[k].motionRegion
    {
      SlotMotionUnique(layout, slots[k], n, kingChain, current, cw, ch);
    }
  }

  /** What every paint produces: pictures inside the canvas, pairwise
      disjoint, each showing a channel with a frame, and the motion region on
      at most one of them when the chain holds distinct channels. */
  lemma PaintIsSound(layout: GridLayout, kingChain: seq<int>, current: int, cw: int, ch: int, hasFrame: seq<bool>)
    requires |kingChain| == ChannelCount && 1 <= current <= ChannelCount && cw >= 0 && ch >= 0
    requires forall a, b :: 0 <= a < b < ChannelCount ==> kingChain[a] != kingChain[b]
    ensures var ps := Placements(layout, ChannelCount, kingChain, current, cw, ch, hasFrame);
      && (forall k :: 0 <= k < |ps| ==> InsideCanvas(ps[k].at, cw, ch))
      && (forall k :: 0 <= k < |ps| ==> 0 <= ps[k].channel < |hasFrame| && hasFrame[ps[k].channel])
      && (forall a, b :: 0 <= a < b < |ps| ==> Disjoint(ps[a].at, ps[b].at))
      && (forall a, b :: 0 <= a < b < |ps| && ps[a].motionRegion ==> !ps[b].motionRegion)
  {
    var ps := Placements(layout, ChannelCount, kingChain, current, cw, ch, hasFrame);
    var slots := PlacementsFromSlots(layout, ChannelCount, kingChain, current, cw, ch, hasFrame);
    forall k | 0 <= k < |ps|
      ensures InsideCanvas(ps[k].at, cw, ch)
    {
      SlotsDisjointInside(layout, slots[k], (slots[k] + 1) % ChannelCount, kingChain, current, cw, ch);
    }
    forall a, b | 0 <= a < b < |ps|
      ensures Disjoint(ps[a].at, ps[b].at)
      ensures ps[a].motionRegion ==> !ps[b].motionRegion
    {
      SlotsDisjointInside(layout, slots[a], slots[b], kingChain, current, cw, ch);
    }
  }
}
