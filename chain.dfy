/** The king chain of the second C++ detector (src/motion_detector_utils.cpp):
    the eight channels ordered most recently selected first.  move_to_front
    writes the chosen channel and then every other entry into a fresh,
    zero-filled vector of the old length. */
module KingChain {
  import opened Common

  const ChannelCount: nat := 8

  /** v with every occurrence of ch dropped, order kept. */
  function Without(v: seq<int>, ch: int): (r: seq<int>)
    ensures |r| <= |v|
    ensures forall k :: 0 <= k < |r| ==> r[k] != ch
    ensures ch in v ==> |r| < |v|
  {
    if |v| == 0 then []
    else
      var rest := Without(v[..|v| - 1], ch);
      if v[|v| - 1] == ch then rest else rest + [v[|v| - 1]]
  }

  /** The zero fill of a fresh std::vector<int>. */
  function Zeros(n: nat): (z: seq<int>)
    ensures |z| == n && forall k :: 0 <= k < n ==> z[k] == 0
  {
    if n == 0 then [] else Zeros(n - 1) + [0]
  }

  /** move_to_front(ch): ch first, then the others in their old order, in a
      vector of the old length whose unwritten tail keeps its zero fill (when
      ch occurred more than once).  When ch does not occur at all the source
      writes one entry past the end of the vector; the model drops that write. */
  function MoveToFront(v: seq<int>, ch: int): (r: seq<int>)
    ensures |r| == |v|
    ensures |v| > 0 ==> r[0] == ch
  {
    var body := [ch] + Without(v, ch);
    if |body| <= |v| then body + Zeros(|v| - |body|) else body[..|v|]
  }

  /** When ch occurs, its first write and the others fit in the vector. */
  lemma MoveToFrontPresent(v: seq<int>, ch: int)
    requires ch in v
    ensures var w := Without(v, ch);
      |w| < |v| && MoveToFront(v, ch) == [ch] + w + Zeros(|v| - 1 - |w|)
  {
  }

  /** The occurrences of ch are exactly what Without drops. */
  lemma {:induction false} WithoutMultiset(v: seq<int>, ch: int)
    ensures multiset(Without(v, ch)) == multiset(v)[ch := 0]
  {
    if |v| > 0 {
      var init, last := v[..|v| - 1], v[|v| - 1];
      WithoutMultiset(init, ch);
      assert multiset(v) == multiset(init) + multiset{last} by {
        assert v == init + [last];
      }
      if last == ch {
        assert multiset(v)[ch := 0] == multiset(init)[ch := 0];
      } else {
        assert multiset(Without(v, ch)) == multiset(Without(init, ch)) + multiset{last};
        assert multiset(v)[ch := 0] == multiset(init)[ch := 0] + multiset{last};
      }
    }
  }

  /** The chain invariant: eight entries among which every channel 1..8
      occurs; by counting, a permutation of the channels (ChainIsPermutation). */
  ghost predicate IsChain(v: seq<int>)
  {
    |v| == ChannelCount && forall c :: 1 <= c <= ChannelCount ==> c in v
  }

  /** n entries among which each of 1..n occurs are exactly a permutation of
      1..n, and every permutation of 1..n has that shape. */
  lemma CoversIffPermutation(v: seq<int>, n: nat)
    ensures (|v| == n && forall c :: 1 <= c <= n ==> c in v) <==> multiset(v) == multiset(Iota(n))
  {
    var m := multiset(Iota(n));
    var mv := multiset(v);
    assert |m| == n;
    if |v| == n && forall c :: 1 <= c <= n ==> c in v {
      forall x
        ensures m[x] <= mv[x]
      {
        IotaOnce(n, x);
        if 1 <= x <= n {
          assert x in v;
        }
      }
      var d := mv - m;
      assert m + d == mv;
      assert |d| == 0;
      assert d == multiset{};
    }
    if mv == m {
      assert |v| == |mv| == n;
      forall c | 1 <= c <= n
        ensures c in v
      {
        IotaOnce(n, c);
        assert mv[c] == 1;
      }
    }
  }

  /** Eight entries covering the eight channels are exactly a permutation of
      1..8, and every permutation of 1..8 is a chain. */
  lemma ChainIsPermutation(v: seq<int>)
    ensures IsChain(v) <==> multiset(v) == multiset(Iota(ChannelCount))
  {
    CoversIffPermutation(v, ChannelCount);
  }

  /** A chain holds eight distinct channels, each in 1..8. */
  lemma ChainShape(v: seq<int>)
    requires IsChain(v)
    ensures forall k :: 0 <= k < |v| ==> 1 <= v[k] <= ChannelCount
    ensures forall a, b :: 0 <= a < b < |v| ==> v[a] != v[b]
  {
    CoverShape(v, ChannelCount);
  }

  /** n entries covering 1..n are n distinct values of 1..n. */
  lemma CoverShape(v: seq<int>, n: nat)
    requires |v| == n && forall c :: 1 <= c <= n ==> c in v
    ensures forall k :: 0 <= k < |v| ==> 1 <= v[k] <= n
    ensures forall a, b :: 0 <= a < b < |v| ==> v[a] != v[b]
  {
    CoversIffPermutation(v, n);
    forall k | 0 <= k < |v|
      ensures 1 <= v[k] <= n
    {
      assert v[k] in multiset(v);
      IotaOnce(n, v[k]);
    }
    forall a, b | 0 <= a < b < |v|
      ensures v[a] != v[b]
    {
      if v[a] == v[b] {
        TwiceCounted(v, a, b);
        IotaOnce(n, v[a]);
      }
    }
  }

  /** An entry found at two positions is counted at least twice. */
  lemma TwiceCounted(v: seq<int>, a: nat, b: nat)
    requires a < b < |v| && v[a] == v[b]
    ensures multiset(v)[v[a]] >= 2
  {
    var x := v[a];
    assert v == v[..a] + [x] + v[a + 1..b] + [x] + v[b + 1..];
    assert multiset(v) == multiset(v[..a]) + multiset{x} + multiset(v[a + 1..b]) + multiset{x} + multiset(v[b + 1..]);
  }

  /** On a chain, ch occurs once, so no zero fill is left over. */
  lemma ChainMoveIsExact(v: seq<int>, ch: int)
    requires IsChain(v) && 1 <= ch <= ChannelCount
    ensures ch in v && MoveToFront(v, ch) == [ch] + Without(v, ch)
    ensures multiset(v) == multiset(Without(v, ch)) + multiset{ch}
  {
    CoverMoveIsExact(v, ch, ChannelCount);
  }

  /** ChainMoveIsExact for a cover of 1..n. */
  lemma CoverMoveIsExact(v: seq<int>, ch: int, n: nat)
    requires |v| == n && (forall c :: 1 <= c <= n ==> c in v) && 1 <= ch <= n
    ensures ch in v && MoveToFront(v, ch) == [ch] + Without(v, ch)
    ensures multiset(v) == multiset(Without(v, ch)) + multiset{ch}
  {
    CoversIffPermutation(v, n);
    IotaOnce(n, ch);
    WithoutMultiset(v, ch);
    var w := Without(v, ch);
    assert multiset(v)[ch] == 1;
    assert multiset(v) == multiset(w) + multiset{ch};
    assert |w| == |v| - 1 by {
      assert |multiset(w)| == |multiset(v)| - 1;
    }
    MoveToFrontPresent(v, ch);
    assert Zeros(|v| - 1 - |w|) == [];
  }

  /** On a chain, move_to_front keeps a chain, puts ch at the head, keeps the
      others in their relative order, and a repeat changes nothing. */
  lemma MoveToFrontKeepsChain(v: seq<int>, ch: int)
    requires IsChain(v) && 1 <= ch <= ChannelCount
    ensures ch in v
    ensures IsChain(MoveToFront(v, ch))
    ensures MoveToFront(v, ch) == [ch] + Without(v, ch)
    ensures Without(MoveToFront(v, ch), ch) == Without(v, ch)
    ensures MoveToFront(MoveToFront(v, ch), ch) == MoveToFront(v, ch)
  {
    ChainMoveIsExact(v, ch);
    var w := Without(v, ch);
    var r := [ch] + w;
    forall c | 1 <= c <= ChannelCount
      ensures c in r
    {
      if c != ch {
        assert c in v;
        assert multiset(v)[c] > 0;
        assert multiset(w)[c] == multiset(v)[c];
      }
    }
    assert |r| == |MoveToFront(v, ch)| == |v|;
    assert IsChain(r);
    WithoutPrepend(w, ch);
    ChainMoveIsExact(r, ch);
  }

  /** Dropping ch from [ch] + w, where w has no ch, gives w back. */
  lemma WithoutPrepend(w: seq<int>, ch: int)
    requires ch !in w
    ensures Without([ch] + w, ch) == w
    ensures Without(w, ch) == w
  {
    WithoutAppend([ch], w, ch);
    assert Without([ch], ch) == [] by {
      assert [ch][..0] == [];
    }
    WithoutAbsent(w, ch);
  }

  /** Without of a sequence without ch is the identity. */
  lemma {:induction false} WithoutAbsent(w: seq<int>, ch: int)
    requires ch !in w
    ensures Without(w, ch) == w
  {
    if |w| > 0 {
      var init := w[..|w| - 1];
      assert ch !in init;
      WithoutAbsent(init, ch);
      assert w == init + [w[|w| - 1]];
    }
  }

  /** Without distributes over concatenation. */
  lemma {:induction false} WithoutAppend(a: seq<int>, b: seq<int>, ch: int)
    ensures Without(a + b, ch) == Without(a, ch) + Without(b, ch)
  {
    if |b| == 0 {
      assert a + b == a;
    } else {
      var init := b[..|b| - 1];
      WithoutAppend(a, init, ch);
      assert (a + b)[..|a + b| - 1] == a + init;
    }
  }

  /** One more element of the prefix: Without extends by it unless it is ch. */
  lemma WithoutSnoc(v: seq<int>, ch: int, i: nat)
    requires i < |v|
    ensures Without(v[..i + 1], ch) == if v[i] == ch then Without(v[..i], ch) else Without(v[..i], ch) + [v[i]]
  {
    assert v[..i + 1][..i] == v[..i];
  }

  /** The source's loop: new_vec[x++] = ch, then every other value in order. */
  method MoveToFrontLoop(vec: seq<int>, ch: int) returns (r: seq<int>)
    requires ch in vec
    ensures r == MoveToFront(vec, ch)
  {
    ghost var p :| 0 <= p < |vec| && vec[p] == ch;
    var newVec := Zeros(|vec|);
    var x := 0;
    newVec := newVec[x := ch];
    x := x + 1;
    var i := 0;
    assert vec[..0] == [];
    while i < |vec|
      invariant Filling(vec, ch, p, i, newVec, x)
    {
      var value := vec[i];
      FillingStep(vec, ch, p, i, newVec, x);
      if value != ch {
        newVec := newVec[x := value];
        x := x + 1;
      }
      i := i + 1;
    }
    assert vec[..|vec|] == vec;
    r := newVec;
    FilledIsMoveToFront(vec, ch, r, x);
  }

  /** The loop's state after i entries: ch and the others so far written,
      zeros after them, and room left for the rest. */
  ghost predicate Filling(vec: seq<int>, ch: int, p: int, i: int, newVec: seq<int>, x: int)
  {
    && 0 <= p < |vec| && vec[p] == ch
    && 0 <= i <= |vec| && |newVec| == |vec|
    && x == 1 + |Without(vec[..i], ch)|
    && x <= i + 1 && (p < i ==> x <= i)
    && newVec[..x] == [ch] + Without(vec[..i], ch)
    && (forall k :: x <= k < |vec| ==> newVec[k] == 0)
  }

  /** One turn of the loop keeps the state. */
  lemma FillingStep(vec: seq<int>, ch: int, p: int, i: int, newVec: seq<int>, x: int)
    requires Filling(vec, ch, p, i, newVec, x) && i < |vec|
    ensures vec[i] != ch ==> x < |newVec| && Filling(vec, ch, p, i + 1, newVec[x := vec[i]], x + 1)
    ensures vec[i] == ch ==> Filling(vec, ch, p, i + 1, newVec, x)
  {
    WithoutSnoc(vec, ch, i);
    if vec[i] != ch {
      WriteExtendsPrefix(newVec, x, vec[i]);
    }
  }

  /** Writing slot x of a vector extends its first x entries by the value
      and leaves the later entries alone. */
  lemma WriteExtendsPrefix(a: seq<int>, x: nat, value: int)
    requires x < |a|
    ensures a[x := value][..x + 1] == a[..x] + [value]
    ensures forall k :: x < k < |a| ==> a[x := value][k] == a[k]
  {
  }

  /** The vector the loop leaves: ch and the others written, zeros after. */
  lemma FilledIsMoveToFront(vec: seq<int>, ch: int, r: seq<int>, x: nat)
    requires ch in vec && |r| == |vec| && x <= |r|
    requires r[..x] == [ch] + Without(vec, ch)
    requires forall k :: x <= k < |r| ==> r[k] == 0
    ensures r == MoveToFront(vec, ch)
  {
    MoveToFrontPresent(vec, ch);
    assert r[x..] == Zeros(|vec| - x);
    assert r == r[..x] + r[x..];
  }
}
