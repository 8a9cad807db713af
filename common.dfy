/** Shared vocabulary of the motion-following kiosk: rectangles, points, the
    (contourArea, boundingRect) pairs that the foreign contour finder hands
    over, the fixed frame constants and C-style integer division. */
module Common {

  datatype Option<T> = None | Some(value: T)

  datatype Error = InvalidArgument | OutOfRange
  datatype Result<T> = Ok(value: T) | Err(error: Error)

  /** cv::Point */
  datatype Point = Point(x: int, y: int)

  /** cv::Rect: top-left origin plus size. */
  datatype Rect = Rect(x: int, y: int, w: int, h: int)

  /** One external contour as the region extractor sees it: its polygon area
      (cv::contourArea, a double) and its cv::boundingRect. */
  datatype Contour = Contour(area: real, rect: Rect)

  /** Native size of the motion-detection stream (channel 0). */
  const W0: int := 704
  const H0: int := 576

  /** Crop used by the Python prototypes and the first C++ detector. */
  const CropWidth: int := 704
  const CropHeight: int := 384

  function RectArea(r: Rect): int { r.w * r.h }

  /** r lies inside the canvas [0, cw) x [0, ch). */
  predicate InsideCanvas(r: Rect, cw: int, ch: int)
  {
    0 <= r.x && 0 <= r.y && r.x + r.w <= cw && r.y + r.h <= ch
  }

  /** Two rectangles share no pixel. */
  predicate Disjoint(a: Rect, b: Rect)
  {
    a.x + a.w <= b.x || b.x + b.w <= a.x || a.y + a.h <= b.y || b.y + b.h <= a.y
  }

  /** Pixel (px, py) is covered by r. */
  predicate Covers(r: Rect, px: int, py: int)
  {
    r.x <= px < r.x + r.w && r.y <= py < r.y + r.h
  }

  /** C/C++ integer division: truncates toward zero. */
  function CDiv(a: int, b: int): (q: int)
    requires b > 0
    ensures a >= 0 ==> q == a / b
    ensures a < 0 ==> q == -((-a) / b)
  {
    if a >= 0 then a / b else -((-a) / b)
  }

  /** C/C++ remainder: takes the sign of the dividend. */
  function CMod(a: int, b: int): (r: int)
    requires b > 0
    ensures a == CDiv(a, b) * b + r
    ensures a >= 0 ==> 0 <= r < b
    ensures a < 0 ==> -b < r <= 0
  {
    if a >= 0 then a % b else -((-a) % b)
  }

  function Max(a: int, b: int): int { if a >= b then a else b }
  function Min(a: int, b: int): int { if a <= b then a else b }

  /** The channels 1..n in ascending order. */
  function Iota(n: nat): (s: seq<int>)
    ensures |s| == n
    ensures forall i :: 0 <= i < n ==> s[i] == i + 1
  {
    if n == 0 then [] else Iota(n - 1) + [n]
  }

  /** Each of 1..n occurs once in Iota(n). */
  lemma {:induction false} IotaOnce(n: nat, ch: int)
    ensures multiset(Iota(n))[ch] == if 1 <= ch <= n then 1 else 0
  {
    if n > 0 {
      IotaOnce(n - 1, ch);
      var before := multiset(Iota(n - 1))[ch];
      assert multiset(Iota(n))[ch] == before + (if ch == n then 1 else 0) by {
        assert multiset(Iota(n)) == multiset(Iota(n - 1)) + multiset{n};
      }
    }
  }
}
