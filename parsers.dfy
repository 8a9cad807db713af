/** The detector's text options: the focus area "XxY;WxH", the ignore
    contours "AxB,CxD;ExF,..." and the alarm pixels "AxB;CxD;...", with the
    printers that echo them back as command-line text. */
module Parsers {
  import opened Common
  import opened Decimal

  /** std::string::find(c): the first index of c, None for npos. */
  function Find(s: string, c: char): (r: Option<nat>)
    ensures r.None? <==> c !in s
    ensures r.Some? ==> r.value < |s| && s[r.value] == c && c !in s[..r.value]
  {
    if s == [] then None
    else if s[0] == c then Some(0)
    else
      match Find(s[1..], c)
      case None => None
      case Some(i) =>
        assert s[..i + 1] == [s[0]] + s[1..][..i];
        Some(i + 1)
  }

  /** Find stops at a separator that only follows separator-free text. */
  lemma FindAfter(p: string, c: char, rest: string)
    requires c !in p
    ensures Find(p + [c] + rest, c) == Some(|p|)
  {
    var s := p + [c] + rest;
    assert s[|p|] == c;
    assert forall k :: 0 <= k < |p| ==> s[k] == p[k];
  }

  /** s.substr(0, pos), where npos takes the whole string. */
  function Before(s: string, pos: Option<nat>): string
    requires pos.Some? ==> pos.value < |s|
  {
    if pos.None? then s else s[..pos.value]
  }

  /** s.substr(pos + 1): npos + 1 wraps round to 0, so npos takes the whole
      string as well. */
  function After(s: string, pos: Option<nat>): string
    requires pos.Some? ==> pos.value < |s|
  {
    if pos.None? then s else s[pos.value + 1..]
  }

  // ---------------------------------------------------------------------
  // The focus area

  /** parse_area: "XxY;WxH" to (X, Y, W, H), each field read by std::stol.
      A missing ';' or 'x' makes both halves the same text. */
  function ParseArea(input: string): (r: Result<Rect>)
    ensures r.Ok? ==> LongMin <= r.value.x <= LongMax && LongMin <= r.value.y <= LongMax
                      && LongMin <= r.value.w <= LongMax && LongMin <= r.value.h <= LongMax
    ensures r.Ok? && ';' !in input ==> r.value.w == r.value.x && r.value.h == r.value.y
  {
    var semi := Find(input, ';');
    var first := Before(input, semi);
    var second := After(input, semi);
    var x1 := Find(first, 'x');
    var x2 := Find(second, 'x');
    var x := Stol(Before(first, x1));
    var y := Stol(After(first, x1));
    var w := Stol(Before(second, x2));
    var h := Stol(After(second, x2));
    if x.Err? then Err(x.error)
    else if y.Err? then Err(y.error)
    else if w.Err? then Err(w.error)
    else if h.Err? then Err(h.error)
    else Ok(Rect(x.value, y.value, w.value, h.value))
  }

  /** The text that names an area. */
  function AreaText(r: Rect): string
  {
    IntToString(r.x) + "x" + IntToString(r.y) + ";" + IntToString(r.w) + "x" + IntToString(r.h)
  }

  /** Text without 'x' or ';' in it. */
  lemma NumberHasNoSeparators(i: int)
    ensures 'x' !in IntToString(i) && ';' !in IntToString(i) && ',' !in IntToString(i)
  {
  }

  /** Cutting a + [c] + b at its first c gives a and b back. */
  lemma CutAt(a: string, c: char, b: string)
    requires c !in a
    ensures var s := a + [c] + b;
      Find(s, c) == Some(|a|) && Before(s, Find(s, c)) == a && After(s, Find(s, c)) == b
  {
    FindAfter(a, c, b);
    var s := a + [c] + b;
    assert s[..|a|] == a && s[|a| + 1..] == b;
  }

  /** parse_area reads back every area whose fields fit in a long. */
  lemma ParseAreaRoundTrip(r: Rect)
    requires LongMin <= r.x <= LongMax && LongMin <= r.y <= LongMax
    requires LongMin <= r.w <= LongMax && LongMin <= r.h <= LongMax
    ensures ParseArea(AreaText(r)) == Ok(r)
  {
    var sx, sy, sw, sh := IntToString(r.x), IntToString(r.y), IntToString(r.w), IntToString(r.h);
    NumberHasNoSeparators(r.x);
    NumberHasNoSeparators(r.y);
    NumberHasNoSeparators(r.w);
    NumberHasNoSeparators(r.h);
    var first := sx + ['x'] + sy;
    var second := sw + ['x'] + sh;
    var s := AreaText(r);
    assert s == first + [';'] + second;
    CutAt(first, ';', second);
    CutAt(sx, 'x', sy);
    CutAt(sw, 'x', sh);
    StolOfIntToString(r.x);
    StolOfIntToString(r.y);
    StolOfIntToString(r.w);
    StolOfIntToString(r.h);
  }

  /** A bare number is read as a square area at the same corner: without
      ';' both halves are the whole text, and without 'x' both fields are. */
  lemma ParseAreaOfNumber(i: int)
    requires LongMin <= i <= LongMax
    ensures ParseArea(IntToString(i)) == Ok(Rect(i, i, i, i))
  {
    NumberHasNoSeparators(i);
    StolOfIntToString(i);
  }

  // ---------------------------------------------------------------------
  // Splitting

  /** s.rfind(c): the last index of c, None for npos. */
  function FindLast(s: string, c: char): (r: Option<nat>)
    ensures r.None? <==> c !in s
    ensures r.Some? ==> r.value < |s| && s[r.value] == c && c !in s[r.value + 1..]
  {
    if s == [] then None
    else if s[|s| - 1] == c then Some(|s| - 1)
    else
      var r := FindLast(s[..|s| - 1], c);
      assert s == s[..|s| - 1] + [s[|s| - 1]];
      if r.Some? then
        assert s[r.value + 1..] == s[..|s| - 1][r.value + 1..] + [s[|s| - 1]];
        r
      else r
  }

  /** Every piece of s between separators d, empty ones included; there is
      always at least one. */
  function Pieces(s: string, d: char): (parts: seq<string>)
    ensures |parts| >= 1
    ensures forall k :: 0 <= k < |parts| ==> d !in parts[k]
    decreases |s|
  {
    match FindLast(s, d)
    case None => [s]
    case Some(j) => Pieces(s[..j], d) + [s[j + 1..]]
  }

  /** The tokens std::getline(stream, token, d) yields in turn: the pieces
      between separators, except that a final separator does not start an
      empty token and an empty text yields none. */
  function Split(s: string, d: char): (parts: seq<string>)
    ensures forall k :: 0 <= k < |parts| ==> d !in parts[k]
    ensures s == [] <==> parts == []
  {
    if s == [] then []
    else if s[|s| - 1] == d then Pieces(s[..|s| - 1], d)
    else Pieces(s, d)
  }

  /** Cutting a + [c] + b at its last c gives a and b back. */
  lemma {:induction false} CutAtLast(a: string, c: char, b: string)
    requires c !in b
    ensures FindLast(a + [c] + b, c) == Some(|a|)
    ensures (a + [c] + b)[..|a|] == a && (a + [c] + b)[|a| + 1..] == b
  {
    var s := a + [c] + b;
    if b != [] {
      var b' := b[..|b| - 1];
      assert s[..|s| - 1] == a + [c] + b';
      CutAtLast(a, c, b');
    }
  }

  // ---------------------------------------------------------------------
  // Points, ignore contours and alarm pixels

  /** One "AxB" token: None when it has no 'x', else the point with both
      fields read by std::stoi. */
  function PointOf(tok: string): (r: Result<Option<Point>>)
    ensures r == Ok(None) <==> 'x' !in tok
  {
    match Find(tok, 'x')
    case None => Ok(None)
    case Some(i) =>
      var x := Stoi(tok[..i]);
      var y := Stoi(tok[i + 1..]);
      if x.Err? then Err(x.error)
      else if y.Err? then Err(y.error)
      else Ok(Some(Point(x.value, y.value)))
  }

  /** The getline loop over a run of tokens: each token read in turn, the
      ones read as None skipped, the first error thrown out of the loop. */
  function Collect<T>(toks: seq<string>, read: string -> Result<Option<T>>): (r: Result<seq<T>>)
    ensures r.Ok? ==> |r.value| <= |toks|
  {
    if toks == [] then Ok([])
    else
      match Collect(toks[..|toks| - 1], read)
      case Err(e) => Err(e)
      case Ok(xs) =>
        match read(toks[|toks| - 1])
        case Err(e) => Err(e)
        case Ok(None) => Ok(xs)
        case Ok(Some(x)) => Ok(xs + [x])
  }

  /** The points of a run of "AxB" tokens. */
  function PointsOf(toks: seq<string>): Result<seq<Point>>
  {
    Collect(toks, PointOf)
  }

  /** One ';' token of the ignore contours: its ',' tokens read as points,
      None for a contour without points. */
  function ContourOf(tok: string): (r: Result<Option<seq<Point>>>)
    ensures r.Ok? && r.value.Some? ==> r.value.value != []
  {
    match PointsOf(Split(tok, ','))
    case Err(e) => Err(e)
    case Ok(c) => if c == [] then Ok(None) else Ok(Some(c))
  }

  /** The contours of a run of ';' tokens. */
  function ContoursOf(toks: seq<string>): Result<seq<seq<Point>>>
  {
    Collect(toks, ContourOf)
  }

  /** Once a prefix of the tokens throws, the rest is never read. */
  lemma {:induction false} CollectErrorStops<T>(toks: seq<string>, read: string -> Result<Option<T>>, i: nat)
    requires i <= |toks| && Collect(toks[..i], read).Err?
    ensures Collect(toks, read) == Collect(toks[..i], read)
  {
    if i < |toks| {
      assert toks[..|toks| - 1][..i] == toks[..i];
      CollectErrorStops(toks[..|toks| - 1], read, i);
    } else {
      assert toks[..i] == toks;
    }
  }

  /** Every value read is kept, in order. */
  lemma {:induction false} CollectKeepsEveryValue<T>(toks: seq<string>, read: string -> Result<Option<T>>, xs: seq<T>)
    requires |toks| == |xs| && forall k :: 0 <= k < |toks| ==> read(toks[k]) == Ok(Some(xs[k]))
    ensures Collect(toks, read) == Ok(xs)
  {
    var n := |toks|;
    if n > 0 {
      CollectKeepsEveryValue(toks[..n - 1], read, xs[..n - 1]);
      assert xs[..n - 1] + [xs[n - 1]] == xs;
    }
  }

  /** An empty contour is dropped: every contour read has a point. */
  lemma {:induction false} ContoursAreNonEmpty(toks: seq<string>)
    ensures ContoursOf(toks).Ok? ==> forall k :: 0 <= k < |ContoursOf(toks).value| ==> ContoursOf(toks).value[k] != []
  {
    if toks != [] {
      ContoursAreNonEmpty(toks[..|toks| - 1]);
    }
  }

  /** The inner getline loop: the points of one contour (or of the alarm
      pixel list), throwing on the first bad field. */
  method ParsePoints(toks: seq<string>) returns (r: Result<seq<Point>>)
    ensures r == PointsOf(toks)
  {
    var points: seq<Point> := [];
    var i := 0;
    while i < |toks|
      invariant 0 <= i <= |toks|
      invariant Collect(toks[..i], PointOf) == Ok(points)
    {
      assert toks[..i + 1][..i] == toks[..i];
      var p := PointOf(toks[i]);
      if p.Err? {
        CollectErrorStops(toks, PointOf, i + 1);
        return Err(p.error);
      }
      if p.value.Some? {
        points := points + [p.value.value];
      }
      i := i + 1;
    }
    assert toks[..i] == toks;
    return Ok(points);
  }

  /** parse_ignore_contours: the new ignore contours, or the exception
      std::stoi throws (the stored contours are then left as they were). */
  method ParseIgnoreContours(input: string) returns (r: Result<seq<seq<Point>>>)
    ensures r == ContoursOf(Split(input, ';'))
  {
    var toks := Split(input, ';');
    var contours: seq<seq<Point>> := [];
    var i := 0;
    while i < |toks|
      invariant 0 <= i <= |toks|
      invariant Collect(toks[..i], ContourOf) == Ok(contours)
    {
      assert toks[..i + 1][..i] == toks[..i];
      var contour := ParsePoints(Split(toks[i], ','));
      if contour.Err? {
        CollectErrorStops(toks, ContourOf, i + 1);
        return Err(contour.error);
      }
      if contour.value != [] {
        contours := contours + [contour.value];
      }
      i := i + 1;
    }
    assert toks[..i] == toks;
    return Ok(contours);
  }

  /** parse_alarm_pixels: points separated by ';'. */
  method ParseAlarmPixels(input: string) returns (r: Result<seq<Point>>)
    ensures r == PointsOf(Split(input, ';'))
  {
    r := ParsePoints(Split(input, ';'));
  }

  // ---------------------------------------------------------------------
  // Printing

  /** How a point is printed. */
  function PointText(p: Point): string
  {
    IntToString(p.x) + "x" + IntToString(p.y)
  }

  /** Points printed with sep between two of them. */
  function PointsText(ps: seq<Point>, sep: char): (t: string)
    ensures t == [] <==> ps == []
    ensures |t| >= 4 * |ps| - 1
  {
    if |ps| == 0 then []
    else if |ps| == 1 then PointText(ps[0])
    else PointsText(ps[..|ps| - 1], sep) + [sep] + PointText(ps[|ps| - 1])
  }

  /** Contours printed with ';' between two of them, each with its points
      separated by ','. */
  function ContoursText(ics: seq<seq<Point>>): (t: string)
    ensures |t| >= |ics| - 1
    ensures (forall k :: 0 <= k < |ics| ==> ics[k] != []) ==> |t| >= 4 * |ics| - 1
  {
    if |ics| == 0 then []
    else if |ics| == 1 then PointsText(ics[0], ',')
    else ContoursText(ics[..|ics| - 1]) + [';'] + PointsText(ics[|ics| - 1], ',')
  }

  lemma PointsTextSnoc(ps: seq<Point>, sep: char, i: nat)
    requires i < |ps|
    ensures PointsText(ps[..i + 1], sep)
      == if i == 0 then PointText(ps[i]) else PointsText(ps[..i], sep) + [sep] + PointText(ps[i])
  {
    assert ps[..i + 1][..i] == ps[..i];
  }

  lemma ContoursTextSnoc(ics: seq<seq<Point>>, i: nat)
    requires i < |ics|
    ensures ContoursText(ics[..i + 1])
      == if i == 0 then PointsText(ics[i], ',') else ContoursText(ics[..i]) + [';'] + PointsText(ics[i], ',')
  {
    assert ics[..i + 1][..i] == ics[..i];
  }

  lemma ContoursTextStep(ics: seq<seq<Point>>, i: nat, text: string, contour: string)
    requires i < |ics| && contour == PointsText(ics[i], ',')
    requires text == ContoursText(ics[..i]) + (if 0 < i then [';'] else [])
    ensures text + contour == ContoursText(ics[..i + 1])
  {
    ContoursTextSnoc(ics, i);
  }

  /** The inner printing loop: points with sep between two of them. */
  method PrintPoints(ps: seq<Point>, sep: char) returns (text: string)
    ensures text == PointsText(ps, sep)
  {
    text := [];
    var i := 0;
    while i < |ps|
      invariant 0 <= i <= |ps|
      invariant text == PointsText(ps[..i], sep) + (if 0 < i < |ps| then [sep] else [])
    {
      PointsTextSnoc(ps, sep, i);
      text := text + PointText(ps[i]);
      assert text == PointsText(ps[..i + 1], sep);
      if i != |ps| - 1 {
        text := text + [sep];
      }
      i := i + 1;
    }
    assert ps[..i] == ps;
  }

  /** print_ignore_contours, returning the text between the quotes. */
  method PrintIgnoreContours(ics: seq<seq<Point>>) returns (text: string)
    ensures text == ContoursText(ics)
  {
    text := [];
    var i := 0;
    while i < |ics|
      invariant 0 <= i <= |ics|
      invariant i < |ics| ==> text == ContoursText(ics[..i]) + (if 0 < i then [';'] else [])
      invariant i == |ics| ==> text == ContoursText(ics[..i])
    {
      var contour := PrintPoints(ics[i], ',');
      ContoursTextStep(ics, i, text, contour);
      text := text + contour;
      if i != |ics| - 1 {
        text := text + [';'];
      }
      i := i + 1;
    }
    assert ics[..i] == ics;
  }

  // ---------------------------------------------------------------------
  // Round trips

  predicate IntPoint(p: Point)
  {
    IntMin <= p.x <= IntMax && IntMin <= p.y <= IntMax
  }

  /** Only digits, '-', 'x' and the separators used occur in printed text. */
  predicate Foreign(c: char)
  {
    c != 'x' && c != '-' && !IsDigit(c)
  }

  lemma PointTextShape(p: Point)
    ensures forall c :: Foreign(c) ==> c !in PointText(p)
    ensures |PointText(p)| > 0 && IsDigit(PointText(p)[|PointText(p)| - 1])
  {
    var sx, sy := IntToString(p.x), IntToString(p.y);
    assert PointText(p) == sx + ['x'] + sy;
    assert PointText(p)[|PointText(p)| - 1] == sy[|sy| - 1];
  }

  lemma {:induction false} PointsTextShape(ps: seq<Point>, sep: char)
    requires ps != []
    ensures forall c :: Foreign(c) && c != sep ==> c !in PointsText(ps, sep)
    ensures |PointsText(ps, sep)| > 0 && IsDigit(PointsText(ps, sep)[|PointsText(ps, sep)| - 1])
  {
    var n := |ps|;
    PointTextShape(ps[n - 1]);
    if n > 1 {
      PointsTextShape(ps[..n - 1], sep);
    }
  }

  lemma SepNotInPointText(p: Point, sep: char)
    requires Foreign(sep)
    ensures sep !in PointText(p)
  {
    PointTextShape(p);
  }

  /** Every printed point is read back. */
  lemma PointRoundTrip(p: Point)
    requires IntPoint(p)
    ensures PointOf(PointText(p)) == Ok(Some(p))
  {
    var sx, sy := IntToString(p.x), IntToString(p.y);
    NumberHasNoSeparators(p.x);
    assert PointText(p) == sx + ['x'] + sy;
    CutAt(sx, 'x', sy);
    StoiOfIntToString(p.x);
    StoiOfIntToString(p.y);
  }

  /** Tokens joined with sep between two of them. */
  function Join(ts: seq<string>, sep: char): string
  {
    if |ts| == 0 then []
    else if |ts| == 1 then ts[0]
    else Join(ts[..|ts| - 1], sep) + [sep] + ts[|ts| - 1]
  }

  /** Cutting the join of separator-free tokens gives the tokens back. */
  lemma {:induction false} PiecesOfJoin(ts: seq<string>, sep: char)
    requires ts != [] && forall k :: 0 <= k < |ts| ==> sep !in ts[k]
    ensures Pieces(Join(ts, sep), sep) == ts
  {
    var n := |ts|;
    if n == 1 {
      assert Pieces(ts[0], sep) == [ts[0]];
    } else {
      var init := Join(ts[..n - 1], sep);
      PiecesOfJoin(ts[..n - 1], sep);
      CutAtLast(init, sep, ts[n - 1]);
      assert ts[..n - 1] + [ts[n - 1]] == ts;
    }
  }

  /** The printed text of each point. */
  function PointTexts(ps: seq<Point>): (ts: seq<string>)
    ensures |ts| == |ps|
  {
    if ps == [] then [] else PointTexts(ps[..|ps| - 1]) + [PointText(ps[|ps| - 1])]
  }

  lemma {:induction false} PointTextsAt(ps: seq<Point>, k: nat)
    requires k < |ps|
    ensures PointTexts(ps)[k] == PointText(ps[k])
  {
    if k < |ps| - 1 {
      PointTextsAt(ps[..|ps| - 1], k);
    }
  }

  lemma {:induction false} PointsTextIsJoin(ps: seq<Point>, sep: char)
    ensures PointsText(ps, sep) == Join(PointTexts(ps), sep)
  {
    var n := |ps|;
    if n > 1 {
      PointsTextIsJoin(ps[..n - 1], sep);
    }
  }

  /** Points printed with a separator that no number contains are parsed
      back from the pieces of the text. */
  lemma PointsRoundTrip(ps: seq<Point>, sep: char)
    requires ps != [] && Foreign(sep)
    requires forall k :: 0 <= k < |ps| ==> IntPoint(ps[k])
    ensures PointsOf(Pieces(PointsText(ps, sep), sep)) == Ok(ps)
  {
    var ts := PointTexts(ps);
    forall k | 0 <= k < |ts|
      ensures sep !in ts[k] && PointOf(ts[k]) == Ok(Some(ps[k]))
    {
      PointTextsAt(ps, k);
      PointRoundTrip(ps[k]);
      SepNotInPointText(ps[k], sep);
    }
    PointsTextIsJoin(ps, sep);
    PiecesOfJoin(ts, sep);
    CollectKeepsEveryValue(ts, PointOf, ps);
  }

  /** A non-empty printed contour is split on ',' into its point texts. */
  lemma ContourSplits(c: seq<Point>)
    requires c != [] && forall k :: 0 <= k < |c| ==> IntPoint(c[k])
    ensures PointsOf(Split(PointsText(c, ','), ',')) == Ok(c)
  {
    PointsTextShape(c, ',');
    PointsRoundTrip(c, ',');
  }

  /** The printed text of each contour. */
  function ContourTexts(ics: seq<seq<Point>>): (ts: seq<string>)
    ensures |ts| == |ics|
  {
    if ics == [] then [] else ContourTexts(ics[..|ics| - 1]) + [PointsText(ics[|ics| - 1], ',')]
  }

  lemma {:induction false} ContourTextsAt(ics: seq<seq<Point>>, k: nat)
    requires k < |ics|
    ensures ContourTexts(ics)[k] == PointsText(ics[k], ',')
  {
    if k < |ics| - 1 {
      ContourTextsAt(ics[..|ics| - 1], k);
    }
  }

  lemma {:induction false} ContoursTextIsJoin(ics: seq<seq<Point>>)
    ensures ContoursText(ics) == Join(ContourTexts(ics), ';')
  {
    var n := |ics|;
    if n > 1 {
      ContoursTextIsJoin(ics[..n - 1]);
    }
  }

  lemma ContoursRoundTrip(ics: seq<seq<Point>>)
    requires ics != []
    requires forall k :: 0 <= k < |ics| ==> ics[k] != []
    requires forall k, j :: 0 <= k < |ics| && 0 <= j < |ics[k]| ==> IntPoint(ics[k][j])
    ensures ContoursOf(Pieces(ContoursText(ics), ';')) == Ok(ics)
  {
    var ts := ContourTexts(ics);
    forall k | 0 <= k < |ts|
      ensures ';' !in ts[k] && ContourOf(ts[k]) == Ok(Some(ics[k]))
    {
      ContourTextsAt(ics, k);
      PointsTextShape(ics[k], ',');
      ContourSplits(ics[k]);
    }
    ContoursTextIsJoin(ics);
    PiecesOfJoin(ts, ';');
    CollectKeepsEveryValue(ts, ContourOf, ics);
  }

  lemma {:induction false} ContoursTextEndsInDigit(ics: seq<seq<Point>>)
    requires ics != [] && forall k :: 0 <= k < |ics| ==> ics[k] != []
    ensures |ContoursText(ics)| > 0 && IsDigit(ContoursText(ics)[|ContoursText(ics)| - 1])
  {
    PointsTextShape(ics[|ics| - 1], ',');
  }

  /** The text print_ignore_contours writes re-parses to the same list when
      every contour is non-empty and every coordinate fits in an int. */
  lemma IgnoreContoursRoundTrip(ics: seq<seq<Point>>)
    requires forall k :: 0 <= k < |ics| ==> ics[k] != []
    requires forall k, j :: 0 <= k < |ics| && 0 <= j < |ics[k]| ==> IntPoint(ics[k][j])
    ensures ContoursOf(Split(ContoursText(ics), ';')) == Ok(ics)
  {
    if ics != [] {
      ContoursTextEndsInDigit(ics);
      ContoursRoundTrip(ics);
    }
  }

  /** What print_alarm_pixels writes between the quotes: the points joined
      with ',', although parse_alarm_pixels splits on ';'. */
  function AlarmPixelsTextAsWritten(ps: seq<Point>): (t: string)
    ensures ';' !in t
    ensures t == [] <==> ps == []
  {
    if ps == [] then [] else PointsTextShape(ps, ','); PointsText(ps, ',')
  }

  /** A printed point followed by text that does not start with a digit
      still reads as that point: std::stoi stops at the first non-digit. */
  lemma PointOfPrefix(p: Point, tail: string)
    requires IntPoint(p) && (tail == [] || !IsDigit(tail[0]))
    ensures PointOf(PointText(p) + tail) == Ok(Some(p))
  {
    var sx, sy := IntToString(p.x), IntToString(p.y);
    NumberHasNoSeparators(p.x);
    assert PointText(p) + tail == sx + ['x'] + (sy + tail);
    CutAt(sx, 'x', sy + tail);
    StoiOfIntToString(p.x);
    StrtolOfIntToString(p.y, tail);
  }

  /** A non-empty text without the separator is one token. */
  lemma SplitOneToken(t: string, d: char)
    requires t != [] && d !in t
    ensures Split(t, d) == [t]
  {
  }

  /** One token that reads as one point. */
  lemma PointsOfOneToken(t: string, p: Point)
    requires PointOf(t) == Ok(Some(p))
    ensures PointsOf([t]) == Ok([p])
  {
    CollectKeepsEveryValue([t], PointOf, [p]);
  }

  /** As written, two pixels p and q print as one ';' token, which parses
      to p alone: std::stoi stops reading the y field of p at the ','. */
  lemma AlarmPixelsRoundTripFailsAsWritten(p: Point, q: Point)
    requires IntPoint(p) && IntPoint(q)
    ensures PointsOf(Split(AlarmPixelsTextAsWritten([p, q]), ';')) == Ok([p])
  {
    var tail := [','] + PointText(q);
    var tok := PointText(p) + tail;
    assert AlarmPixelsTextAsWritten([p, q]) == tok by {
      assert [p, q][..1] == [p];
      assert PointsText([p], ',') == PointText(p);
      assert PointsText([p, q], ',') == PointText(p) + [','] + PointText(q);
    }
    SepNotInPointText(p, ';');
    SepNotInPointText(q, ';');
    SplitOneToken(tok, ';');
    PointOfPrefix(p, tail);
    PointsOfOneToken(tok, p);
  }

  /** The alarm pixel text with the separator parse_alarm_pixels expects. */
  function AlarmPixelsText(ps: seq<Point>): string
  {
    PointsText(ps, ';')
  }

  /** print_alarm_pixels corrected: ';' between two pixels, the separator
      parse_alarm_pixels splits on.  As written it joins with ','
      (AlarmPixelsTextAsWritten). */
  method PrintAlarmPixels(ps: seq<Point>) returns (text: string)
    ensures text == AlarmPixelsText(ps)
  {
    text := PrintPoints(ps, ';');
  }

  /** With ';' as the separator every list of int pixels re-parses to
      itself. */
  lemma AlarmPixelsRoundTrip(ps: seq<Point>)
    requires forall k :: 0 <= k < |ps| ==> IntPoint(ps[k])
    ensures PointsOf(Split(AlarmPixelsText(ps), ';')) == Ok(ps)
  {
    if ps != [] {
      PointsTextShape(ps, ';');
      PointsRoundTrip(ps, ';');
    }
  }
}
