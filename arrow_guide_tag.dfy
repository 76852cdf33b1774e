/**
  The outline of an arrow guide tag: a rounded rectangle ("the body") one of
  whose sides is interrupted by a triangular arrow. The drawing calls of the
  view are replaced by an abstract sequence of path commands; angles are kept
  as multiples of pi, so an arc from `startCoef` to `endCoef` sweeps the
  angles `startCoef * pi` to `endCoef * pi`.
 */
module ArrowGuideTag {
  import opened Optional
  import opened Geometry

  /** The side of the tag the arrow points out of, with the enum's raw values. */
  datatype Direction = Top | Bottom | Left | Right

  function RawValue(d: Direction): (n: int)
    ensures 0 <= n < 4
  {
    match d
    case Top => 0
    case Bottom => 1
    case Left => 2
    case Right => 3
  }

  /** The failable initializer from a raw value. */
  function FromRawValue(n: int): (r: Option<Direction>)
    ensures r.Some? <==> 0 <= n < 4
  {
    if n == 0 then Some(Top)
    else if n == 1 then Some(Bottom)
    else if n == 2 then Some(Left)
    else if n == 3 then Some(Right)
    else None
  }

  lemma RawValueRoundTrip(d: Direction, n: int)
    ensures FromRawValue(RawValue(d)) == Some(d)
    ensures FromRawValue(n) == Some(d) <==> RawValue(d) == n
  {
  }

  /** Colours are carried through unchanged: the default gray, or any colour a caller passes. */
  datatype Color = Gray | Rgba(red: real, green: real, blue: real, alpha: real)

  datatype Config = Config(
    direction: Direction,
    arrowHeight: real,
    arrowWidth: real,
    cornerRadius: real,
    mainBackgroundColor: Color,
    arrowOffset: real,   // lateral shift of the arrow from the middle of its side
    boardWidth: real,    // border width
    boardColor: Option<Color>)

  /** The configuration a tag has when none is given. */
  function DefaultConfig(): (c: Config)
    ensures c.direction == Bottom && c.arrowHeight == 6.0 && c.arrowWidth == 4.0
    ensures c.cornerRadius == 6.0 && c.mainBackgroundColor == Gray
    ensures c.arrowOffset == 0.0 && c.boardWidth == 0.0 && c.boardColor == None
  {
    Config(Bottom, 6.0, 4.0, 6.0, Gray, 0.0, 0.0, None)
  }

  datatype PathCmd =
    | Move(to: Point)
    | Line(to: Point)
    | Arc(center: Point, radius: real, startCoef: real, endCoef: real, clockwise: bool)
    | Close

  /**
    What the direction decides: the shift of the body (`xOffset` is added to
    every x, `yOffset` to every y), the body's width and height, the index
    of the body point before which the arrow is drawn, and the arrow's two
    base points around its tip.
   */
  datatype Layout = Layout(
    xOffset: real, yOffset: real,
    bodyWidth: real, bodyHeight: real,
    arrowIndex: nat,
    baseStart: Point, tip: Point, baseEnd: Point)

  /**
    The body is sized from the rectangle's standardized (non-negative) width
    and height, while the arrow's vertices use its signed size.
   */
  function ArrowLayout(w: real, h: real, c: Config): (l: Layout)
    ensures 1 <= l.arrowIndex <= 7 && l.arrowIndex % 2 == 1
    ensures l.bodyWidth + l.bodyHeight == Abs(w) + Abs(h) - c.arrowHeight
    ensures var s, t, e := l.baseStart, l.tip, l.baseEnd;
      || (s.y == e.y && s.x + e.x == 2.0 * t.x && (e.x - s.x == c.arrowWidth || s.x - e.x == c.arrowWidth))
      || (s.x == e.x && s.y + e.y == 2.0 * t.y && (e.y - s.y == c.arrowWidth || s.y - e.y == c.arrowWidth))
  {
    var ah, aw, off := c.arrowHeight, c.arrowWidth, c.arrowOffset;
    var bw, bh := Abs(w), Abs(h);
    match c.direction
    case Top =>
      Layout(0.0, ah, bw, bh - ah, 1,
             Point(w / 2.0 - aw / 2.0 + off, ah),
             Point(w / 2.0 + off, 0.0),
             Point(w / 2.0 + aw / 2.0 + off, ah))
    case Bottom =>
      Layout(0.0, 0.0, bw, bh - ah, 5,
             Point(w / 2.0 + aw / 2.0 + off, bh - ah),
             Point(w / 2.0 + off, h),
             Point(w / 2.0 - aw / 2.0 + off, bh - ah))
    case Left =>
      Layout(ah, 0.0, bw - ah, bh, 7,
             Point(ah, (h + aw) / 2.0 + off),
             Point(0.0, h / 2.0 + off),
             Point(ah, (h - aw) / 2.0 + off))
    case Right =>
      Layout(0.0, 0.0, bw - ah, bh, 3,
             Point(bw - ah, (h - aw) / 2.0 + off),
             Point(w, h / 2.0 + off),
             Point(bw - ah, (h + aw) / 2.0 + off))
  }

  /**
    The eight points where the body's straight sides meet its corner arcs,
    clockwise from the end of the top-left arc, followed by the first one
    again.
   */
  function BodyPoints(l: Layout, r: real): (pts: seq<Point>)
    ensures |pts| == 9 && pts[0] == pts[8]
  {
    var xo, yo, bw, bh := l.xOffset, l.yOffset, l.bodyWidth, l.bodyHeight;
    var first := Point(r + xo, yo);
    [first,
     Point(bw - r + xo, yo),
     Point(bw + xo, r + yo),
     Point(bw + xo, bh - r + yo),
     Point(bw - r + xo, bh + yo),
     Point(r + xo, bh + yo),
     Point(xo, bh - r + yo),
     Point(xo, r + yo),
     first]
  }

  /** The loop indices at which a corner arc is drawn. */
  function RadiusIndices(c: Config): (r: seq<int>)
    ensures forall i :: i in r <==> c.cornerRadius > 0.0 && IsCornerIndex(i)
  {
    if c.cornerRadius > 0.0 then [2, 4, 6, 8] else []
  }

  /**
    The arc drawn at index `i`: its centre takes, per axis, the smaller or the
    larger coordinate of the previous and the current point.
   */
  function CornerArc(i: int, before: Point, p: Point, r: real): (a: PathCmd)
    ensures a.Arc? && a.radius == r && a.clockwise
    ensures 4.0 * a.startCoef == (i - 4) as real && a.endCoef == a.startCoef + 0.5
    ensures (a.center.x == before.x || a.center.x == p.x) && (a.center.y == before.y || a.center.y == p.y)
  {
    var cx := if i == 6 || i == 8 then Max(before.x, p.x) else Min(before.x, p.x);
    var cy := if i == 2 || i == 8 then Max(before.y, p.y) else Min(before.y, p.y);
    var startCoef := (i - 4) as real / 4.0;
    Arc(Point(cx, cy), r, startCoef, startCoef + 0.5, true)
  }

  /** The commands one iteration of the drawing loop appends for index `i`. */
  function Step(i: nat, pts: seq<Point>, l: Layout, c: Config): (s: seq<PathCmd>)
    requires i < |pts| == 9
    ensures |s| == (if i == 0 then 1 else 0) + (if i == l.arrowIndex then 4 else 1)
    ensures s[0].Move? <==> i == 0
    ensures s[|s| - 1] == Line(pts[i]) || (s[|s| - 1].Arc? && IsCornerIndex(i) && c.cornerRadius > 0.0)
  {
    var p := pts[i];
    (if i == 0 then [Move(p)] else []) +
    (if i == l.arrowIndex then [Line(l.baseStart), Line(l.tip), Line(l.baseEnd), Line(p)]
     else if i in RadiusIndices(c) && i > 1 then [CornerArc(i, pts[i - 1], p, c.cornerRadius)]
     else [Line(p)])
  }

  /** The commands the first `n` iterations of the drawing loop append. */
  function Emitted(pts: seq<Point>, l: Layout, c: Config, n: nat): (e: seq<PathCmd>)
    requires n <= |pts| == 9
    ensures |e| == n + (if n > 0 then 1 else 0) + (if n > l.arrowIndex then 3 else 0)
  {
    if n == 0 then [] else Emitted(pts, l, c, n - 1) + Step(n - 1, pts, l, c)
  }

  /**
    The closed outline of a tag of width `w` and height `h`: fourteen
    commands, whatever the direction and corner radius, the last a close.
   */
  function Outline(w: real, h: real, c: Config): (o: seq<PathCmd>)
    ensures |o| == 14 && o[13] == Close
  {
    var l := ArrowLayout(w, h, c);
    Emitted(BodyPoints(l, c.cornerRadius), l, c, 9) + [Close]
  }

  /** The drawing loop, appending to the path as it walks the point list. */
  method EmitOutline(w: real, h: real, c: Config) returns (path: seq<PathCmd>)
    ensures path == Outline(w, h, c)
  {
    var l := ArrowLayout(w, h, c);
    var pts := BodyPoints(l, c.cornerRadius);
    var radiusIndices := RadiusIndices(c);
    path := [];
    var index := 0;
    while index < |pts|
      invariant 0 <= index <= |pts|
      invariant path == Emitted(pts, l, c, index)
    {
      var point := pts[index];
      if index == 0 {
        path := path + [Move(point)];
      }
      if index == l.arrowIndex {
        path := path + [Line(l.baseStart), Line(l.tip), Line(l.baseEnd), Line(point)];
      } else if index in radiusIndices && index > 1 {
        path := path + [CornerArc(index, pts[index - 1], point, c.cornerRadius)];
      } else {
        path := path + [Line(point)];
      }
      index := index + 1;
    }
    path := path + [Close];
  }

  /** The tag view: its configuration and the paths of the shape layers it holds. */
  class ArrowGuideTagView {
    const width: real
    const height: real
    var config: Config
    var layerPaths: seq<seq<PathCmd>>

    constructor (width: real, height: real, arrowConfig: Option<Config>)
      ensures this.width == width && this.height == height
      ensures config == (if arrowConfig.Some? then arrowConfig.value else DefaultConfig())
      ensures layerPaths == [Outline(width, height, config)]
    {
      this.width := width;
      this.height := height;
      config := DefaultConfig();
      if arrowConfig.Some? {
        config := arrowConfig.value;
      }
      layerPaths := [];
      new;
      DrawPath(Rect(Point(0.0, 0.0), Size(width, height)));
    }

    /**
      Builds the outline of `rect` and adds it as a new layer. Only the
      rectangle's size is read, never its origin.
     */
    method DrawPath(rect: Rect)
      modifies this
      ensures config == old(config)
      ensures layerPaths == old(layerPaths) + [Outline(rect.size.width, rect.size.height, config)]
    {
      var path := EmitOutline(rect.size.width, rect.size.height, config);
      layerPaths := layerPaths + [path];
    }
  }

  // ---------------------------------------------------------------------
  // Properties of the layout

  /** The arrow interrupts an odd-numbered side, never a corner. */
  lemma ArrowSideIndex(w: real, h: real, c: Config)
    ensures ArrowLayout(w, h, c).arrowIndex ==
            match c.direction
            case Top => 1
            case Right => 3
            case Bottom => 5
            case Left => 7
    ensures ArrowLayout(w, h, c).arrowIndex % 2 == 1
    ensures ArrowLayout(w, h, c).arrowIndex !in RadiusIndices(c)
  {
  }

  /**
    The body is the bounding rectangle less `arrowHeight` along the arrow's
    axis only; it is shifted only when the arrow is on the top or left side.
   */
  lemma BodyShrinksAlongArrowAxis(w: real, h: real, c: Config)
    ensures var l := ArrowLayout(w, h, c);
      && (c.direction in {Top, Bottom} ==> l.bodyWidth == Abs(w) && l.bodyHeight + c.arrowHeight == Abs(h))
      && (c.direction in {Left, Right} ==> l.bodyWidth + c.arrowHeight == Abs(w) && l.bodyHeight == Abs(h))
      && l.xOffset == (if c.direction == Left then c.arrowHeight else 0.0)
      && l.yOffset == (if c.direction == Top then c.arrowHeight else 0.0)
  {
  }

  /** The tip lies on the outer rectangle, at the middle of its side plus the offset. */
  lemma ArrowTipOnOuterEdge(w: real, h: real, c: Config)
    ensures var t := ArrowLayout(w, h, c).tip;
      match c.direction
      case Top => t.y == 0.0 && 2.0 * (t.x - c.arrowOffset) == w
      case Bottom => t.y == h && 2.0 * (t.x - c.arrowOffset) == w
      case Left => t.x == 0.0 && 2.0 * (t.y - c.arrowOffset) == h
      case Right => t.x == w && 2.0 * (t.y - c.arrowOffset) == h
  {
  }

  lemma CenteredArrowTipIsMidpoint(w: real, h: real, c: Config)
    requires c.arrowOffset == 0.0
    ensures var t := ArrowLayout(w, h, c).tip;
      if c.direction in {Top, Bottom} then 2.0 * t.x == w else 2.0 * t.y == h
  {
  }

  /**
    The two base points are `arrowWidth` apart, symmetric about the tip, and
    lie on the interrupted side of the body.
   */
  lemma ArrowBaseOnBodySide(w: real, h: real, c: Config)
    ensures var l := ArrowLayout(w, h, c);
      var pts := BodyPoints(l, c.cornerRadius);
      var s, t, e := l.baseStart, l.tip, l.baseEnd;
      match c.direction
      case Top =>
        e.x - s.x == c.arrowWidth && s.x + e.x == 2.0 * t.x &&
        s.y == e.y == pts[0].y == pts[1].y
      case Bottom =>
        s.x - e.x == c.arrowWidth && s.x + e.x == 2.0 * t.x &&
        s.y == e.y == pts[4].y == pts[5].y
      case Right =>
        e.y - s.y == c.arrowWidth && s.y + e.y == 2.0 * t.y &&
        s.x == e.x == pts[2].x == pts[3].x
      case Left =>
        s.y - e.y == c.arrowWidth && s.y + e.y == 2.0 * t.y &&
        s.x == e.x == pts[6].x == pts[7].x
  {
  }

  // ---------------------------------------------------------------------
  // Properties of the emitted commands

  function ArcCount(cmds: seq<PathCmd>): nat
  {
    if cmds == [] then 0 else (if cmds[0].Arc? then 1 else 0) + ArcCount(cmds[1..])
  }

  lemma {:induction false} ArcCountAppend(a: seq<PathCmd>, b: seq<PathCmd>)
    ensures ArcCount(a + b) == ArcCount(a) + ArcCount(b)
  {
    if a == [] {
      assert a + b == b;
    } else {
      assert (a + b)[1..] == a[1..] + b;
      ArcCountAppend(a[1..], b);
    }
  }

  /** The index is one of those the loop draws an arc at. */
  predicate IsCornerIndex(i: int)
  {
    i == 2 || i == 4 || i == 6 || i == 8
  }

  /** The number of corner indices below `n`. */
  function CornersBelow(n: nat): nat
  {
    if n <= 2 then 0 else if n <= 4 then 1 else if n <= 6 then 2 else if n <= 8 then 3 else 4
  }

  lemma {:induction false} ArcFree(cmds: seq<PathCmd>)
    requires forall k :: 0 <= k < |cmds| ==> !cmds[k].Arc?
    ensures ArcCount(cmds) == 0
  {
    if cmds != [] {
      ArcFree(cmds[1..]);
    }
  }

  lemma StepArcCount(i: nat, w: real, h: real, c: Config)
    requires i < 9
    ensures var l := ArrowLayout(w, h, c);
      ArcCount(Step(i, BodyPoints(l, c.cornerRadius), l, c)) ==
        if c.cornerRadius > 0.0 && IsCornerIndex(i) then 1 else 0
  {
    var l := ArrowLayout(w, h, c);
    var pts := BodyPoints(l, c.cornerRadius);
    if c.cornerRadius > 0.0 && IsCornerIndex(i) {
      assert Step(i, pts, l, c) == [CornerArc(i, pts[i - 1], pts[i], c.cornerRadius)];
      assert ArcCount(Step(i, pts, l, c)) == 1 + ArcCount([]);
    } else {
      ArcFree(Step(i, pts, l, c));
    }
  }

  lemma {:induction false} EmittedArcCount(n: nat, w: real, h: real, c: Config)
    requires n <= 9
    ensures var l := ArrowLayout(w, h, c);
      ArcCount(Emitted(BodyPoints(l, c.cornerRadius), l, c, n)) ==
        if c.cornerRadius > 0.0 then CornersBelow(n) else 0
  {
    if n > 0 {
      var l := ArrowLayout(w, h, c);
      var pts := BodyPoints(l, c.cornerRadius);
      EmittedArcCount(n - 1, w, h, c);
      StepArcCount(n - 1, w, h, c);
      ArcCountAppend(Emitted(pts, l, c, n - 1), Step(n - 1, pts, l, c));
    }
  }

  /** Four corner arcs when the corner radius is positive, none otherwise. */
  lemma OutlineArcCount(w: real, h: real, c: Config)
    ensures ArcCount(Outline(w, h, c)) == if c.cornerRadius > 0.0 then 4 else 0
  {
    var l := ArrowLayout(w, h, c);
    var pts := BodyPoints(l, c.cornerRadius);
    EmittedArcCount(9, w, h, c);
    ArcCountAppend(Emitted(pts, l, c, 9), [Close]);
  }

  /** The commands of the first `i` iterations stay a prefix of all later ones. */
  lemma {:induction false} EmittedPrefix(pts: seq<Point>, l: Layout, c: Config, i: nat, n: nat)
    requires i <= n <= |pts| == 9
    ensures Emitted(pts, l, c, i) <= Emitted(pts, l, c, n)
  {
    if i < n {
      EmittedPrefix(pts, l, c, i, n - 1);
    }
  }

  /** The commands of iteration `i` appear as one contiguous run of the closed path. */
  lemma StepInClosedPath(pts: seq<Point>, l: Layout, c: Config, i: nat)
    requires i < |pts| == 9
    ensures var k := |Emitted(pts, l, c, i)|;
      var s := Step(i, pts, l, c);
      k + |s| < |Emitted(pts, l, c, 9) + [Close]| && (Emitted(pts, l, c, 9) + [Close])[k..k + |s|] == s
  {
    var before, run := Emitted(pts, l, c, i), Step(i, pts, l, c);
    var whole := Emitted(pts, l, c, 9);
    EmittedPrefix(pts, l, c, i + 1, 9);
    assert before + run <= whole;
    RunOfPrefix(before, run, whole + [Close]);
  }

  /** The same run, located in the outline. */
  lemma StepInOutline(w: real, h: real, c: Config, i: nat)
    requires i < 9
    ensures var l := ArrowLayout(w, h, c);
      var pts := BodyPoints(l, c.cornerRadius);
      var k := |Emitted(pts, l, c, i)|;
      var s := Step(i, pts, l, c);
      k + |s| < |Outline(w, h, c)| && Outline(w, h, c)[k..k + |s|] == s
  {
    var l := ArrowLayout(w, h, c);
    StepInClosedPath(BodyPoints(l, c.cornerRadius), l, c, i);
  }

  lemma RunOfPrefix<T>(before: seq<T>, run: seq<T>, whole: seq<T>)
    requires before + run <= whole
    ensures |before| + |run| <= |whole| && whole[|before|..|before| + |run|] == run
  {
  }

  /**
    At the arrow's index the outline holds lines to the base start, the tip,
    the base end and that index's body point, in this order.
   */
  lemma ArrowInOutline(w: real, h: real, c: Config)
    ensures var l := ArrowLayout(w, h, c);
      var pts := BodyPoints(l, c.cornerRadius);
      var k := |Emitted(pts, l, c, l.arrowIndex)|;
      k + 4 < |Outline(w, h, c)| &&
      Outline(w, h, c)[k..k + 4] ==
        [Line(l.baseStart), Line(l.tip), Line(l.baseEnd), Line(pts[l.arrowIndex])]
  {
    StepInOutline(w, h, c, ArrowLayout(w, h, c).arrowIndex);
  }

  /**
    The path opens with a move to the first point followed by a zero-length
    line to it (index 0 also takes the plain-line branch), and is closed.
   */
  lemma OutlineOpensAndCloses(w: real, h: real, c: Config)
    ensures var o := Outline(w, h, c);
      var first := BodyPoints(ArrowLayout(w, h, c), c.cornerRadius)[0];
      |o| >= 3 && o[0] == Move(first) && o[1] == Line(first) && o[|o| - 1] == Close
  {
    StepInOutline(w, h, c, 0);
  }

  /** The unit vector at angle `k * pi / 2`, y pointing down as on screen. */
  function QuarterTurn(k: int): Point
  {
    match k % 4
    case 0 => Point(1.0, 0.0)
    case 1 => Point(0.0, 1.0)
    case 2 => Point(-1.0, 0.0)
    case _ => Point(0.0, -1.0)
  }

  /** The point at angle `k * pi / 2` on the circle of radius `r` around `center`. */
  function OnCircle(center: Point, r: real, k: int): Point
  {
    var u := QuarterTurn(k);
    Point(center.x + r * u.x, center.y + r * u.y)
  }

  /**
    When the corner radius is positive, the corners are the arcs drawn at
    indices 2, 4, 6 and 8: each has centre `cornerRadius` inside both body
    sides it joins, radius `cornerRadius`, sweeps a quarter turn clockwise
    from `(i - 4) / 4 * pi`, and runs from the previous point to the current
    one.
   */
  lemma CornerArcs(w: real, h: real, c: Config, i: nat)
    requires c.cornerRadius > 0.0 && IsCornerIndex(i)
    ensures var l := ArrowLayout(w, h, c);
      var r := c.cornerRadius;
      var pts := BodyPoints(l, r);
      var center := CornerCenter(l, r, i);
      var k := (i - 4) / 2;
      && Step(i, pts, l, c) == [Arc(center, r, k as real / 2.0, k as real / 2.0 + 0.5, true)]
      && OnCircle(center, r, k) == pts[i - 1]
      && OnCircle(center, r, k + 1) == pts[i]
  {
    CornerArcsOfLayout(ArrowLayout(w, h, c), c, i);
  }

  /** The centre of the corner arc at index `i`: `r` inside both sides it joins. */
  function CornerCenter(l: Layout, r: real, i: int): Point
  {
    var xo, yo, bw, bh := l.xOffset, l.yOffset, l.bodyWidth, l.bodyHeight;
    if i == 2 then Point(bw - r + xo, r + yo)
    else if i == 4 then Point(bw - r + xo, bh - r + yo)
    else if i == 6 then Point(r + xo, bh - r + yo)
    else Point(r + xo, r + yo)
  }

  lemma CornerArcsOfLayout(l: Layout, c: Config, i: nat)
    requires l.arrowIndex % 2 == 1
    requires c.cornerRadius > 0.0 && IsCornerIndex(i)
    ensures var r := c.cornerRadius;
      var pts := BodyPoints(l, r);
      var center := CornerCenter(l, r, i);
      var k := (i - 4) / 2;
      && Step(i, pts, l, c) == [Arc(center, r, k as real / 2.0, k as real / 2.0 + 0.5, true)]
      && OnCircle(center, r, k) == pts[i - 1]
      && OnCircle(center, r, k + 1) == pts[i]
  {
  }

  /**
    Before each corner arc the pen already stands at the arc's start point:
    the previous iteration ends with a line to `pts[i - 1]`, which is where
    the arc begins, so the connecting line a path inserts before an arc has
    length zero.
   */
  lemma ArcStartsAtPen(w: real, h: real, c: Config, i: nat)
    requires c.cornerRadius > 0.0 && IsCornerIndex(i)
    ensures var l := ArrowLayout(w, h, c);
      var pts := BodyPoints(l, c.cornerRadius);
      var prev := Step(i - 1, pts, l, c);
      var arc := Step(i, pts, l, c)[0];
      && arc.Arc?
      && prev[|prev| - 1] == Line(OnCircle(arc.center, arc.radius, (i - 4) / 2))
  {
    ArcStartsAtPenOfLayout(ArrowLayout(w, h, c), c, i);
  }

  lemma ArcStartsAtPenOfLayout(l: Layout, c: Config, i: nat)
    requires l.arrowIndex % 2 == 1
    requires c.cornerRadius > 0.0 && IsCornerIndex(i)
    ensures var pts := BodyPoints(l, c.cornerRadius);
      var prev := Step(i - 1, pts, l, c);
      var arc := Step(i, pts, l, c)[0];
      && arc.Arc?
      && prev[|prev| - 1] == Line(OnCircle(arc.center, arc.radius, (i - 4) / 2))
  {
    CornerArcsOfLayout(l, c, i);
  }

  /**
    Every odd index other than the arrow's draws one plain line: the arrow
    interrupts exactly one side and the other three sides stay straight.
   */
  lemma PlainSides(w: real, h: real, c: Config, i: nat)
    requires i < 9 && i % 2 == 1 && i != ArrowLayout(w, h, c).arrowIndex
    ensures var l := ArrowLayout(w, h, c);
      var pts := BodyPoints(l, c.cornerRadius);
      Step(i, pts, l, c) == [Line(pts[i])]
  {
  }

  /** Without a positive corner radius the corners are plain lines. */
  lemma SquareCorners(w: real, h: real, c: Config, i: nat)
    requires c.cornerRadius <= 0.0 && IsCornerIndex(i)
    ensures var l := ArrowLayout(w, h, c);
      var pts := BodyPoints(l, c.cornerRadius);
      Step(i, pts, l, c) == [Line(pts[i])]
  {
  }
}
