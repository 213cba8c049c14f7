/**
 * The clip outline of the foreground: `roundedRect(ctx, x, y, w, h, r)` (main.js:166-177)
 * issues one move, four straight sides each followed by a quadratic corner, and a close.
 * The model returns those commands in order.
 */
module RoundedPath {

  datatype Point = Point(x: real, y: real)

  /** The canvas path commands `roundedRect` uses. */
  datatype PathCmd =
    | MoveTo(to: Point)
    | LineTo(to: Point)
    | QuadTo(control: Point, to: Point)
    | Close

  function RoundedRect(x: real, y: real, w: real, h: real, r: real): (p: seq<PathCmd>)
    ensures |p| == 10 && p[0].MoveTo? && p[9].Close?
    ensures p[1].LineTo? && p[3].LineTo? && p[5].LineTo? && p[7].LineTo?
    ensures p[2].QuadTo? && p[4].QuadTo? && p[6].QuadTo? && p[8].QuadTo?
    ensures p[8].to == p[0].to == Point(x + r, y)
  {
    [ MoveTo(Point(x + r, y)),
      LineTo(Point(x + w - r, y)),
      QuadTo(Point(x + w, y), Point(x + w, y + r)),
      LineTo(Point(x + w, y + h - r)),
      QuadTo(Point(x + w, y + h), Point(x + w - r, y + h)),
      LineTo(Point(x + r, y + h)),
      QuadTo(Point(x, y + h), Point(x, y + h - r)),
      LineTo(Point(x, y + r)),
      QuadTo(Point(x, y), Point(x + r, y)),
      Close ]
  }

  /** Every point a command mentions: its end point, and the control point of a curve. */
  function Points(c: PathCmd): seq<Point> {
    match c
    case MoveTo(p) => [p]
    case LineTo(p) => [p]
    case QuadTo(k, p) => [k, p]
    case Close => []
  }

  predicate InBox(p: Point, x: real, y: real, w: real, h: real) {
    x <= p.x <= x + w && y <= p.y <= y + h
  }

  /** On the edge of the box: inside it and on one of its four sides. */
  predicate OnBorder(p: Point, x: real, y: real, w: real, h: real) {
    InBox(p, x, y, w, h) && (p.x == x || p.x == x + w || p.y == y || p.y == y + h)
  }

  /** A radius that fits: the corners along one side never overlap. */
  predicate RadiusFits(w: real, h: real, r: real) {
    0.0 <= r && 2.0 * r <= w && 2.0 * r <= h
  }

  function Abs(v: real): real {
    if v < 0.0 then -v else v
  }

  /** Taxicab distance: along the two axes. */
  function Dist(a: Point, b: Point): real {
    Abs(a.x - b.x) + Abs(a.y - b.y)
  }

  /**
   * When the radius fits, every point of the outline, control points included, lies on the
   * border of the box; so the clip never reaches outside the foreground rectangle.
   */
  lemma RoundedRectOnBorder(x: real, y: real, w: real, h: real, r: real)
    requires RadiusFits(w, h, r)
    ensures var p := RoundedRect(x, y, w, h, r);
      forall k, j :: 0 <= k < |p| && 0 <= j < |Points(p[k])| ==> OnBorder(Points(p[k])[j], x, y, w, h)
  {
    var p := RoundedRect(x, y, w, h, r);
    forall k, j | 0 <= k < |p| && 0 <= j < |Points(p[k])|
      ensures OnBorder(Points(p[k])[j], x, y, w, h)
    {
      assert k in {0, 1, 2, 3, 4, 5, 6, 7, 8};
    }
  }

  /**
   * The four curves bend at the four corners of the box, clockwise from the top-right one,
   * and each starts and ends at distance `r` from its corner, along the two sides that meet there.
   */
  lemma RoundedRectCorners(x: real, y: real, w: real, h: real, r: real)
    requires r >= 0.0
    ensures var p := RoundedRect(x, y, w, h, r);
      && [p[2].control, p[4].control, p[6].control, p[8].control]
         == [Point(x + w, y), Point(x + w, y + h), Point(x, y + h), Point(x, y)]
      && forall k :: 1 <= k <= 4 ==>
           Dist(p[2 * k - 1].to, p[2 * k].control) == r && Dist(p[2 * k].to, p[2 * k].control) == r
  {}

  /** Each straight segment runs along one axis, from where the previous command ended. */
  lemma RoundedRectSidesStraight(x: real, y: real, w: real, h: real, r: real)
    ensures var p := RoundedRect(x, y, w, h, r);
      forall k :: 1 <= k <= 4 ==>
        p[2 * k - 1].to.x == p[2 * k - 2].to.x || p[2 * k - 1].to.y == p[2 * k - 2].to.y
  {}
}
