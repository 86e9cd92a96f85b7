/** A stand-in for the AWT drawing context: instead of touching pixels, every drawing
    call is recorded as a command, in device coordinates (user coordinates plus the
    context's translation) and with the colour that was current at the call. */
module Drawing {
  import opened Voronoi

  datatype Color = Cyan | White | Black | Pink | Magenta | Rgb(value: int)

  /** One recorded drawing call. */
  datatype DrawCmd =
    | Line(from: Point, to: Point, color: Color)                          // drawLine
    | FilledOval(topLeft: Point, width: int, height: int, color: Color)   // fillOval
    | RectOutline(topLeft: Point, width: int, height: int, color: Color)  // drawRect
    | FilledRect(topLeft: Point, width: int, height: int, color: Color)   // fillRect
    | PolygonOutline(points: seq<Point>, color: Color)                    // drawPolygon
    | FilledPolygon(points: seq<Point>, color: Color)                     // fillPolygon

  function ShiftPoints(pts: seq<Point>, d: Point): seq<Point> {
    seq(|pts|, k requires 0 <= k < |pts| => pts[k].Plus(d))
  }

  /** The command moved by d: every coordinate it carries, and nothing else. */
  function Shift(c: DrawCmd, d: Point): DrawCmd {
    match c
    case Line(a, b, col) => Line(a.Plus(d), b.Plus(d), col)
    case FilledOval(p, w, h, col) => FilledOval(p.Plus(d), w, h, col)
    case RectOutline(p, w, h, col) => RectOutline(p.Plus(d), w, h, col)
    case FilledRect(p, w, h, col) => FilledRect(p.Plus(d), w, h, col)
    case PolygonOutline(pts, col) => PolygonOutline(ShiftPoints(pts, d), col)
    case FilledPolygon(pts, col) => FilledPolygon(ShiftPoints(pts, d), col)
  }

  function ShiftAll(cs: seq<DrawCmd>, d: Point): seq<DrawCmd> {
    seq(|cs|, k requires 0 <= k < |cs| => Shift(cs[k], d))
  }

  /** Shifting distributes over concatenation, so a command list can be shifted piecewise. */
  lemma ShiftAllConcat(a: seq<DrawCmd>, b: seq<DrawCmd>, d: Point)
    ensures ShiftAll(a + b, d) == ShiftAll(a, d) + ShiftAll(b, d)
  {
  }

  /** The polygon with the first n vertices of xs and ys, moved by d. */
  function PolygonPoints(xs: seq<int>, ys: seq<int>, n: nat, d: Point): (pts: seq<Point>)
    requires n <= |xs| && n <= |ys|
  {
    seq(n, k requires 0 <= k < n => Point(xs[k], ys[k]).Plus(d))
  }

  /** The drawing context. `origin` is the accumulated translation, `cmds` everything drawn. */
  class Graphics {
    var origin: Point
    var color: Color
    var cmds: seq<DrawCmd>

    /** A fresh context for an image: no translation and nothing drawn yet. The initial
        colour is not observable here, since every drawing pass sets its own first. */
    constructor ()
      ensures origin == Origin && cmds == []
    {
      origin := Origin;
      color := Black;
      cmds := [];
    }

    /** translate(tx, ty): later calls are moved by (tx, ty), on top of earlier translations. */
    method Translate(tx: int, ty: int)
      modifies this
      ensures origin == Point(old(origin).x + tx, old(origin).y + ty)
      ensures color == old(color) && cmds == old(cmds)
    {
      origin := origin.Plus(Point(tx, ty));
    }

    method SetColor(c: Color)
      modifies this
      ensures color == c
      ensures origin == old(origin) && cmds == old(cmds)
    {
      color := c;
    }

    method DrawLine(x0: int, y0: int, x1: int, y1: int)
      modifies this
      ensures cmds == old(cmds) + [Line(Point(x0, y0).Plus(origin), Point(x1, y1).Plus(origin), color)]
      ensures origin == old(origin) && color == old(color)
    {
      cmds := cmds + [Line(Point(x0, y0).Plus(origin), Point(x1, y1).Plus(origin), color)];
    }

    method FillOval(x: int, y: int, width: int, height: int)
      modifies this
      ensures cmds == old(cmds) + [FilledOval(Point(x, y).Plus(origin), width, height, color)]
      ensures origin == old(origin) && color == old(color)
    {
      cmds := cmds + [FilledOval(Point(x, y).Plus(origin), width, height, color)];
    }

    method DrawRect(x: int, y: int, width: int, height: int)
      modifies this
      ensures cmds == old(cmds) + [RectOutline(Point(x, y).Plus(origin), width, height, color)]
      ensures origin == old(origin) && color == old(color)
    {
      cmds := cmds + [RectOutline(Point(x, y).Plus(origin), width, height, color)];
    }

    method FillRect(x: int, y: int, width: int, height: int)
      modifies this
      ensures cmds == old(cmds) + [FilledRect(Point(x, y).Plus(origin), width, height, color)]
      ensures origin == old(origin) && color == old(color)
    {
      cmds := cmds + [FilledRect(Point(x, y).Plus(origin), width, height, color)];
    }

    /** drawPolygon(xPoints, yPoints, nPoints): the outline through the first n vertices. */
    method DrawPolygon(xs: array<int>, ys: array<int>, n: nat)
      requires n <= xs.Length && n <= ys.Length
      modifies this
      ensures cmds == old(cmds) + [PolygonOutline(PolygonPoints(xs[..], ys[..], n, origin), color)]
      ensures origin == old(origin) && color == old(color)
    {
      cmds := cmds + [PolygonOutline(PolygonPoints(xs[..], ys[..], n, origin), color)];
    }

    /** fillPolygon(xPoints, yPoints, nPoints): the filled polygon on the first n vertices. */
    method FillPolygon(xs: array<int>, ys: array<int>, n: nat)
      requires n <= xs.Length && n <= ys.Length
      modifies this
      ensures cmds == old(cmds) + [FilledPolygon(PolygonPoints(xs[..], ys[..], n, origin), color)]
      ensures origin == old(origin) && color == old(color)
    {
      cmds := cmds + [FilledPolygon(PolygonPoints(xs[..], ys[..], n, origin), color)];
    }
  }
}
