/** The static drawing passes of the graph layer. Each pass is a method that issues calls
    on a Graphics context, proved against a function giving the commands it records for a
    context translated by `o`. */
module GraphPasses {
  import opened Voronoi
  import opened Drawing
  import opened Options
  import JavaRandom

  /** The passes render can run, declared in the order it runs them. */
  datatype Pass = Edges | Tris | Corners | Sites | Bounds

  /** Position of a pass in render's sequence. */
  function Rank(p: Pass): nat {
    match p
    case Edges => 0
    case Tris => 1
    case Corners => 2
    case Sites => 3
    case Bounds => 4
  }

  /** Corner and site markers are 4 by 4 ovals whose top-left corner is 2 up and left of the point. */
  const MarkerSize := 4
  const MarkerInset := 2
  /** The triangle pass reseeds its colour generator with this on every call. */
  const TriangleSeed: bv64 := 12332434
  /** Triangle colours are nextInt(0xFFFFFF), read as 0xRRGGBB. */
  const PaletteBound := 0xFF_FFFF

  // ----- what each pass records -----

  function EdgeLine(g: Graph, e: Edge, o: Point): DrawCmd
    requires e.corner0 < |g.corners| && e.corner1 < |g.corners|
  {
    Line(g.corners[e.corner0].Plus(o), g.corners[e.corner1].Plus(o), Cyan)
  }

  /** drawEdges: one cyan line per edge, from its corner0 to its corner1. */
  function EdgeCmds(g: Graph, o: Point): seq<DrawCmd>
    requires g.Valid()
  {
    seq(|g.edges|, k requires 0 <= k < |g.edges| => EdgeLine(g, g.edges[k], o))
  }

  function Marker(p: Point, o: Point, col: Color): DrawCmd {
    FilledOval(Point(p.x - MarkerInset, p.y - MarkerInset).Plus(o), MarkerSize, MarkerSize, col)
  }

  /** drawCorners: one white marker per corner. */
  function CornerCmds(g: Graph, o: Point): seq<DrawCmd> {
    seq(|g.corners|, k requires 0 <= k < |g.corners| => Marker(g.corners[k], o, White))
  }

  /** drawSites: one black marker per region centre. */
  function SiteCmds(g: Graph, o: Point): seq<DrawCmd> {
    seq(|g.regions|, k requires 0 <= k < |g.regions| => Marker(g.regions[k].center, o, Black))
  }

  /** drawBounds: one pink outline of the graph's bounds. */
  function BoundsCmds(g: Graph, o: Point): seq<DrawCmd> {
    [RectOutline(Point(g.bounds.minX, g.bounds.minY).Plus(o), g.bounds.width, g.bounds.height, Pink)]
  }

  /** fillBounds: a magenta box one pixel inside the bounds. */
  function FillBoundsCmd(g: Graph, o: Point): DrawCmd {
    FilledRect(Point(g.bounds.minX + 1, g.bounds.minY + 1).Plus(o), g.bounds.width - 1, g.bounds.height - 1, Magenta)
  }

  /** The three vertices of a fan triangle: the region's centre, corner1, corner2. */
  function TrianglePoints(g: Graph, r: Region, t: Triangle): seq<Point>
    requires t.corner1 < |g.corners| && t.corner2 < |g.corners|
  {
    [r.center, g.corners[t.corner1], g.corners[t.corner2]]
  }

  /** The triangles of region i, in its own order. */
  function RegionFan(g: Graph, i: nat): (fan: seq<seq<Point>>)
    requires g.Valid() && i < |g.regions|
    ensures |fan| == |g.regions[i].triangles|
  {
    var r := g.regions[i];
    assert r in g.regions;
    seq(|r.triangles|, j requires 0 <= j < |r.triangles| =>
      assert r.triangles[j] in r.triangles; TrianglePoints(g, r, r.triangles[j]))
  }

  /** The triangles of the first n regions, region after region. */
  function FanUpTo(g: Graph, n: nat): seq<seq<Point>>
    requires g.Valid() && n <= |g.regions|
  {
    if n == 0 then [] else FanUpTo(g, n - 1) + RegionFan(g, n - 1)
  }

  /** The triangles of all the regions, in the order the triangle pass visits them. */
  function Fan(g: Graph): seq<seq<Point>>
    requires g.Valid()
  {
    FanUpTo(g, |g.regions|)
  }

  /** The number of triangles the regions list. */
  function TriangleCount(rs: seq<Region>): nat {
    if rs == [] then 0 else TriangleCount(rs[..|rs| - 1]) + |rs[|rs| - 1].triangles|
  }

  /** The colour of the k-th triangle of a pass: the k-th draw from the reseeded generator. */
  function TriangleColor(k: nat): (c: Color)
    ensures c.Rgb? && 0 <= c.value < PaletteBound
  {
    Rgb(JavaRandom.DrawInt(TriangleSeed, k, PaletteBound))
  }

  /** drawTriangles: one outline per fan triangle, coloured from the reseeded generator. */
  function TriangleCmds(g: Graph, o: Point): seq<DrawCmd>
    requires g.Valid()
  {
    var fan := Fan(g);
    seq(|fan|, k requires 0 <= k < |fan| => PolygonOutline(ShiftPoints(fan[k], o), TriangleColor(k)))
  }

  /** The corner locations of a region, in the region's order. */
  function RegionOutline(g: Graph, r: Region): seq<Point>
    requires g.RegionValid(r)
  {
    seq(|r.corners|, i requires 0 <= i < |r.corners| => assert r.corners[i] in r.corners; g.corners[r.corners[i]])
  }

  /** drawPolys: one filled polygon per region, on its corners, in the colour colorOf gives it. */
  function PolyCmds(g: Graph, colorOf: Region -> Color, o: Point): seq<DrawCmd>
    requires g.Valid()
  {
    seq(|g.regions|, k requires 0 <= k < |g.regions| =>
      FilledPolygon(ShiftPoints(RegionOutline(g, g.regions[k]), o), colorOf(g.regions[k])))
  }

  function PassCmds(p: Pass, g: Graph, o: Point): seq<DrawCmd>
    requires g.Valid()
  {
    match p
    case Edges => EdgeCmds(g, o)
    case Tris => TriangleCmds(g, o)
    case Corners => CornerCmds(g, o)
    case Sites => SiteCmds(g, o)
    case Bounds => BoundsCmds(g, o)
  }

  /** How many commands a pass records for a graph, counted from the graph alone. */
  function PassSize(p: Pass, g: Graph): nat {
    match p
    case Edges => |g.edges|
    case Tris => TriangleCount(g.regions)
    case Corners => |g.corners|
    case Sites => |g.regions|
    case Bounds => 1
  }

  /** Which pass a recorded command comes from, told by its shape and colour alone;
      None for the commands no render pass records. */
  function PassOf(c: DrawCmd): Option<Pass> {
    match c
    case Line(_, _, _) => Some(Edges)
    case PolygonOutline(_, _) => Some(Tris)
    case FilledOval(_, _, _, col) =>
      if col == White then Some(Corners) else if col == Black then Some(Sites) else None
    case RectOutline(_, _, _, _) => Some(Bounds)
    case FilledRect(_, _, _, _) => None
    case FilledPolygon(_, _) => None
  }

  // ----- properties of the passes -----

  /** Running to region n, the triangles seen so far are the start of those of the first m >= n. */
  lemma {:induction false} FanPrefix(g: Graph, n: nat, m: nat)
    requires g.Valid() && n <= m <= |g.regions|
    ensures |FanUpTo(g, n)| <= |FanUpTo(g, m)|
    ensures FanUpTo(g, m)[..|FanUpTo(g, n)|] == FanUpTo(g, n)
    decreases m
  {
    if n < m {
      FanPrefix(g, n, m - 1);
      var a := FanUpTo(g, m - 1);
      assert (a + RegionFan(g, m - 1))[..|FanUpTo(g, n)|] == a[..|FanUpTo(g, n)|];
    }
  }

  /** Triangles come in region order: triangle j of region i is entry
      (triangles of regions 0..i-1) + j of the pass. */
  lemma FanRegionOrder(g: Graph, i: nat, j: nat)
    requires g.Valid() && i < |g.regions| && j < |g.regions[i].triangles|
    ensures g.regions[i].triangles[j].corner1 < |g.corners| && g.regions[i].triangles[j].corner2 < |g.corners|
    ensures |FanUpTo(g, i)| + j < |Fan(g)|
    ensures Fan(g)[|FanUpTo(g, i)| + j] == TrianglePoints(g, g.regions[i], g.regions[i].triangles[j])
  {
    assert g.regions[i] in g.regions;
    assert g.regions[i].triangles[j] in g.regions[i].triangles;
    FanPrefix(g, i + 1, |g.regions|);
    assert FanUpTo(g, i + 1)[|FanUpTo(g, i)| + j] == RegionFan(g, i)[j];
  }

  /** One triangle per entry of each region's triangle list. */
  lemma {:induction false} FanLength(g: Graph, n: nat)
    requires g.Valid() && n <= |g.regions|
    ensures |FanUpTo(g, n)| == TriangleCount(g.regions[..n])
  {
    if n > 0 {
      FanLength(g, n - 1);
      assert g.regions[..n][..n - 1] == g.regions[..n - 1];
    }
  }

  /** Every pass records exactly PassSize commands, each classified as coming from that pass. */
  lemma PassCmdsShape(p: Pass, g: Graph, o: Point)
    requires g.Valid()
    ensures |PassCmds(p, g, o)| == PassSize(p, g)
    ensures forall k :: 0 <= k < |PassCmds(p, g, o)| ==> PassOf(PassCmds(p, g, o)[k]) == Some(p)
  {
    if p == Tris {
      FanLength(g, |g.regions|);
      assert g.regions[..|g.regions|] == g.regions;
    }
  }

  lemma ShiftPointsOrigin(pts: seq<Point>, o: Point)
    ensures ShiftPoints(ShiftPoints(pts, Origin), o) == ShiftPoints(pts, o)
  {
  }

  /** Every pass translates all its coordinates by the context's translation, and only them:
      what it records at o is what it records untranslated, shifted by o. */
  lemma PassShift(p: Pass, g: Graph, o: Point)
    requires g.Valid()
    ensures PassCmds(p, g, o) == ShiftAll(PassCmds(p, g, Origin), o)
  {
    var a, b := PassCmds(p, g, o), ShiftAll(PassCmds(p, g, Origin), o);
    assert |a| == |b|;
    forall k | 0 <= k < |a|
      ensures a[k] == b[k]
    {
      if p == Tris {
        ShiftPointsOrigin(Fan(g)[k], o);
      }
    }
  }

  /** The triangle colours are the same on every call: the k-th triangle gets the k-th
      draw of the reseeded generator, whatever the graph and the translation. */
  lemma TriangleColorsReseeded(g1: Graph, o1: Point, g2: Graph, o2: Point, k: nat)
    requires g1.Valid() && g2.Valid()
    requires k < |TriangleCmds(g1, o1)| && k < |TriangleCmds(g2, o2)|
    ensures TriangleCmds(g1, o1)[k].color == TriangleCmds(g2, o2)[k].color
    ensures TriangleCmds(g1, o1)[k].color.Rgb? && TriangleCmds(g1, o1)[k].color.value < PaletteBound
  {
  }

  /** 0xFFFFFF is not a power of two, so every triangle colour is the generator's raw 31-bit
      draw modulo 0xFFFFFF. */
  lemma TriangleColorModulo(k: nat)
    ensures !JavaRandom.IsPowerOfTwo(PaletteBound)
    ensures TriangleColor(k).value
         == JavaRandom.Next31(JavaRandom.StateAfter(JavaRandom.InitialScramble(TriangleSeed), k + 1)) % PaletteBound
  {
  }

  /** Triangle j of region i is entry k = (triangles of regions 0..i-1) + j of the pass:
      the pass grows by its outline in the k-th colour, which is read one generator step
      after the state the k-th colour's predecessor left. */
  lemma TriangleStep(g: Graph, o: Point, i: nat, j: nat, k: nat)
    requires g.Valid() && i < |g.regions| && j < |g.regions[i].triangles|
    requires k == |FanUpTo(g, i)| + j
    ensures g.regions[i].triangles[j].corner1 < |g.corners| && g.regions[i].triangles[j].corner2 < |g.corners|
    ensures k < |TriangleCmds(g, o)|
    ensures TriangleCmds(g, o)[..k + 1] == TriangleCmds(g, o)[..k]
              + [PolygonOutline(ShiftPoints(TrianglePoints(g, g.regions[i], g.regions[i].triangles[j]), o), TriangleColor(k))]
    ensures TriangleColor(k)
         == Rgb(JavaRandom.BoundedValue(JavaRandom.Next31(JavaRandom.Step(
              JavaRandom.StateAfter(JavaRandom.InitialScramble(TriangleSeed), k))), PaletteBound))
  {
    FanRegionOrder(g, i, j);
    var cmds := TriangleCmds(g, o);
    assert cmds[..k + 1] == cmds[..k] + [cmds[k]];
  }

  // ----- the passes -----

  /** drawEdges */
  method DrawEdges(gfx: Graphics, g: Graph)
    requires g.Valid()
    modifies gfx
    ensures gfx.cmds == old(gfx.cmds) + EdgeCmds(g, gfx.origin)
    ensures gfx.origin == old(gfx.origin) && gfx.color == Cyan
  {
    gfx.SetColor(Cyan);
    for k := 0 to |g.edges|
      invariant gfx.origin == old(gfx.origin) && gfx.color == Cyan
      invariant gfx.cmds == old(gfx.cmds) + EdgeCmds(g, gfx.origin)[..k]
    {
      var e := g.edges[k];
      assert e in g.edges;
      var r0c := g.corners[e.corner0];
      var r1c := g.corners[e.corner1];
      gfx.DrawLine(r0c.x, r0c.y, r1c.x, r1c.y);
      assert EdgeCmds(g, gfx.origin)[..k + 1] == EdgeCmds(g, gfx.origin)[..k] + [EdgeCmds(g, gfx.origin)[k]];
    }
  }

  /** drawCorners */
  method DrawCorners(gfx: Graphics, g: Graph)
    modifies gfx
    ensures gfx.cmds == old(gfx.cmds) + CornerCmds(g, gfx.origin)
    ensures gfx.origin == old(gfx.origin) && gfx.color == White
  {
    gfx.SetColor(White);
    for k := 0 to |g.corners|
      invariant gfx.origin == old(gfx.origin) && gfx.color == White
      invariant gfx.cmds == old(gfx.cmds) + CornerCmds(g, gfx.origin)[..k]
    {
      var loc := g.corners[k];
      gfx.FillOval(loc.x - MarkerInset, loc.y - MarkerInset, MarkerSize, MarkerSize);
      assert CornerCmds(g, gfx.origin)[..k + 1] == CornerCmds(g, gfx.origin)[..k] + [CornerCmds(g, gfx.origin)[k]];
    }
  }

  /** drawSites */
  method DrawSites(gfx: Graphics, g: Graph)
    modifies gfx
    ensures gfx.cmds == old(gfx.cmds) + SiteCmds(g, gfx.origin)
    ensures gfx.origin == old(gfx.origin) && gfx.color == Black
  {
    var centers := g.regions;
    gfx.SetColor(Black);
    for k := 0 to |centers|
      invariant gfx.origin == old(gfx.origin) && gfx.color == Black
      invariant gfx.cmds == old(gfx.cmds) + SiteCmds(g, gfx.origin)[..k]
    {
      var center := centers[k].center;
      gfx.FillOval(center.x - MarkerInset, center.y - MarkerInset, MarkerSize, MarkerSize);
      assert SiteCmds(g, gfx.origin)[..k + 1] == SiteCmds(g, gfx.origin)[..k] + [SiteCmds(g, gfx.origin)[k]];
    }
  }

  /** drawBounds */
  method DrawBounds(gfx: Graphics, g: Graph)
    modifies gfx
    ensures gfx.cmds == old(gfx.cmds) + BoundsCmds(g, gfx.origin)
    ensures gfx.origin == old(gfx.origin) && gfx.color == Pink
  {
    var bounds := g.bounds;
    gfx.SetColor(Pink);
    gfx.DrawRect(bounds.minX, bounds.minY, bounds.width, bounds.height);
  }

  /** fillBounds */
  method FillBounds(gfx: Graphics, g: Graph)
    modifies gfx
    ensures gfx.cmds == old(gfx.cmds) + [FillBoundsCmd(g, gfx.origin)]
    ensures gfx.origin == old(gfx.origin) && gfx.color == Magenta
  {
    var bounds := g.bounds;
    gfx.SetColor(Magenta);
    gfx.FillRect(bounds.minX + 1, bounds.minY + 1, bounds.width - 1, bounds.height - 1);
  }

  /** drawTriangle: the outline through the centre and the two corners, in the current colour.
      The locations are integers already, so rounding them half-up leaves them as they are. */
  method DrawTriangle(gfx: Graphics, g: Graph, reg: Region, tri: Triangle)
    requires tri.corner1 < |g.corners| && tri.corner2 < |g.corners|
    modifies gfx
    ensures gfx.cmds == old(gfx.cmds) + [PolygonOutline(ShiftPoints(TrianglePoints(g, reg, tri), gfx.origin), gfx.color)]
    ensures gfx.origin == old(gfx.origin) && gfx.color == old(gfx.color)
  {
    var xPoints := new int[3];
    var yPoints := new int[3];
    var p0 := reg.center;
    var p1 := g.corners[tri.corner1];
    var p2 := g.corners[tri.corner2];
    xPoints[0], yPoints[0] := p0.x, p0.y;
    xPoints[1], yPoints[1] := p1.x, p1.y;
    xPoints[2], yPoints[2] := p2.x, p2.y;
    gfx.DrawPolygon(xPoints, yPoints, 3);
    assert PolygonPoints(xPoints[..], yPoints[..], 3, gfx.origin) == ShiftPoints(TrianglePoints(g, reg, tri), gfx.origin);
  }

  /** drawTriangles: a generator seeded with TriangleSeed, then for each region in order and
      each of its triangles in order, the next colour and the triangle in it. */
  method DrawTriangles(gfx: Graphics, g: Graph)
    requires g.Valid()
    modifies gfx
    ensures gfx.cmds == old(gfx.cmds) + TriangleCmds(g, gfx.origin)
    ensures gfx.origin == old(gfx.origin)
  {
    var regions := g.regions;
    ghost var all := TriangleCmds(g, gfx.origin);
    ghost var start := JavaRandom.InitialScramble(TriangleSeed);
    var r := new JavaRandom.Random(TriangleSeed);
    ghost var k := 0;
    for i := 0 to |regions|
      invariant r.Valid() && gfx.origin == old(gfx.origin)
      invariant k == |FanUpTo(g, i)| && k <= |all|
      invariant r.seed == JavaRandom.StateAfter(start, k)
      invariant gfx.cmds == old(gfx.cmds) + all[..k]
    {
      var reg := regions[i];
      for j := 0 to |reg.triangles|
        invariant k == |FanUpTo(g, i)| + j && k <= |all|
        invariant r.Valid() && gfx.origin == old(gfx.origin)
        invariant r.seed == JavaRandom.StateAfter(start, k)
        invariant gfx.cmds == old(gfx.cmds) + all[..k]
      {
        TriangleStep(g, gfx.origin, i, j, k);
        var v := r.NextInt(PaletteBound);
        gfx.SetColor(Rgb(v));
        DrawTriangle(gfx, g, reg, reg.triangles[j]);
        k := k + 1;
      }
    }
  }

  /** drawPolys: for each region in order, its corners copied into coordinate arrays with a
      running index, then the filled polygon in the colour colorFunc gives the region. */
  method DrawPolys(gfx: Graphics, g: Graph, colorFunc: Region -> Color)
    requires g.Valid()
    modifies gfx
    ensures gfx.cmds == old(gfx.cmds) + PolyCmds(g, colorFunc, gfx.origin)
    ensures gfx.origin == old(gfx.origin)
    ensures gfx.color == if g.regions == [] then old(gfx.color) else colorFunc(g.regions[|g.regions| - 1])
  {
    var regions := g.regions;
    for k := 0 to |regions|
      invariant gfx.origin == old(gfx.origin)
      invariant gfx.cmds == old(gfx.cmds) + PolyCmds(g, colorFunc, gfx.origin)[..k]
      invariant gfx.color == if k == 0 then old(gfx.color) else colorFunc(regions[k - 1])
    {
      var reg := regions[k];
      assert reg in regions;
      var col := colorFunc(reg);
      var pts := reg.corners;
      var xPoints := new int[|pts|];
      var yPoints := new int[|pts|];
      var i := 0;
      while i < |pts|
        modifies xPoints, yPoints
        invariant 0 <= i <= |pts|
        invariant forall m :: 0 <= m < i ==> xPoints[m] == RegionOutline(g, reg)[m].x && yPoints[m] == RegionOutline(g, reg)[m].y
      {
        assert pts[i] in pts;
        xPoints[i] := g.corners[pts[i]].x;
        yPoints[i] := g.corners[pts[i]].y;
        i := i + 1;
      }
      gfx.SetColor(col);
      gfx.FillPolygon(xPoints, yPoints, |pts|);
      assert PolygonPoints(xPoints[..], yPoints[..], |pts|, gfx.origin) == ShiftPoints(RegionOutline(g, reg), gfx.origin);
      ghost var cmds := PolyCmds(g, colorFunc, gfx.origin);
      assert cmds[..k + 1] == cmds[..k] + [cmds[k]];
    }
  }
}
