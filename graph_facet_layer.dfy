/** The graph facet layer of the world viewer: five switches saying which passes render
    runs, observers told when a switch changes, the rendering of every graph of a region
    in one image, and the hover text naming the graph under the cursor. */
module GraphFacetLayers {
  import opened Voronoi
  import opened Drawing
  import opened Options
  import opened Formatting
  import opened GraphPasses

  /** Which passes render runs. */
  datatype Flags = Flags(edges: bool, tris: bool, corners: bool, sites: bool, bounds: bool) {

    function Shows(p: Pass): bool {
      match p
      case Edges => edges
      case Tris => tris
      case Corners => corners
      case Sites => sites
      case Bounds => bounds
    }

    /** The switch for p set to v, every other switch as it was. */
    function With(p: Pass, v: bool): (r: Flags)
      ensures r.Shows(p) == v
      ensures forall q :: q != p ==> r.Shows(q) == Shows(q)
    {
      match p
      case Edges => this.(edges := v)
      case Tris => this.(tris := v)
      case Corners => this.(corners := v)
      case Sites => this.(sites := v)
      case Bounds => this.(bounds := v)
    }
  }

  /** A new layer shows edges, bounds, corners and sites, but not triangles. */
  const DefaultFlags := Flags(edges := true, tris := false, corners := true, sites := true, bounds := true)

  /** What a layer holds: its switches, and how many times it has notified its observers. */
  datatype LayerState = LayerState(flags: Flags, notifications: nat)

  /** A setter for pass p called with v: the switch takes the value v, and the observers are
      notified once if that changed it and not at all if it was already v. */
  function Update(s: LayerState, p: Pass, v: bool): (r: LayerState)
    ensures r.flags.Shows(p) == v
    ensures forall q :: q != p ==> r.flags.Shows(q) == s.flags.Shows(q)
    ensures s.flags.Shows(p) == v ==> r == s
    ensures s.flags.Shows(p) != v ==> r.notifications == s.notifications + 1
  {
    if s.flags.Shows(p) != v then LayerState(s.flags.With(p, v), s.notifications + 1) else s
  }

  /** Two switch settings that agree on every pass are the same. */
  lemma FlagsExtensional(a: Flags, b: Flags)
    requires forall p :: a.Shows(p) == b.Shows(p)
    ensures a == b
  {
    assert a.Shows(Edges) == b.Shows(Edges) && a.Shows(Tris) == b.Shows(Tris);
    assert a.Shows(Corners) == b.Shows(Corners) && a.Shows(Sites) == b.Shows(Sites);
    assert a.Shows(Bounds) == b.Shows(Bounds);
  }

  /** Calling a setter twice with the same value notifies no more than calling it once. */
  lemma UpdateIdempotent(s: LayerState, p: Pass, v: bool)
    ensures Update(Update(s, p, v), p, v) == Update(s, p, v)
  {
  }

  /** Setters for different passes commute, in the switches and in the notification count. */
  lemma UpdateCommutes(s: LayerState, p: Pass, v: bool, q: Pass, w: bool)
    requires p != q
    ensures Update(Update(s, p, v), q, w) == Update(Update(s, q, w), p, v)
  {
    var a, b := Update(Update(s, p, v), q, w), Update(Update(s, q, w), p, v);
    forall x
      ensures a.flags.Shows(x) == b.flags.Shows(x)
    {
    }
    FlagsExtensional(a.flags, b.flags);
  }

  /** Switching a pass away and back restores the switches, at the cost of two notifications. */
  lemma UpdateToggleBack(s: LayerState, p: Pass)
    ensures Update(Update(s, p, !s.flags.Shows(p)), p, s.flags.Shows(p))
         == LayerState(s.flags, s.notifications + 2)
  {
    var t := Update(Update(s, p, !s.flags.Shows(p)), p, s.flags.Shows(p));
    forall x
      ensures t.flags.Shows(x) == s.flags.Shows(x)
    {
    }
    FlagsExtensional(t.flags, s.flags);
  }

  // ----- what render records -----

  /** The commands of pass p if the switches show it, none otherwise. */
  function Gated(f: Flags, p: Pass, g: Graph, o: Point): seq<DrawCmd>
    requires g.Valid()
  {
    if f.Shows(p) then PassCmds(p, g, o) else []
  }

  /** The passes render runs for each graph, in the order it runs them. */
  const RenderOrder: seq<Pass> := [Edges, Tris, Corners, Sites, Bounds]

  /** The passes ps run one after the other, each only if the switches show it. */
  function PassesCmds(f: Flags, ps: seq<Pass>, g: Graph, o: Point): seq<DrawCmd>
    requires g.Valid()
  {
    if ps == [] then [] else PassesCmds(f, ps[..|ps| - 1], g, o) + Gated(f, ps[|ps| - 1], g, o)
  }

  /** How many commands the shown passes among ps record, counted from the graph alone. */
  function PassesSize(f: Flags, ps: seq<Pass>, g: Graph): nat {
    if ps == [] then 0 else PassesSize(f, ps[..|ps| - 1], g) + (if f.Shows(ps[|ps| - 1]) then PassSize(ps[|ps| - 1], g) else 0)
  }

  /** One graph, drawn by the passes the switches show: edges, triangles, corners, sites, bounds. */
  function GraphCmds(f: Flags, g: Graph, o: Point): seq<DrawCmd>
    requires g.Valid()
  {
    PassesCmds(f, RenderOrder, g, o)
  }

  function GraphSize(f: Flags, g: Graph): nat {
    PassesSize(f, RenderOrder, g)
  }

  /** The translation render applies: the region's minimum corner goes to the image origin. */
  function Offset(region: WorldRegion): Point {
    Point(-region.minX, -region.minZ)
  }

  /** The first n graphs of the region, drawn one after the other. */
  function RenderUpTo(f: Flags, region: WorldRegion, o: Point, n: nat): seq<DrawCmd>
    requires region.Valid() && n <= |region.graphs|
  {
    if n == 0 then []
    else
      assert region.graphs[n - 1] in region.graphs;
      RenderUpTo(f, region, o, n - 1) + GraphCmds(f, region.graphs[n - 1], o)
  }

  /** Drawing one more graph appends its commands to those already drawn. */
  lemma RenderUpToStep(f: Flags, region: WorldRegion, o: Point, i: nat, before: seq<DrawCmd>)
    requires region.Valid() && i < |region.graphs|
    requires before == RenderUpTo(f, region, o, i)
    ensures region.graphs[i].Valid()
    ensures before + GraphCmds(f, region.graphs[i], o) == RenderUpTo(f, region, o, i + 1)
  {
    assert region.graphs[i] in region.graphs;
  }

  /** How many commands the first n graphs get. */
  function RenderSize(f: Flags, region: WorldRegion, n: nat): nat
    requires n <= |region.graphs|
  {
    if n == 0 then 0 else RenderSize(f, region, n - 1) + GraphSize(f, region.graphs[n - 1])
  }

  /** Everything render records for the region. */
  function RenderCmds(f: Flags, region: WorldRegion): seq<DrawCmd>
    requires region.Valid()
  {
    RenderUpTo(f, region, Offset(region), |region.graphs|)
  }

  /** The pass a command comes from, as its position in render's sequence; -1 for none. */
  function RankOf(c: DrawCmd): int {
    match PassOf(c)
    case Some(p) => Rank(p)
    case None => -1
  }

  /** Every command comes from a pass the switches show. */
  predicate FromShownPasses(f: Flags, cs: seq<DrawCmd>) {
    forall k :: 0 <= k < |cs| ==> PassOf(cs[k]).Some? && f.Shows(PassOf(cs[k]).value)
  }

  /** No command of a later pass comes before one of an earlier pass. */
  predicate InPassOrder(cs: seq<DrawCmd>) {
    forall a, b :: 0 <= a < b < |cs| ==> RankOf(cs[a]) <= RankOf(cs[b])
  }

  // ----- properties of render -----

  /** Appending the (gated) commands of pass p to commands of passes no later than p keeps
      them shown and in order. */
  lemma AppendPass(f: Flags, cs: seq<DrawCmd>, p: Pass, g: Graph, o: Point)
    requires g.Valid()
    requires FromShownPasses(f, cs) && InPassOrder(cs)
    requires forall k :: 0 <= k < |cs| ==> RankOf(cs[k]) <= Rank(p)
    ensures FromShownPasses(f, cs + Gated(f, p, g, o)) && InPassOrder(cs + Gated(f, p, g, o))
    ensures forall k :: 0 <= k < |cs + Gated(f, p, g, o)| ==> RankOf((cs + Gated(f, p, g, o))[k]) <= Rank(p)
  {
    PassCmdsShape(p, g, o);
    var ds := Gated(f, p, g, o);
    assert forall k :: 0 <= k < |ds| ==> PassOf(ds[k]) == Some(p) && f.Shows(p);
    var all := cs + ds;
    assert forall k :: |cs| <= k < |all| ==> all[k] == ds[k - |cs|];
  }

  /** What render has drawn of a graph once the first k passes of its order have had their turn. */
  function Stage(f: Flags, k: nat, g: Graph, o: Point): seq<DrawCmd>
    requires g.Valid() && k <= |RenderOrder|
  {
    PassesCmds(f, RenderOrder[..k], g, o)
  }

  /** Pass p, the (k+1)-th of render's order, appends its commands after what is already
      drawn when it is shown, and nothing when it is not. */
  lemma StageStep(f: Flags, k: nat, p: Pass, g: Graph, o: Point, before: seq<DrawCmd>)
    requires g.Valid() && k < |RenderOrder| && RenderOrder[k] == p
    ensures f.Shows(p) ==> before + Stage(f, k + 1, g, o) == before + Stage(f, k, g, o) + PassCmds(p, g, o)
    ensures !f.Shows(p) ==> before + Stage(f, k + 1, g, o) == before + Stage(f, k, g, o)
  {
    assert RenderOrder[..k + 1][..k] == RenderOrder[..k];
  }

  /** Before any pass nothing is drawn; after the last, the whole graph. */
  lemma StageEnds(f: Flags, g: Graph, o: Point)
    requires g.Valid()
    ensures Stage(f, 0, g, o) == []
    ensures Stage(f, |RenderOrder|, g, o) == GraphCmds(f, g, o)
  {
    assert RenderOrder[..|RenderOrder|] == RenderOrder;
  }

  /** Passes run in increasing rank record exactly PassesSize commands, each from a shown
      pass, in pass order and no later than the last pass. */
  lemma {:induction false} PassesShape(f: Flags, ps: seq<Pass>, g: Graph, o: Point)
    requires g.Valid()
    requires forall a, b :: 0 <= a < b < |ps| ==> Rank(ps[a]) < Rank(ps[b])
    ensures |PassesCmds(f, ps, g, o)| == PassesSize(f, ps, g)
    ensures FromShownPasses(f, PassesCmds(f, ps, g, o)) && InPassOrder(PassesCmds(f, ps, g, o))
    ensures ps != [] ==> forall k :: 0 <= k < |PassesCmds(f, ps, g, o)| ==> RankOf(PassesCmds(f, ps, g, o)[k]) <= Rank(ps[|ps| - 1])
  {
    if ps != [] {
      var init, p := ps[..|ps| - 1], ps[|ps| - 1];
      PassesShape(f, init, g, o);
      PassCmdsShape(p, g, o);
      AppendPass(f, PassesCmds(f, init, g, o), p, g, o);
    }
  }

  /** One graph: exactly GraphSize commands, each from a shown pass, edges first and bounds last. */
  lemma GraphCmdsShape(f: Flags, g: Graph, o: Point)
    requires g.Valid()
    ensures |GraphCmds(f, g, o)| == GraphSize(f, g)
    ensures FromShownPasses(f, GraphCmds(f, g, o)) && InPassOrder(GraphCmds(f, g, o))
  {
    PassesShape(f, RenderOrder, g, o);
  }

  /** A hidden pass draws nothing: every command render records comes from a shown pass,
      and there are exactly RenderSize of them. */
  lemma {:induction false} RenderShownOnly(f: Flags, region: WorldRegion, o: Point, n: nat)
    requires region.Valid() && n <= |region.graphs|
    ensures |RenderUpTo(f, region, o, n)| == RenderSize(f, region, n)
    ensures FromShownPasses(f, RenderUpTo(f, region, o, n))
  {
    if n > 0 {
      RenderShownOnly(f, region, o, n - 1);
      assert region.graphs[n - 1] in region.graphs;
      GraphCmdsShape(f, region.graphs[n - 1], o);
      var a, b := RenderUpTo(f, region, o, n - 1), GraphCmds(f, region.graphs[n - 1], o);
      assert forall k :: |a| <= k < |a + b| ==> (a + b)[k] == b[k - |a|];
    }
  }

  /** A pass whose switch is off leaves no trace in the image. */
  lemma RenderHidesPass(f: Flags, region: WorldRegion, p: Pass)
    requires region.Valid() && !f.Shows(p)
    ensures forall k :: 0 <= k < |RenderCmds(f, region)| ==> PassOf(RenderCmds(f, region)[k]) != Some(p)
  {
    RenderShownOnly(f, region, Offset(region), |region.graphs|);
  }

  /** Drawing the first m graphs starts with drawing the first n <= m. */
  lemma {:induction false} RenderPrefix(f: Flags, region: WorldRegion, o: Point, n: nat, m: nat)
    requires region.Valid() && n <= m <= |region.graphs|
    ensures |RenderUpTo(f, region, o, n)| <= |RenderUpTo(f, region, o, m)|
    ensures RenderUpTo(f, region, o, m)[..|RenderUpTo(f, region, o, n)|] == RenderUpTo(f, region, o, n)
    decreases m
  {
    if n < m {
      RenderPrefix(f, region, o, n, m - 1);
      var a := RenderUpTo(f, region, o, m - 1);
      assert region.graphs[m - 1] in region.graphs;
      var b := GraphCmds(f, region.graphs[m - 1], o);
      assert (a + b)[..|RenderUpTo(f, region, o, n)|] == a[..|RenderUpTo(f, region, o, n)|];
    }
  }

  /** The graphs are drawn whole, one after another in the facet's order: graph i's commands
      are one contiguous block, starting after those of the graphs before it. */
  lemma RenderBlock(f: Flags, region: WorldRegion, i: nat)
    requires region.Valid() && i < |region.graphs|
    ensures region.graphs[i].Valid()
    ensures RenderSize(f, region, i + 1) <= |RenderCmds(f, region)|
    ensures RenderCmds(f, region)[RenderSize(f, region, i)..RenderSize(f, region, i + 1)]
         == GraphCmds(f, region.graphs[i], Offset(region))
  {
    var o := Offset(region);
    assert region.graphs[i] in region.graphs;
    RenderShownOnly(f, region, o, i);
    RenderShownOnly(f, region, o, i + 1);
    RenderPrefix(f, region, o, i + 1, |region.graphs|);
    var a, b := RenderUpTo(f, region, o, i), GraphCmds(f, region.graphs[i], o);
    assert RenderUpTo(f, region, o, i + 1) == a + b;
    assert (a + b)[|a|..] == b;
  }

  /** The passes translate every coordinate by the context's translation, and only them. */
  lemma {:induction false} PassesShift(f: Flags, ps: seq<Pass>, g: Graph, o: Point)
    requires g.Valid()
    ensures PassesCmds(f, ps, g, o) == ShiftAll(PassesCmds(f, ps, g, Origin), o)
  {
    if ps != [] {
      var init, p := ps[..|ps| - 1], ps[|ps| - 1];
      PassesShift(f, init, g, o);
      PassShift(p, g, o);
      ShiftAllConcat(PassesCmds(f, init, g, Origin), Gated(f, p, g, Origin), o);
    }
  }

  /** Render draws the region exactly as it would at the image origin, moved by the offset:
      the translation reaches every coordinate and nothing else. */
  lemma {:induction false} RenderShift(f: Flags, region: WorldRegion, o: Point, n: nat)
    requires region.Valid() && n <= |region.graphs|
    ensures RenderUpTo(f, region, o, n) == ShiftAll(RenderUpTo(f, region, Origin, n), o)
  {
    if n > 0 {
      RenderShift(f, region, o, n - 1);
      var g := region.graphs[n - 1];
      assert g in region.graphs;
      PassesShift(f, RenderOrder, g, o);
      ShiftAllConcat(RenderUpTo(f, region, Origin, n - 1), GraphCmds(f, g, Origin), o);
    }
  }

  // ----- the hover text -----

  /** "%d regs, %d corners, %d edges" with the graph's region, corner and edge counts. */
  function CountsText(g: Graph): string {
    Decimal(|g.regions|) + (" regs, " + (Decimal(|g.corners|) + (" corners, " + (Decimal(|g.edges|) + " edges"))))
  }

  /** A number written in decimal and followed by a non-digit is read back unambiguously. */
  lemma DecimalThenSplit(m: nat, s1: string, n: nat, s2: string)
    requires |s1| > 0 && |s2| > 0 && !IsDigit(s1[0]) && !IsDigit(s2[0])
    requires Decimal(m) + s1 == Decimal(n) + s2
    ensures m == n && s1 == s2
  {
    var d1, d2 := Decimal(m), Decimal(n);
    assert d1 == (d1 + s1)[..|d1|];
    assert d2 == (d2 + s2)[..|d2|];
    DecimalInjective(m, n);
    assert s1 == (d1 + s1)[|d1|..];
    assert s2 == (d2 + s2)[|d2|..];
  }

  lemma DropCommonPrefix(p: string, x: string, y: string)
    requires p + x == p + y
    ensures x == y
  {
    assert x == (p + x)[|p|..];
    assert y == (p + y)[|p|..];
  }

  /** The hover text reports the counts exactly: two graphs get the same text only when they
      have as many regions, corners and edges as each other. */
  lemma CountsTextInjective(g1: Graph, g2: Graph)
    requires CountsText(g1) == CountsText(g2)
    ensures |g1.regions| == |g2.regions| && |g1.corners| == |g2.corners| && |g1.edges| == |g2.edges|
  {
    var e1, e2 := Decimal(|g1.edges|) + " edges", Decimal(|g2.edges|) + " edges";
    var c1, c2 := Decimal(|g1.corners|) + (" corners, " + e1), Decimal(|g2.corners|) + (" corners, " + e2);
    DecimalThenSplit(|g1.regions|, " regs, " + c1, |g2.regions|, " regs, " + c2);
    DropCommonPrefix(" regs, ", c1, c2);
    DecimalThenSplit(|g1.corners|, " corners, " + e1, |g2.corners|, " corners, " + e2);
    DropCommonPrefix(" corners, ", e1, e2);
    DecimalThenSplit(|g1.edges|, " edges", |g2.edges|, " edges");
  }

  // ----- the layer -----

  class GraphFacetLayer {
    var showEdges: bool
    var showBounds: bool
    var showCorners: bool
    var showSites: bool
    var showTris: bool
    /** How many times the layer has notified its observers. */
    var notifications: nat

    function State(): LayerState
      reads this
    {
      LayerState(Flags(showEdges, showTris, showCorners, showSites, showBounds), notifications)
    }

    constructor ()
      ensures State() == LayerState(DefaultFlags, 0)
    {
      showEdges := true;
      showBounds := true;
      showCorners := true;
      showSites := true;
      showTris := false;
      notifications := 0;
    }

    function IsShowEdges(): (b: bool)
      reads this
      ensures b == State().flags.Shows(Edges)
    {
      showEdges
    }

    method SetShowEdges(v: bool)
      modifies this
      ensures State() == Update(old(State()), Edges, v)
    {
      if showEdges != v {
        showEdges := v;
        notifications := notifications + 1;
      }
    }

    function IsShowBounds(): (b: bool)
      reads this
      ensures b == State().flags.Shows(Bounds)
    {
      showBounds
    }

    method SetShowBounds(v: bool)
      modifies this
      ensures State() == Update(old(State()), Bounds, v)
    {
      if showBounds != v {
        showBounds := v;
        notifications := notifications + 1;
      }
    }

    function IsShowCorners(): (b: bool)
      reads this
      ensures b == State().flags.Shows(Corners)
    {
      showCorners
    }

    method SetShowCorners(v: bool)
      modifies this
      ensures State() == Update(old(State()), Corners, v)
    {
      if showCorners != v {
        showCorners := v;
        notifications := notifications + 1;
      }
    }

    function IsShowSites(): (b: bool)
      reads this
      ensures b == State().flags.Shows(Sites)
    {
      showSites
    }

    method SetShowSites(v: bool)
      modifies this
      ensures State() == Update(old(State()), Sites, v)
    {
      if showSites != v {
        showSites := v;
        notifications := notifications + 1;
      }
    }

    function IsShowTris(): (b: bool)
      reads this
      ensures b == State().flags.Shows(Tris)
    {
      showTris
    }

    method SetShowTris(v: bool)
      modifies this
      ensures State() == Update(old(State()), Tris, v)
    {
      if showTris != v {
        showTris := v;
        notifications := notifications + 1;
      }
    }

    /** render: a context translated so that the region's minimum corner is the image origin,
        then for each graph of the facet the passes the switches show, in the order edges,
        triangles, corners, sites, bounds. The image is the returned context's record. */
    method Render(region: WorldRegion) returns (gfx: Graphics)
      requires region.Valid()
      ensures fresh(gfx)
      ensures gfx.cmds == RenderCmds(State().flags, region)
    {
      gfx := new Graphics();
      var dx := region.minX;
      var dy := region.minZ;
      gfx.Translate(-dx, -dy);
      var graphs := region.graphs;
      ghost var f := State().flags;
      for i := 0 to |graphs|
        invariant gfx.origin == Offset(region)
        invariant gfx.cmds == RenderUpTo(f, region, Offset(region), i)
      {
        var graph := graphs[i];
        assert graph in graphs;
        ghost var before := gfx.cmds;
        DrawGraph(gfx, graph);
        RenderUpToStep(f, region, Offset(region), i, before);
      }
    }

    /** The body of render's loop: the shown passes for one graph, in render's order. */
    method DrawGraph(gfx: Graphics, graph: Graph)
      requires graph.Valid()
      modifies gfx
      ensures gfx.cmds == old(gfx.cmds) + GraphCmds(State().flags, graph, gfx.origin)
      ensures gfx.origin == old(gfx.origin)
    {
      ghost var f := State().flags;
      ghost var before, o := gfx.cmds, gfx.origin;
      StageEnds(f, graph, o);
      assert gfx.cmds == before + Stage(f, 0, graph, o);
      if showEdges {
        DrawEdges(gfx, graph);
      }
      StageStep(f, 0, Edges, graph, o, before);
      assert gfx.cmds == before + Stage(f, 1, graph, o);
      if showTris {
        DrawTriangles(gfx, graph);
      }
      StageStep(f, 1, Tris, graph, o, before);
      assert gfx.cmds == before + Stage(f, 2, graph, o);
      if showCorners {
        DrawCorners(gfx, graph);
      }
      StageStep(f, 2, Corners, graph, o, before);
      assert gfx.cmds == before + Stage(f, 3, graph, o);
      if showSites {
        DrawSites(gfx, graph);
      }
      StageStep(f, 3, Sites, graph, o, before);
      assert gfx.cmds == before + Stage(f, 4, graph, o);
      if showBounds {
        DrawBounds(gfx, graph);
      }
      StageStep(f, 4, Bounds, graph, o, before);
      assert gfx.cmds == before + Stage(f, 5, graph, o);
    }

    /** getWorldText: the counts of the first graph whose bounds contain (wx, wy), or the
        empty string when none does. */
    method GetWorldText(region: WorldRegion, wx: int, wy: int) returns (s: string)
      ensures s == "" <==> forall k :: 0 <= k < |region.graphs| ==> !region.graphs[k].bounds.Contains(wx, wy)
      ensures forall k :: 0 <= k < |region.graphs| && region.graphs[k].bounds.Contains(wx, wy)
                && (forall m :: 0 <= m < k ==> !region.graphs[m].bounds.Contains(wx, wy))
                ==> s == CountsText(region.graphs[k])
    {
      var graphs := region.graphs;
      for i := 0 to |graphs|
        invariant forall m :: 0 <= m < i ==> !graphs[m].bounds.Contains(wx, wy)
      {
        if graphs[i].bounds.Contains(wx, wy) {
          s := CountsText(graphs[i]);
          return;
        }
      }
      s := "";
    }
  }
}
