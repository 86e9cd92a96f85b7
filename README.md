# GraphFacetLayer, modelled in Dafny

This project models the graph facet layer of the WorldViewer (`GraphFacetLayer`). The
layer draws the planar graphs of a world region's `GraphFacet` into an image and answers
hover queries about them.

- It has five switches (edges, triangles, corners, sites, bounds). Triangles are off by
  default and the others are on. A setter notifies the layer's observers only when it
  actually changes its switch.
- `render` translates the drawing context so that the region's minimum corner becomes the
  image origin. Then, for every graph of the facet, it runs the shown passes in a fixed
  order: edges, triangles, corners, sites, bounds.
- The static passes:
  - drawEdges: cyan lines.
  - drawTriangles: fan-triangle outlines. Their colours come from a `java.util.Random`
    reseeded with 12332434 on every call.
  - drawCorners: white 4×4 markers.
  - drawSites: black 4×4 markers.
  - drawBounds: a pink rectangle.
  - fillBounds and drawPolys, which render does not call.
- `getWorldText` reports "R regs, C corners, E edges" for the first graph whose bounds
  contain the point. If no graph contains it, the text is empty.

Modules:

- `Voronoi` (voronoi.dfy): points, rectangles, and graphs whose edges and triangles refer
  to corners by index.
- `Drawing` (graphics.dfy): a `Graphics` class standing in for `Graphics2D`. Every call
  is recorded as a `DrawCmd` in device coordinates, with the colour current at the call.
- `JavaRandom` (java_random.dfy): the 48-bit linear congruential generator of
  `java.util.Random`, with its seed scrambling, `next(31)` and `nextInt(bound)`.
- `Formatting` (formatting.dfy): the `%d` conversion.
- `GraphPasses` (graph_passes.dfy): each static pass as a method. Each method is proved
  to record exactly the commands of a specification function.
- `GraphFacetLayers` (graph_facet_layer.dfy):
  - the layer class, with its switches and notification count;
  - `Render` and `GetWorldText`;
  - the properties of what render draws.

The loop body of `render` is written as the method `GraphFacetLayer.DrawGraph`, which
`Render` calls once per graph. Its statements are the source's five guarded calls,
unchanged.

The triangle pass runs after the edge pass and before the corner pass, and it draws
outlines (`drawPolygon`), not fills: `RenderOrder` is edges, triangles, corners, sites,
bounds, and the triangle commands are `PolygonOutline`s.

## Model

| member | source | states |
|---|---|---|
| Drawing.Graphics.constructor | src/main/java/org/terasology/worldviewer/layers/GraphFacetLayer.java:64 | a new context has no translation and nothing drawn |
| Drawing.Graphics.Translate | src/main/java/org/terasology/worldviewer/layers/GraphFacetLayer.java:65-67 | translate adds (tx, ty) to the current translation and draws nothing |
| Drawing.Graphics.SetColor | src/main/java/org/terasology/worldviewer/layers/GraphFacetLayer.java:162 | setColor changes the current colour only |
| Drawing.Graphics.DrawLine | src/main/java/org/terasology/worldviewer/layers/GraphFacetLayer.java:166 | drawLine records one line between the translated end points, in the current colour |
| Drawing.Graphics.FillOval | src/main/java/org/terasology/worldviewer/layers/GraphFacetLayer.java:242 | fillOval records one filled oval at the translated corner |
| Drawing.Graphics.DrawRect | src/main/java/org/terasology/worldviewer/layers/GraphFacetLayer.java:249 | drawRect records one rectangle outline at the translated corner |
| Drawing.Graphics.FillRect | src/main/java/org/terasology/worldviewer/layers/GraphFacetLayer.java:255 | fillRect records one filled rectangle at the translated corner |
| Drawing.Graphics.DrawPolygon | src/main/java/org/terasology/worldviewer/layers/GraphFacetLayer.java:225 | drawPolygon records the outline through the first n vertices of the coordinate arrays, translated |
| Drawing.Graphics.FillPolygon | src/main/java/org/terasology/worldviewer/layers/GraphFacetLayer.java:189 | fillPolygon records the filled polygon on the first n vertices, translated |
| JavaRandom.InitialScramble | src/main/java/org/terasology/worldviewer/layers/GraphFacetLayer.java:196 | new Random(seed) starts from a 48-bit state |
| JavaRandom.Step | src/main/java/org/terasology/worldviewer/layers/GraphFacetLayer.java:200 | one generator step stays within 48 bits |
| JavaRandom.Next31 | src/main/java/org/terasology/worldviewer/layers/GraphFacetLayer.java:200 | next(31) is below 2^31 |
| JavaRandom.StateAfter | src/main/java/org/terasology/worldviewer/layers/GraphFacetLayer.java:196-200 | the state after n steps stays within 48 bits |
| JavaRandom.Scaled | src/main/java/org/terasology/worldviewer/layers/GraphFacetLayer.java:200 | the power-of-two branch of nextInt gives a value below the bound |
| JavaRandom.BoundedValue | src/main/java/org/terasology/worldviewer/layers/GraphFacetLayer.java:200 | nextInt(bound) gives a value in [0, bound) |
| JavaRandom.DrawInt | src/main/java/org/terasology/worldviewer/layers/GraphFacetLayer.java:196-200 | the k-th nextInt of a freshly seeded generator is in [0, bound) |
| JavaRandom.NextInts | src/main/java/org/terasology/worldviewer/layers/GraphFacetLayer.java:196-200 | successive nextInt(bound) calls on a freshly seeded generator return DrawInt(seed, 0, bound), DrawInt(seed, 1, bound), … in order |
| JavaRandom.Random.constructor | src/main/java/org/terasology/worldviewer/layers/GraphFacetLayer.java:196 | the generator starts in the scrambled seed |
| JavaRandom.Random.NextInt | src/main/java/org/terasology/worldviewer/layers/GraphFacetLayer.java:200 | nextInt steps the state once and returns the bounded value of its top 31 bits, in [0, bound) |
| Formatting.Decimal | src/main/java/org/terasology/worldviewer/layers/GraphFacetLayer.java:98-99 | %d writes a non-empty run of digits without leading zeros |
| Formatting.DecimalRoundTrip | src/main/java/org/terasology/worldviewer/layers/GraphFacetLayer.java:98-99 | reading the digits back gives the number |
| Formatting.DecimalInjective | src/main/java/org/terasology/worldviewer/layers/GraphFacetLayer.java:98-99 | different counts are written differently |
| GraphPasses.RegionFan | src/main/java/org/terasology/worldviewer/layers/GraphFacetLayer.java:199 | a region contributes one triangle per entry of its triangle list |
| GraphPasses.FanPrefix | src/main/java/org/terasology/worldviewer/layers/GraphFacetLayer.java:198-199 | the triangles of the first n regions are the start of those of the first m >= n |
| GraphPasses.FanRegionOrder | src/main/java/org/terasology/worldviewer/layers/GraphFacetLayer.java:198-203 | triangle j of region i is drawn at position (triangles of earlier regions) + j |
| GraphPasses.FanLength | src/main/java/org/terasology/worldviewer/layers/GraphFacetLayer.java:198-199 | the triangle pass visits as many triangles as the regions list |
| GraphPasses.TriangleColor | src/main/java/org/terasology/worldviewer/layers/GraphFacetLayer.java:196-200 | every triangle colour is an RGB value below 0xFFFFFF |
| GraphPasses.TriangleColorModulo | src/main/java/org/terasology/worldviewer/layers/GraphFacetLayer.java:200 | 0xFFFFFF is not a power of two, so each colour is the raw 31-bit draw modulo 0xFFFFFF |
| GraphPasses.TriangleColorsReseeded | src/main/java/org/terasology/worldviewer/layers/GraphFacetLayer.java:193-200 | the k-th triangle gets the same colour on every call, whatever the graph and translation |
| GraphPasses.TriangleStep | src/main/java/org/terasology/worldviewer/layers/GraphFacetLayer.java:198-202 | the pass grows by the outline of the next triangle in the next generator colour |
| GraphPasses.PassCmdsShape | src/main/java/org/terasology/worldviewer/layers/GraphFacetLayer.java:160-250 | each pass records one command per edge, triangle, corner or site (one for bounds), each recognisable as coming from that pass |
| GraphPasses.PassShift | src/main/java/org/terasology/worldviewer/layers/GraphFacetLayer.java:160-250 | each pass records what it records untranslated, shifted by the translation |
| GraphPasses.DrawEdges | src/main/java/org/terasology/worldviewer/layers/GraphFacetLayer.java:160-168 | drawEdges records a cyan line per edge, corner0 to corner1, in edge order |
| GraphPasses.DrawCorners | src/main/java/org/terasology/worldviewer/layers/GraphFacetLayer.java:238-244 | drawCorners records a white 4x4 oval at (x-2, y-2) per corner, in order |
| GraphPasses.DrawSites | src/main/java/org/terasology/worldviewer/layers/GraphFacetLayer.java:228-236 | drawSites records a black 4x4 oval at (x-2, y-2) per region centre, in order |
| GraphPasses.DrawBounds | src/main/java/org/terasology/worldviewer/layers/GraphFacetLayer.java:246-250 | drawBounds records one pink outline of the bounds |
| GraphPasses.FillBounds | src/main/java/org/terasology/worldviewer/layers/GraphFacetLayer.java:252-256 | fillBounds records one magenta box at (minX+1, minY+1) of size (w-1, h-1) |
| GraphPasses.DrawTriangle | src/main/java/org/terasology/worldviewer/layers/GraphFacetLayer.java:206-226 | drawTriangle records the outline through centre, corner1 and corner2 in the current colour |
| GraphPasses.DrawTriangles | src/main/java/org/terasology/worldviewer/layers/GraphFacetLayer.java:193-204 | drawTriangles records every fan triangle, region by region, the k-th in the k-th colour of the reseeded generator |
| GraphPasses.DrawPolys | src/main/java/org/terasology/worldviewer/layers/GraphFacetLayer.java:170-191 | drawPolys records per region the filled polygon on its corners, in the colour colorFunc gives it |
| GraphFacetLayers.Flags.With | src/main/java/org/terasology/worldviewer/layers/GraphFacetLayer.java:109-158 | setting one switch leaves the other four unchanged |
| GraphFacetLayers.Update | src/main/java/org/terasology/worldviewer/layers/GraphFacetLayer.java:109-158 | a setter sets its switch; it notifies once if the value changed and not at all otherwise |
| GraphFacetLayers.UpdateIdempotent | src/main/java/org/terasology/worldviewer/layers/GraphFacetLayer.java:109-114 | repeating a setter with the same value changes nothing and does not notify again |
| GraphFacetLayers.UpdateCommutes | src/main/java/org/terasology/worldviewer/layers/GraphFacetLayer.java:109-158 | setters of different switches commute, notification count included |
| GraphFacetLayers.UpdateToggleBack | src/main/java/org/terasology/worldviewer/layers/GraphFacetLayer.java:109-114 | switching away and back restores the switches and notifies exactly twice |
| GraphFacetLayers.PassesShape | src/main/java/org/terasology/worldviewer/layers/GraphFacetLayer.java:69-87 | passes run in increasing order record their sizes, from shown passes only, in pass order |
| GraphFacetLayers.GraphCmdsShape | src/main/java/org/terasology/worldviewer/layers/GraphFacetLayer.java:69-87 | per graph: only shown passes draw; edges come before triangles, corners, sites and bounds; the count is the sum of the shown pass sizes |
| GraphFacetLayers.RenderShownOnly | src/main/java/org/terasology/worldviewer/layers/GraphFacetLayer.java:68-88 | everything render draws comes from a shown pass, and its size is the sum over the graphs |
| GraphFacetLayers.RenderHidesPass | src/main/java/org/terasology/worldviewer/layers/GraphFacetLayer.java:69-87 | a switched-off pass leaves no command in the image |
| GraphFacetLayers.RenderPrefix | src/main/java/org/terasology/worldviewer/layers/GraphFacetLayer.java:68-88 | drawing the first m graphs starts with drawing the first n <= m |
| GraphFacetLayers.RenderBlock | src/main/java/org/terasology/worldviewer/layers/GraphFacetLayer.java:68-88 | graph i's drawing is one contiguous block, after the blocks of the graphs before it |
| GraphFacetLayers.PassesShift | src/main/java/org/terasology/worldviewer/layers/GraphFacetLayer.java:67-87 | the passes move every coordinate by the translation and nothing else |
| GraphFacetLayers.RenderShift | src/main/java/org/terasology/worldviewer/layers/GraphFacetLayer.java:65-67 | render's image is the untranslated drawing shifted by (-minX, -minZ) |
| GraphFacetLayers.CountsTextInjective | src/main/java/org/terasology/worldviewer/layers/GraphFacetLayer.java:98-99 | the hover text determines the region, corner and edge counts exactly |
| GraphFacetLayers.GraphFacetLayer.constructor | src/main/java/org/terasology/worldviewer/layers/GraphFacetLayer.java:49-53 | a new layer shows edges, bounds, corners and sites, hides triangles, and has not notified |
| GraphFacetLayers.GraphFacetLayer.IsShowEdges | src/main/java/org/terasology/worldviewer/layers/GraphFacetLayer.java:105-107 | the getter reports the edges switch |
| GraphFacetLayers.GraphFacetLayer.SetShowEdges | src/main/java/org/terasology/worldviewer/layers/GraphFacetLayer.java:109-114 | the new state is Update(old state, Edges, v) |
| GraphFacetLayers.GraphFacetLayer.IsShowBounds | src/main/java/org/terasology/worldviewer/layers/GraphFacetLayer.java:116-118 | the getter reports the bounds switch |
| GraphFacetLayers.GraphFacetLayer.SetShowBounds | src/main/java/org/terasology/worldviewer/layers/GraphFacetLayer.java:120-125 | the new state is Update(old state, Bounds, v) |
| GraphFacetLayers.GraphFacetLayer.IsShowCorners | src/main/java/org/terasology/worldviewer/layers/GraphFacetLayer.java:127-129 | the getter reports the corners switch |
| GraphFacetLayers.GraphFacetLayer.SetShowCorners | src/main/java/org/terasology/worldviewer/layers/GraphFacetLayer.java:131-136 | the new state is Update(old state, Corners, v) |
| GraphFacetLayers.GraphFacetLayer.IsShowSites | src/main/java/org/terasology/worldviewer/layers/GraphFacetLayer.java:138-140 | the getter reports the sites switch |
| GraphFacetLayers.GraphFacetLayer.SetShowSites | src/main/java/org/terasology/worldviewer/layers/GraphFacetLayer.java:142-147 | the new state is Update(old state, Sites, v) |
| GraphFacetLayers.GraphFacetLayer.IsShowTris | src/main/java/org/terasology/worldviewer/layers/GraphFacetLayer.java:149-151 | the getter reports the triangles switch |
| GraphFacetLayers.GraphFacetLayer.SetShowTris | src/main/java/org/terasology/worldviewer/layers/GraphFacetLayer.java:153-158 | the new state is Update(old state, Tris, v) |
| GraphFacetLayers.GraphFacetLayer.Render | src/main/java/org/terasology/worldviewer/layers/GraphFacetLayer.java:60-91 | render draws exactly RenderCmds: each graph in order, the shown passes in code order, translated by (-minX, -minZ) |
| GraphFacetLayers.GraphFacetLayer.DrawGraph | src/main/java/org/terasology/worldviewer/layers/GraphFacetLayer.java:69-87 | one iteration of render's loop appends that graph's shown passes and keeps the translation |
| GraphFacetLayers.GraphFacetLayer.GetWorldText | src/main/java/org/terasology/worldviewer/layers/GraphFacetLayer.java:93-103 | the text is empty exactly when no graph's bounds contain the point; otherwise it is the counts of the first graph that does |

## Left out

- MainFrame and DummyPermissionProviderFactory are context around the layer, not part of
  it. They are not part of this model.
- getFacetClass returns a constant class object and has no behaviour to model.
- A region without a GraphFacet is not modelled. There `getFacet` returns null, and both
  render and getWorldText fail with a NullPointerException. A `WorldRegion` carries its
  graphs directly.
- The graph classes of polyworld (Graph, Region, Corner, Edge, Triangle and
  `Region.computeTriangles`) are not part of this model:
  - A region's fan triangles are taken as a given list.
  - The Corner references of the Java Edge, Region and Triangle classes are indices into
    the graph's corner list. `Graph.Valid` states that every such index names a corner of
    that list. It stands for two assumptions: the references are non-null, and every
    referenced corner belongs to the graph's own corner list.
  - A triangle's centre is taken from the region being walked. The source reads it from
    `tri.getRegion()`, and the model assumes that this is the region whose
    `computeTriangles` listed the triangle.
- Pixels are not modelled. The image is the list of drawing calls, which leaves out
  rasterisation, clipping to the image, and blending. `BasicStroke(1)` (`setStroke`) and
  `g.dispose()` are left out for the same reason.
- The model does not take the `img` parameter. `Render` returns the context it drew on
  instead.
- Locations are integers in the model. The source's float locations, the `(int)` casts
  and the HALF_UP rounding of drawTriangle are therefore left out. On integral
  coordinates they change nothing.
- Java `int` overflow is not modelled. Coordinates and counts are unbounded: `minX + 1`,
  `width - 1` and `-dx` cannot wrap in the model.
- The observers and `notifyObservers` are left out, because their callbacks are code
  outside the layer. They are replaced by a count of notifications.
- `Rect2i` is not part of this model. Its `contains` is taken as half-open:
  minX <= x < minX + width, and likewise in y.
- `String.format` uses the default locale. The model assumes ASCII digits.
- JavaRandom.Random.NextInt: the retry loop of `nextInt` is not modelled. For a bound that
  is not a power of two, `nextInt` retries while `u - u % bound + (bound - 1)` overflows an
  `int`. Its termination cannot be proved without an unbounded loop. For the layer's bound
  0xFFFFFF this affects raw draws of 2147483520 and above, 128 of the 2^31 values.
- JavaRandom.BoundedValue: this is the first draw of `nextInt`, without that retry. The
  colour that `TriangleColor` and `DrawTriangles` give a triangle is therefore exact
  except after such a draw.
- GraphPasses.DrawTriangles: the colour left current after the pass is not stated. Every
  later pass sets its own colour before drawing, so render never observes it. The same
  holds for GraphFacetLayers.GraphFacetLayer.DrawGraph: the colour it leaves current after
  a graph is not stated, because the next graph's first pass sets its own colour.
- The `IllegalArgumentException` of `nextInt` for a bound <= 0 is a precondition of
  `NextInt`. The layer always passes 0xFFFFFF.
