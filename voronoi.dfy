/** The planar graph a GraphFacet holds, and the world region it is read from.
    Locations are integers; corners are referred to by their index in the graph's
    corner list, which stands for the Corner references of the Java Edge, Region and
    Triangle classes. */
module Voronoi {

  /** A point in world (or, once translated, image) coordinates. */
  datatype Point = Point(x: int, y: int) {
    function Plus(d: Point): Point {
      Point(x + d.x, y + d.y)
    }
  }

  const Origin := Point(0, 0)

  /** An integer rectangle: its minimum corner, width and height. */
  datatype Rect = Rect(minX: int, minY: int, width: int, height: int) {
    /** Half-open containment: minX <= px < minX + width, and likewise in y. */
    predicate Contains(px: int, py: int) {
      minX <= px < minX + width && minY <= py < minY + height
    }
  }

  /** An edge joins two corners, given by index. */
  datatype Edge = Edge(corner0: nat, corner1: nat)

  /** A triangle of a region's fan: the region's centre and two corners. */
  datatype Triangle = Triangle(corner1: nat, corner2: nat)

  /** A cell: its centre (the site), its corners in order, and its fan triangulation. */
  datatype Region = Region(center: Point, corners: seq<nat>, triangles: seq<Triangle>)

  datatype Graph = Graph(corners: seq<Point>, edges: seq<Edge>, regions: seq<Region>, bounds: Rect) {

    /** Every corner index the region uses names a corner of this graph. */
    predicate RegionValid(r: Region) {
      (forall c :: c in r.corners ==> c < |corners|) &&
      (forall t :: t in r.triangles ==> t.corner1 < |corners| && t.corner2 < |corners|)
    }

    /** Every index in the graph names one of its corners. */
    predicate Valid() {
      (forall e :: e in edges ==> e.corner0 < |corners| && e.corner1 < |corners|) &&
      (forall r :: r in regions ==> RegionValid(r))
    }
  }

  /** The world region a layer renders: its minimum x and z, and the graphs of its GraphFacet. */
  datatype WorldRegion = WorldRegion(minX: int, minZ: int, graphs: seq<Graph>) {
    predicate Valid() {
      forall g :: g in graphs ==> g.Valid()
    }
  }
}
