// Geometry of the demo's solid: points, edges and the axis-aligned cube whose
// twelve edges are listed in a fixed order. Coordinates are exact reals, an
// idealisation of the 64-bit floating-point numbers the program uses.

module Polytopes {

  /** A point (or a free vector) in three-dimensional space. */
  datatype Point3d = Point3d(x: real, y: real, z: real)

  /** An edge is an ordered pair of endpoints. */
  datatype Edge = Edge(a: Point3d, b: Point3d)

  /** A cube given by its centre and the length of its sides. */
  datatype Cube = Cube(center: Point3d, height: real)

  function Add(p: Point3d, d: Point3d): Point3d {
    Point3d(p.x + d.x, p.y + d.y, p.z + d.z)
  }

  function Sub(p: Point3d, q: Point3d): Point3d {
    Point3d(p.x - q.x, p.y - q.y, p.z - q.z)
  }

  /** The vector d stretched by the factor k. */
  function Scale(k: real, d: Point3d): Point3d {
    Point3d(k * d.x, k * d.y, k * d.z)
  }

  /** The vector leading from the first endpoint of an edge to the second. */
  function Delta(e: Edge): Point3d {
    Sub(e.b, e.a)
  }

  function SquaredLength(d: Point3d): real {
    d.x * d.x + d.y * d.y + d.z * d.z
  }

  /** How many of the three coordinates differ between the endpoints. */
  function DiffCount(e: Edge): nat {
    (if e.a.x != e.b.x then 1 else 0) +
    (if e.a.y != e.b.y then 1 else 0) +
    (if e.a.z != e.b.z then 1 else 0)
  }

  /** Two edges join the same two points, in either orientation. */
  predicate SameSegment(e: Edge, f: Edge) {
    (e.a == f.a && e.b == f.b) || (e.a == f.b && e.b == f.a)
  }

  /** A step of length |h| along exactly one coordinate axis. */
  predicate IsAxisStep(d: Point3d, h: real) {
    ((d.x == h || d.x == -h) && d.y == 0.0 && d.z == 0.0) ||
    (d.x == 0.0 && (d.y == h || d.y == -h) && d.z == 0.0) ||
    (d.x == 0.0 && d.y == 0.0 && (d.z == h || d.z == -h))
  }

  /** Half the side length: the distance from the centre to each face. */
  function Step(c: Cube): real {
    c.height / 2.0
  }

  /** Independent description of a corner: each coordinate is the centre's plus or minus half a side. */
  predicate IsCorner(c: Cube, p: Point3d) {
    (p.x == c.center.x - Step(c) || p.x == c.center.x + Step(c)) &&
    (p.y == c.center.y - Step(c) || p.y == c.center.y + Step(c)) &&
    (p.z == c.center.z - Step(c) || p.z == c.center.z + Step(c))
  }

  /**
   * The eight corners in the program's order: l1, l2, l3, l4 on the lower
   * face (z = centre - step), then u1, u2, u3, u4 directly above them.
   */
  function Corners(c: Cube): (k: seq<Point3d>)
    ensures |k| == 8
    ensures forall i :: 0 <= i < 8 ==> IsCorner(c, k[i])
    ensures forall i :: 0 <= i < 4 ==> k[i].z == c.center.z - Step(c) && k[i + 4] == k[i].(z := c.center.z + Step(c))
  {
    var step := Step(c);
    var Point3d(cx, cy, cz) := c.center;
    [ Point3d(cx - step, cy - step, cz - step),
      Point3d(cx - step, cy + step, cz - step),
      Point3d(cx + step, cy + step, cz - step),
      Point3d(cx + step, cy - step, cz - step),
      Point3d(cx - step, cy - step, cz + step),
      Point3d(cx - step, cy + step, cz + step),
      Point3d(cx + step, cy + step, cz + step),
      Point3d(cx + step, cy - step, cz + step) ]
  }

  /** Cube::edges: the twelve edges over the eight corners, in the program's fixed order. */
  function Edges(c: Cube): (r: seq<Edge>)
    ensures |r| == 12
    ensures forall i :: 0 <= i < |r| ==> IsCorner(c, r[i].a) && IsCorner(c, r[i].b)
  {
    EdgeList(Corners(c))
  }

  /** The program's edge list over corners l1, l2, l3, l4, u1, u2, u3, u4. */
  function EdgeList(k: seq<Point3d>): (r: seq<Edge>)
    requires |k| == 8
    ensures |r| == 12
  {
    var l1, l2, l3, l4, u1, u2, u3, u4 := k[0], k[1], k[2], k[3], k[4], k[5], k[6], k[7];
    [ Edge(l1, l2),
      Edge(l2, l3),
      Edge(l3, l4),
      Edge(l1, l4),
      Edge(l1, u1),
      Edge(u1, u2),
      Edge(l2, u2),
      Edge(u2, u3),
      Edge(u3, u4),
      Edge(u1, u4),
      Edge(l3, u3),
      Edge(l4, u4) ]
  }

  /** Number of edges in es having p as an endpoint. */
  function Degree(es: seq<Edge>, p: Point3d): (n: nat)
    ensures n <= |es|
  {
    if es == [] then 0
    else Touches(es[0], p) + Degree(es[1..], p)
  }

  function Touches(e: Edge, p: Point3d): nat {
    if e.a == p || e.b == p then 1 else 0
  }

  function TranslateEdge(e: Edge, d: Point3d): Edge {
    Edge(Add(e.a, d), Add(e.b, d))
  }

  function TranslateEdges(es: seq<Edge>, d: Point3d): (r: seq<Edge>)
    ensures |r| == |es|
    ensures forall i :: 0 <= i < |es| ==> r[i] == TranslateEdge(es[i], d)
  {
    seq(|es|, i requires 0 <= i < |es| => TranslateEdge(es[i], d))
  }

  /** The cube moved by d, size unchanged. */
  function Translate(c: Cube, d: Point3d): (r: Cube)
    ensures r.height == c.height
    ensures Sub(r.center, c.center) == d
  {
    c.(center := Add(c.center, d))
  }

  // ---------------------------------------------------------------------
  // Properties of the corner list

  /** The listed corners are exactly the points that are corners of the cube. */
  lemma CornersComplete(c: Cube, p: Point3d)
    ensures IsCorner(c, p) <==> p in Corners(c)
  {
    var k := Corners(c);
    if IsCorner(c, p) {
      var s := Step(c);
      var lx := p.x == c.center.x - s;
      var ly := p.y == c.center.y - s;
      var lz := p.z == c.center.z - s;
      var i := (if lz then 0 else 4) +
               (if lx && ly then 0 else if lx then 1 else if ly then 3 else 2);
      assert k[i] == p;
    } else {
      assert p !in k;
    }
  }

  /** When the cube is not degenerate its eight corners are pairwise distinct. */
  lemma CornersDistinct(c: Cube)
    requires c.height != 0.0
    ensures forall i, j :: 0 <= i < j < 8 ==> Corners(c)[i] != Corners(c)[j]
  {
    assert Step(c) != 0.0;
  }

  // ---------------------------------------------------------------------
  // Properties of the edge list

  /**
   * Every edge runs parallel to one axis and is exactly one side long; for a
   * non-degenerate cube its endpoints differ in exactly one coordinate.
   */
  lemma EdgesAxisAligned(c: Cube, i: nat)
    requires i < 12
    ensures IsAxisStep(Delta(Edges(c)[i]), c.height)
    ensures SquaredLength(Delta(Edges(c)[i])) == c.height * c.height
    ensures c.height != 0.0 ==> DiffCount(Edges(c)[i]) == 1
  {
    assert Step(c) + Step(c) == c.height;
    AxisStepMeasures(Edges(c)[i], c.height);
  }

  /** An edge that is an axis step of h is h long, and has one differing coordinate unless h is 0. */
  lemma AxisStepMeasures(e: Edge, h: real)
    requires IsAxisStep(Delta(e), h)
    ensures SquaredLength(Delta(e)) == h * h
    ensures h != 0.0 ==> DiffCount(e) == 1
  {
    assert (-h) * (-h) == h * h;
  }

  /** Edges 0..3 form the lower face, in the plane z = centre - step. */
  lemma BottomFace(c: Cube, i: nat)
    requires i < 4
    ensures Edges(c)[i].a.z == c.center.z - Step(c)
    ensures Edges(c)[i].b.z == c.center.z - Step(c)
  {
  }

  /** Edges 5, 7, 8 and 9 form the upper face, in the plane z = centre + step. */
  lemma TopFace(c: Cube, i: nat)
    requires i in {5, 7, 8, 9}
    ensures Edges(c)[i].a.z == c.center.z + Step(c)
    ensures Edges(c)[i].b.z == c.center.z + Step(c)
  {
  }

  /** Edges 4, 6, 10 and 11 join l1..l4 to u1..u4 and rise straight up by one side. */
  lemma VerticalEdges(c: Cube, j: nat)
    requires j < 4
    ensures var i := [4, 6, 10, 11][j];
            Edges(c)[i] == Edge(Corners(c)[j], Corners(c)[j + 4]) &&
            Delta(Edges(c)[i]) == Point3d(0.0, 0.0, c.height)
  {
    assert Step(c) + Step(c) == c.height;
  }

  /** Each corner of a non-degenerate cube is an endpoint of exactly three edges. */
  lemma CornerDegree(c: Cube, j: nat)
    requires c.height != 0.0 && j < 8
    ensures Degree(Edges(c), Corners(c)[j]) == 3
  {
    CornersDistinct(c);
    var es := Edges(c);
    var k := Corners(c);
    DegreeOfTwelve(es, k[j]);
  }

  /** The degree in a list of twelve edges is the sum of the twelve incidences. */
  lemma {:induction false} DegreeOfTwelve(es: seq<Edge>, p: Point3d)
    requires |es| == 12
    ensures Degree(es, p) ==
      Touches(es[0], p) + Touches(es[1], p) + Touches(es[2], p) + Touches(es[3], p) +
      Touches(es[4], p) + Touches(es[5], p) + Touches(es[6], p) + Touches(es[7], p) +
      Touches(es[8], p) + Touches(es[9], p) + Touches(es[10], p) + Touches(es[11], p)
  {
    forall n | 0 <= n < 12
      ensures Degree(es[n..], p) == Touches(es[n], p) + Degree(es[n + 1..], p)
    {
      assert es[n..][1..] == es[n + 1..];
    }
    assert es[12..] == [];
    assert es[0..] == es;
  }

  /** No edge of a non-degenerate cube is listed twice, in either orientation. */
  lemma EdgesDistinct(c: Cube)
    requires c.height != 0.0
    ensures forall i, j :: 0 <= i < j < 12 ==> !SameSegment(Edges(c)[i], Edges(c)[j])
  {
    CornersDistinct(c);
  }

  /**
   * Conversely, every pair of corners one side apart (differing in exactly one
   * coordinate) is one of the listed edges: the list is the complete edge set.
   */
  lemma EdgesComplete(c: Cube, p: Point3d, q: Point3d)
    requires c.height != 0.0
    requires IsCorner(c, p) && IsCorner(c, q) && DiffCount(Edge(p, q)) == 1
    ensures exists i :: 0 <= i < 12 && SameSegment(Edges(c)[i], Edge(p, q))
  {
    var es := Edges(c);
    CornersComplete(c, p);
    CornersComplete(c, q);
    var k := Corners(c);
    var i :| 0 <= i < 8 && k[i] == p;
    var j :| 0 <= j < 8 && k[j] == q;
    var n := EdgeBetween(i, j);
    assert SameSegment(es[n], Edge(p, q));
  }

  /** The position of the edge between corners i and j, when they are one side apart. */
  function EdgeBetween(i: nat, j: nat): nat
  {
    var lo, hi := if i < j then i else j, if i < j then j else i;
    if lo == 0 && hi == 1 then 0
    else if lo == 1 && hi == 2 then 1
    else if lo == 2 && hi == 3 then 2
    else if lo == 0 && hi == 3 then 3
    else if lo == 0 && hi == 4 then 4
    else if lo == 4 && hi == 5 then 5
    else if lo == 1 && hi == 5 then 6
    else if lo == 5 && hi == 6 then 7
    else if lo == 6 && hi == 7 then 8
    else if lo == 4 && hi == 7 then 9
    else if lo == 2 && hi == 6 then 10
    else 11
  }

  /** Moving the centre by d moves every endpoint of every edge by d, order kept. */
  lemma EdgesTranslate(c: Cube, d: Point3d)
    ensures Edges(Translate(c, d)) == TranslateEdges(Edges(c), d)
  {
    var k, k' := Corners(c), Corners(Translate(c, d));
    var ks := seq(8, i requires 0 <= i < 8 => Add(k[i], d));
    forall i | 0 <= i < 8
      ensures k'[i] == ks[i]
    {
    }
    assert k' == ks;
    EdgeListTranslate(k, d);
  }

  /** Building the edge list commutes with moving its corners. */
  lemma EdgeListTranslate(k: seq<Point3d>, d: Point3d)
    requires |k| == 8
    ensures EdgeList(seq(8, i requires 0 <= i < 8 => Add(k[i], d))) == TranslateEdges(EdgeList(k), d)
  {
    var l, r := EdgeList(seq(8, i requires 0 <= i < 8 => Add(k[i], d))), TranslateEdges(EdgeList(k), d);
    forall i | 0 <= i < 12
      ensures l[i] == r[i]
    {
    }
  }
}
