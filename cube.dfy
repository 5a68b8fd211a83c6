/** The fixed vertex layout of the test cube: six faces of two triangles each,
    36 vertices, 108 coordinates, every coordinate plus or minus half the
    matching edge length. */
module Cube {

  /** The sign of one coordinate of a box corner. */
  datatype Sign = Minus | Plus

  /** A corner of the box centred on the origin, as the signs of its x, y
      and z coordinates. */
  datatype Corner = Corner(sx: Sign, sy: Sign, sz: Sign)

  datatype Vertex = Vertex(x: real, y: real, z: real)

  /** The six faces, in the order their triangles appear in the layout. */
  datatype Face = Front | Right | Back | Left | Bottom | Top

  const Faces: seq<Face> := [Front, Right, Back, Left, Bottom, Top]

  /** The six corners (two triangles) of each face, in layout order. */
  function FaceCorners(f: Face): (cs: seq<Corner>)
    ensures |cs| == 6
  {
    match f
    case Front => [Corner(Minus, Plus, Minus), Corner(Minus, Minus, Minus), Corner(Plus, Minus, Minus),
                   Corner(Plus, Minus, Minus), Corner(Plus, Plus, Minus), Corner(Minus, Plus, Minus)]
    case Right => [Corner(Plus, Minus, Minus), Corner(Plus, Minus, Plus), Corner(Plus, Plus, Minus),
                   Corner(Plus, Minus, Plus), Corner(Plus, Plus, Plus), Corner(Plus, Plus, Minus)]
    case Back => [Corner(Plus, Minus, Plus), Corner(Minus, Minus, Plus), Corner(Plus, Plus, Plus),
                  Corner(Minus, Minus, Plus), Corner(Minus, Plus, Plus), Corner(Plus, Plus, Plus)]
    case Left => [Corner(Minus, Minus, Plus), Corner(Minus, Minus, Minus), Corner(Minus, Plus, Plus),
                  Corner(Minus, Minus, Minus), Corner(Minus, Plus, Minus), Corner(Minus, Plus, Plus)]
    case Bottom => [Corner(Minus, Minus, Plus), Corner(Plus, Minus, Plus), Corner(Plus, Minus, Minus),
                    Corner(Plus, Minus, Minus), Corner(Minus, Minus, Minus), Corner(Minus, Minus, Plus)]
    case Top => [Corner(Minus, Plus, Minus), Corner(Plus, Plus, Minus), Corner(Plus, Plus, Plus),
                 Corner(Plus, Plus, Plus), Corner(Minus, Plus, Plus), Corner(Minus, Plus, Minus)]
  }

  /** Whether a corner lies on face `f`: front is z = -l, right x = +w, back
      z = +l, left x = -w, bottom y = -h and top y = +h. */
  predicate CornerOnFace(c: Corner, f: Face)
  {
    match f
    case Front => c.sz == Minus
    case Right => c.sx == Plus
    case Back => c.sz == Plus
    case Left => c.sx == Minus
    case Bottom => c.sy == Minus
    case Top => c.sy == Plus
  }

  /** Every corner listed for a face lies on that face. */
  lemma FaceCornersOnFace(f: Face)
    ensures forall c :: c in FaceCorners(f) ==> CornerOnFace(c, f)
  {
  }

  /** The corners of the faces `fs`, face after face. Corner `v` belongs to
      face `v / 6`. */
  function Corners(fs: seq<Face>): (cs: seq<Corner>)
    ensures |cs| == 6 * |fs|
    ensures forall v :: 0 <= v < |cs| ==> cs[v] in FaceCorners(fs[v / 6])
  {
    if fs == [] then []
    else
      var rest := Corners(fs[1..]);
      assert forall v :: 6 <= v < 6 * |fs| ==> (v - 6) / 6 == v / 6 - 1;
      FaceCorners(fs[0]) + rest
  }

  /** All 36 corners in layout order. */
  const CubeCorners: seq<Corner> := Corners(Faces)

  /** The coordinate a sign selects: `half` or `-half`. */
  function Coordinate(s: Sign, half: real): real
  {
    if s == Plus then half else -half
  }

  function Place(c: Corner, hw: real, hh: real, hl: real): Vertex
  {
    Vertex(Coordinate(c.sx, hw), Coordinate(c.sy, hh), Coordinate(c.sz, hl))
  }

  /** Vertex `v` of a flat coordinate array: entries 3v, 3v+1 and 3v+2. */
  function VertexAt(r: seq<real>, v: int): Vertex
    requires 0 <= v && 3 * v + 2 < |r|
  {
    Vertex(r[3 * v], r[3 * v + 1], r[3 * v + 2])
  }

  /** The corners placed on the box with half-extents hw, hh, hl and laid out
      as x, y, z triples. */
  function Flatten(cs: seq<Corner>, hw: real, hh: real, hl: real): (r: seq<real>)
    ensures |r| == 3 * |cs|
    ensures forall v :: 0 <= v < |cs| ==> VertexAt(r, v) == Place(cs[v], hw, hh, hl)
  {
    if cs == [] then []
    else
      var p := Place(cs[0], hw, hh, hl);
      var rest := Flatten(cs[1..], hw, hh, hl);
      assert forall v :: 1 <= v < |cs| ==> VertexAt(rest, v - 1) == Place(cs[v], hw, hh, hl);
      [p.x, p.y, p.z] + rest
  }

  /** The cube's vertex array for the given edge lengths: each edge length is
      halved, and the corner table is laid out with those half-extents. */
  function CreateCubeVertices(width: real, height: real, length: real): (r: seq<real>)
    ensures |r| == 108
    ensures forall v :: 0 <= v < 36 ==>
      (VertexAt(r, v).x == width * 0.5 || VertexAt(r, v).x == -(width * 0.5)) &&
      (VertexAt(r, v).y == height * 0.5 || VertexAt(r, v).y == -(height * 0.5)) &&
      (VertexAt(r, v).z == length * 0.5 || VertexAt(r, v).z == -(length * 0.5))
  {
    Flatten(CubeCorners, width * 0.5, height * 0.5, length * 0.5)
  }

  /** The face vertex `v` belongs to. */
  function FaceOf(v: int): Face
    requires 0 <= v < 36
  {
    Faces[v / 6]
  }

  /** Whether a vertex lies on face `f` of the box with half-extents hw, hh,
      hl. */
  predicate OnFace(p: Vertex, f: Face, hw: real, hh: real, hl: real)
  {
    match f
    case Front => p.z == -hl
    case Right => p.x == hw
    case Back => p.z == hl
    case Left => p.x == -hw
    case Bottom => p.y == -hh
    case Top => p.y == hh
  }

  /** Each run of six vertices lies on its face: front at z = -l/2, then
      right (x = w/2), back (z = l/2), left (x = -w/2), bottom (y = -h/2)
      and top (y = h/2). */
  lemma CubeFaces(width: real, height: real, length: real)
    ensures var r := CreateCubeVertices(width, height, length);
      forall v :: 0 <= v < 36 ==>
        OnFace(VertexAt(r, v), FaceOf(v), width * 0.5, height * 0.5, length * 0.5)
  {
    var r := CreateCubeVertices(width, height, length);
    forall v | 0 <= v < 36
      ensures OnFace(VertexAt(r, v), FaceOf(v), width * 0.5, height * 0.5, length * 0.5)
    {
      FaceCornersOnFace(FaceOf(v));
      assert CubeCorners[v] in FaceCorners(FaceOf(v));
    }
  }
}
