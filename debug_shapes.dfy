/**
 The procedural debug meshes: each generator fills a vertex list and an index
 buffer. The integer side of the generators (how many vertices and indices,
 where each vertex sits, which vertices each index names) is modelled exactly.
 Vertex attributes that the generators compute with sinf/cosf/normalize are
 not computed: such a vertex is a `Computed` payload that records the loop
 counters it was computed from.
 */
module DebugShapes {
  import opened Common

  /** The primitive a mesh is drawn as. */
  datatype DrawMode = Triangles | Lines

  /** A mesh: its vertex buffer, its index buffer and its primitive. */
  datatype Mesh<V> = Mesh(vertices: seq<V>, indices: seq<nat>, mode: DrawMode)

  /** Every index names a vertex of the mesh. */
  predicate IndicesInRange<V>(m: Mesh<V>)
  {
    forall k :: 0 <= k < |m.indices| ==> m.indices[k] < |m.vertices|
  }

  /** StandardVertex2D: position, texture coordinate, colour. */
  datatype Vertex2D = Vertex2D(position: Vec2, texCoord: Vec2, color: Vec3)

  /** VertexColor: position and colour. */
  datatype ColorVertex = ColorVertex(position: Vec3, color: Vec3)

  /** The loop counters a trigonometric vertex is computed from. */
  datatype Sample =
    | CylinderWall(angleStep: int, y: int)
    | CylinderRim(y: int, angleStep: int)
    | SpherePoint(latitude: int, longitude: int)
    | ConeWall(angleStep: int, cut: int)
    | ConeRim(angleStep: int)

  /** VertexNormalTexCoords: either given exactly, or computed with
      trigonometry from the counters in `sample`. */
  datatype NormalVertex =
    | Vertex(position: Vec3, normal: Vec3, texCoord: Vec2)
    | Computed(sample: Sample)

  /** A corner of an axis-aligned box as one sign (-1 or +1) per axis. */
  datatype Signs = Signs(x: int, y: int, z: int)

  /** The point of a box with the given half extents at the given corner. */
  function Place(s: Signs, half: Vec3): Vec3
  {
    Vec3(s.x as real * half.x, s.y as real * half.y, s.z as real * half.z)
  }

  /** Number of trips of `for (i = 0; i < bound; ++i)`. */
  function Trips(bound: int): nat
  {
    if bound < 0 then 0 else bound
  }

  /** The shared index buffer of the quad and the plane. */
  const QuadIndices: seq<nat> := [0, 1, 2, 1, 2, 3]

  // ---------------------------------------------------------------------
  // createQuad2D and createPlane
  // ---------------------------------------------------------------------

  /** createQuad2D: four corners of a `size` rectangle, corner i at column
      i % 2 and row i / 2; x is negative in column 0, y positive in row 0. */
  method CreateQuad2D(size: Vec2) returns (mesh: Mesh<Vertex2D>)
    ensures mesh.mode == Triangles && |mesh.vertices| == 4
    ensures mesh.indices == QuadIndices && IndicesInRange(mesh)
    ensures forall i :: 0 <= i < 4 ==>
      && mesh.vertices[i].texCoord == Vec2((i % 2) as real, (i / 2) as real)
      && mesh.vertices[i].position.x == (if i % 2 == 0 then -0.5 * size.x else 0.5 * size.x)
      && mesh.vertices[i].position.y == (if i / 2 == 0 then 0.5 * size.y else -0.5 * size.y)
      && mesh.vertices[i].color == Vec3(1.0, 1.0, 1.0)
  {
    var vertices: seq<Vertex2D> := [];
    var halfWidth := 0.5 * size.x;
    var halfLength := 0.5 * size.y;
    for i := 0 to 4
      invariant |vertices| == i
      invariant forall k :: 0 <= k < i ==>
        && vertices[k].texCoord == Vec2((k % 2) as real, (k / 2) as real)
        && vertices[k].position.x == (if k % 2 == 0 then -halfWidth else halfWidth)
        && vertices[k].position.y == (if k / 2 == 0 then halfLength else -halfLength)
        && vertices[k].color == Vec3(1.0, 1.0, 1.0)
    {
      var x := i % 2;
      var z := i / 2;
      var signX := if x == 0 then -1 else 1;
      var signZ := if z == 0 then 1 else -1;
      var position := Vec2(signX as real * halfWidth, signZ as real * halfLength);
      var texCoord := Vec2(x as real, z as real);
      vertices := vertices + [Vertex2D(position, texCoord, Vec3(1.0, 1.0, 1.0))];
    }
    mesh := Mesh(vertices, QuadIndices, Triangles);
  }

  /** createPlane: four corners of a width x length rectangle in the y = 0
      plane, all facing +y; x is negative in column 0, and unlike the quad,
      z is negative in row 0. */
  method CreatePlane(width: real, length: real) returns (mesh: Mesh<NormalVertex>)
    ensures mesh.mode == Triangles && |mesh.vertices| == 4
    ensures mesh.indices == QuadIndices && IndicesInRange(mesh)
    ensures forall i :: 0 <= i < 4 ==>
      && mesh.vertices[i].Vertex?
      && mesh.vertices[i].texCoord == Vec2((i % 2) as real, (i / 2) as real)
      && mesh.vertices[i].position.x == (if i % 2 == 0 then -0.5 * width else 0.5 * width)
      && mesh.vertices[i].position.y == 0.0
      && mesh.vertices[i].position.z == (if i / 2 == 0 then -0.5 * length else 0.5 * length)
      && mesh.vertices[i].normal == Vec3(0.0, 1.0, 0.0)
  {
    var vertices: seq<NormalVertex> := [];
    var halfWidth := 0.5 * width;
    var halfLength := 0.5 * length;
    for i := 0 to 4
      invariant |vertices| == i
      invariant forall k :: 0 <= k < i ==>
        && vertices[k].Vertex?
        && vertices[k].texCoord == Vec2((k % 2) as real, (k / 2) as real)
        && vertices[k].position.x == (if k % 2 == 0 then -halfWidth else halfWidth)
        && vertices[k].position.y == 0.0
        && vertices[k].position.z == (if k / 2 == 0 then -halfLength else halfLength)
        && vertices[k].normal == Vec3(0.0, 1.0, 0.0)
    {
      var x := i % 2;
      var z := i / 2;
      var signX := if x == 0 then -1 else 1;
      var signZ := if z == 0 then -1 else 1;
      var position := Vec3(signX as real * halfWidth, 0.0, signZ as real * halfLength);
      var normal := Vec3(0.0, 1.0, 0.0);
      var texCoord := Vec2(x as real, z as real);
      vertices := vertices + [Vertex(position, normal, texCoord)];
    }
    mesh := Mesh(vertices, QuadIndices, Triangles);
  }

  // ---------------------------------------------------------------------
  // createCube
  // ---------------------------------------------------------------------

  /** One row of the interleaved cube array: corner signs and texture
      coordinate. */
  datatype CubeRow = CubeRow(corner: Signs, u: int, v: int)

  /** The 36 rows of createCube's literal, six per face. */
  const CubeRows: seq<CubeRow> := [
    CubeRow(Signs(-1, -1, -1), 0, 0), CubeRow(Signs( 1, -1, -1), 1, 0),
    CubeRow(Signs( 1,  1, -1), 1, 1), CubeRow(Signs( 1,  1, -1), 1, 1),
    CubeRow(Signs(-1,  1, -1), 0, 1), CubeRow(Signs(-1, -1, -1), 0, 0),

    CubeRow(Signs(-1, -1,  1), 0, 0), CubeRow(Signs( 1, -1,  1), 1, 0),
    CubeRow(Signs( 1,  1,  1), 1, 1), CubeRow(Signs( 1,  1,  1), 1, 1),
    CubeRow(Signs(-1,  1,  1), 0, 1), CubeRow(Signs(-1, -1,  1), 0, 0),

    CubeRow(Signs(-1,  1,  1), 1, 0), CubeRow(Signs(-1,  1, -1), 1, 1),
    CubeRow(Signs(-1, -1, -1), 0, 1), CubeRow(Signs(-1, -1, -1), 0, 1),
    CubeRow(Signs(-1, -1,  1), 0, 0), CubeRow(Signs(-1,  1,  1), 1, 0),

    CubeRow(Signs( 1,  1,  1), 1, 0), CubeRow(Signs( 1,  1, -1), 1, 1),
    CubeRow(Signs( 1, -1, -1), 0, 1), CubeRow(Signs( 1, -1, -1), 0, 1),
    CubeRow(Signs( 1, -1,  1), 0, 0), CubeRow(Signs( 1,  1,  1), 1, 0),

    CubeRow(Signs(-1, -1, -1), 0, 1), CubeRow(Signs( 1, -1, -1), 1, 1),
    CubeRow(Signs( 1, -1,  1), 1, 0), CubeRow(Signs( 1, -1,  1), 1, 0),
    CubeRow(Signs(-1, -1,  1), 0, 0), CubeRow(Signs(-1, -1, -1), 0, 1),

    CubeRow(Signs(-1,  1, -1), 0, 1), CubeRow(Signs( 1,  1, -1), 1, 1),
    CubeRow(Signs( 1,  1,  1), 1, 0), CubeRow(Signs( 1,  1,  1), 1, 0),
    CubeRow(Signs(-1,  1,  1), 0, 0), CubeRow(Signs(-1,  1, -1), 0, 1)
  ]

  /** The five floats of one cube row. */
  function CubeRowFloats(row: CubeRow, half: Vec3): seq<real>
  {
    var p := Place(row.corner, half);
    [p.x, p.y, p.z, row.u as real, row.v as real]
  }

  /** The rows laid out one after another, five floats each. */
  function Interleave(rows: seq<CubeRow>, half: Vec3): (r: seq<real>)
    ensures |r| == 5 * |rows|
  {
    if rows == [] then []
    else Interleave(rows[..|rows| - 1], half) + CubeRowFloats(rows[|rows| - 1], half)
  }

  /** Float k of the interleaved array is component k % 5 of row k / 5. */
  lemma {:induction false} InterleaveAt(rows: seq<CubeRow>, half: Vec3, k: nat)
    requires k < 5 * |rows|
    ensures Interleave(rows, half)[k] == CubeRowFloats(rows[k / 5], half)[k % 5]
  {
    var init := rows[..|rows| - 1];
    if k < 5 * |init| {
      InterleaveAt(init, half, k);
      assert rows[k / 5] == init[k / 5];
    }
  }

  /** Every row of the cube literal has a sign per axis and a 0/1 texture
      coordinate. */
  lemma CubeRowsShape()
    ensures |CubeRows| == 36
    ensures forall j :: 0 <= j < 36 ==> CubeRowShaped(CubeRows[j])
  {
  }

  predicate CubeRowShaped(row: CubeRow)
  {
    && row.corner.x in {-1, 1} && row.corner.y in {-1, 1} && row.corner.z in {-1, 1}
    && row.u in {0, 1} && row.v in {0, 1}
  }

  /** createCube: 36 vertices of five floats (position, texture coordinate);
      every position component is plus or minus the half extent of its axis
      and every texture component is 0 or 1. */
  function CreateCube(width: real, height: real, length: real): (r: seq<real>)
    ensures |r| == 180
    ensures forall k :: 0 <= k < 180 && k % 5 == 0 ==> r[k] == -0.5 * width || r[k] == 0.5 * width
    ensures forall k :: 0 <= k < 180 && k % 5 == 1 ==> r[k] == -0.5 * height || r[k] == 0.5 * height
    ensures forall k :: 0 <= k < 180 && k % 5 == 2 ==> r[k] == -0.5 * length || r[k] == 0.5 * length
    ensures forall k :: 0 <= k < 180 && k % 5 >= 3 ==> r[k] == 0.0 || r[k] == 1.0
  {
    var half := Vec3(0.5 * width, 0.5 * height, 0.5 * length);
    var r := Interleave(CubeRows, half);
    CubeRowsShape();
    forall k | 0 <= k < 180
      ensures k % 5 == 0 ==> r[k] == -half.x || r[k] == half.x
      ensures k % 5 == 1 ==> r[k] == -half.y || r[k] == half.y
      ensures k % 5 == 2 ==> r[k] == -half.z || r[k] == half.z
      ensures k % 5 >= 3 ==> r[k] == 0.0 || r[k] == 1.0
    {
      InterleaveAt(CubeRows, half, k);
      RowFloatShape(CubeRows[k / 5], half, k % 5);
    }
    r
  }

  lemma RowFloatShape(row: CubeRow, half: Vec3, c: nat)
    requires CubeRowShaped(row) && c < 5
    ensures c == 0 ==> CubeRowFloats(row, half)[c] in {-half.x, half.x}
    ensures c == 1 ==> CubeRowFloats(row, half)[c] in {-half.y, half.y}
    ensures c == 2 ==> CubeRowFloats(row, half)[c] in {-half.z, half.z}
    ensures c >= 3 ==> CubeRowFloats(row, half)[c] in {0.0, 1.0}
  {
  }

  // ---------------------------------------------------------------------
  // createBox
  // ---------------------------------------------------------------------

  /** One vertex of createBox's literal: corner signs, the axis its normal
      lies on (before the flip sign is applied) and texture coordinate. */
  datatype BoxRow = BoxRow(corner: Signs, normal: Signs, u: int, v: int)

  const NegZ := Signs(0, 0, -1)
  const PosZ := Signs(0, 0, 1)
  const NegX := Signs(-1, 0, 0)
  const PosX := Signs(1, 0, 0)
  const NegY := Signs(0, -1, 0)
  const PosY := Signs(0, 1, 0)

  /** The 36 vertices of createBox's literal, six per face. */
  const BoxRows: seq<BoxRow> := [
    BoxRow(Signs(-1, -1, -1), NegZ, 0, 0), BoxRow(Signs( 1,  1, -1), NegZ, 1, 1),
    BoxRow(Signs( 1, -1, -1), NegZ, 1, 0), BoxRow(Signs( 1,  1, -1), NegZ, 1, 1),
    BoxRow(Signs(-1, -1, -1), NegZ, 0, 0), BoxRow(Signs(-1,  1, -1), NegZ, 0, 1),

    BoxRow(Signs(-1, -1,  1), PosZ, 0, 0), BoxRow(Signs( 1, -1,  1), PosZ, 1, 0),
    BoxRow(Signs( 1,  1,  1), PosZ, 1, 1), BoxRow(Signs( 1,  1,  1), PosZ, 1, 1),
    BoxRow(Signs(-1,  1,  1), PosZ, 0, 1), BoxRow(Signs(-1, -1,  1), PosZ, 0, 0),

    BoxRow(Signs(-1,  1,  1), NegX, 1, 0), BoxRow(Signs(-1,  1, -1), NegX, 1, 1),
    BoxRow(Signs(-1, -1, -1), NegX, 0, 1), BoxRow(Signs(-1, -1, -1), NegX, 0, 1),
    BoxRow(Signs(-1, -1,  1), NegX, 0, 0), BoxRow(Signs(-1,  1,  1), NegX, 1, 0),

    BoxRow(Signs( 1,  1,  1), PosX, 1, 0), BoxRow(Signs( 1, -1, -1), PosX, 0, 1),
    BoxRow(Signs( 1,  1, -1), PosX, 1, 1), BoxRow(Signs( 1, -1, -1), PosX, 0, 1),
    BoxRow(Signs( 1,  1,  1), PosX, 1, 0), BoxRow(Signs( 1, -1,  1), PosX, 0, 0),

    BoxRow(Signs(-1, -1, -1), NegY, 0, 1), BoxRow(Signs( 1, -1, -1), NegY, 1, 1),
    BoxRow(Signs( 1, -1,  1), NegY, 1, 0), BoxRow(Signs( 1, -1,  1), NegY, 1, 0),
    BoxRow(Signs(-1, -1,  1), NegY, 0, 0), BoxRow(Signs(-1, -1, -1), NegY, 0, 1),

    BoxRow(Signs(-1,  1, -1), PosY, 0, 1), BoxRow(Signs( 1,  1,  1), PosY, 1, 0),
    BoxRow(Signs( 1,  1, -1), PosY, 1, 1), BoxRow(Signs( 1,  1,  1), PosY, 1, 0),
    BoxRow(Signs(-1,  1, -1), PosY, 0, 1), BoxRow(Signs(-1,  1,  1), PosY, 0, 0)
  ]

  /** The outward normal of each face of the box, in literal order. */
  const FaceNormals: seq<Signs> := [NegZ, PosZ, NegX, PosX, NegY, PosY]

  /** `flipNormals ? -1 : +1`. */
  function FlipSign(flipNormals: bool): int
  {
    if flipNormals then -1 else 1
  }

  function Scale(k: int, s: Signs): Signs
  {
    Signs(k * s.x, k * s.y, k * s.z)
  }

  function Dot(a: Signs, b: Signs): int
  {
    a.x * b.x + a.y * b.y + a.z * b.z
  }

  function AsVec3(s: Signs): Vec3
  {
    Vec3(s.x as real, s.y as real, s.z as real)
  }

  /** The vertex buffer of createBox for a box of the given size. */
  function BoxVertices(size: Vec3, flipNormals: bool): (r: seq<NormalVertex>)
    ensures |r| == |BoxRows|
  {
    var half := Vec3(size.x / 2.0, size.y / 2.0, size.z / 2.0);
    seq(|BoxRows|, k requires 0 <= k < |BoxRows| =>
      Vertex(Place(BoxRows[k].corner, half),
             AsVec3(Scale(FlipSign(flipNormals), BoxRows[k].normal)),
             Vec2(BoxRows[k].u as real, BoxRows[k].v as real)))
  }

  /** The literal lists the faces -z, +z, -x, +x, -y, +y, six vertices each,
      and every vertex lies on the face its normal points out of. */
  lemma BoxRowsFaces()
    ensures |BoxRows| == 36
    ensures forall k :: 0 <= k < 36 ==> BoxRows[k].normal == FaceNormals[k / 6]
    ensures forall k :: 0 <= k < 36 ==> Dot(BoxRows[k].corner, BoxRows[k].normal) == 1
  {
    forall k | 0 <= k < 36
      ensures BoxRows[k].normal == FaceNormals[k / 6]
      ensures Dot(BoxRows[k].corner, BoxRows[k].normal) == 1
    {
      if k < 12 {
        if k < 6 {} else {}
      } else if k < 24 {
        if k < 18 {} else {}
      } else {
        if k < 30 {} else {}
      }
    }
  }

  /** Vertices 6f .. 6f+5 of the box share the normal of face f (times the
      flip sign), and each lies on the face that normal points out of. */
  lemma BoxFaceNormals(size: Vec3, flipNormals: bool, k: nat)
    requires k < 36
    ensures BoxVertices(size, flipNormals)[k].Vertex?
    ensures BoxVertices(size, flipNormals)[k].normal
         == AsVec3(Scale(FlipSign(flipNormals), FaceNormals[k / 6]))
    ensures Dot(BoxRows[k].corner, FaceNormals[k / 6]) == 1
  {
    var row := BoxRows[k];
    assert BoxVertices(size, flipNormals)[k].normal == AsVec3(Scale(FlipSign(flipNormals), row.normal));
    assert row.normal == FaceNormals[k / 6] && Dot(row.corner, row.normal) == 1 by {
      BoxRowsFaces();
    }
  }

  /** flipNormals negates every normal and changes nothing else. */
  lemma BoxFlipNegatesNormals(size: Vec3, k: nat)
    requires k < 36
    ensures BoxVertices(size, true)[k].position == BoxVertices(size, false)[k].position
    ensures BoxVertices(size, true)[k].texCoord == BoxVertices(size, false)[k].texCoord
    ensures BoxVertices(size, true)[k].normal.x == -BoxVertices(size, false)[k].normal.x
    ensures BoxVertices(size, true)[k].normal.y == -BoxVertices(size, false)[k].normal.y
    ensures BoxVertices(size, true)[k].normal.z == -BoxVertices(size, false)[k].normal.z
  {
  }

  /** createBox: 36 vertices and the index buffer 0, 1, ..., 35, filled
      face by face. */
  method CreateBox(size: Vec3, flipNormals: bool) returns (mesh: Mesh<NormalVertex>)
    ensures mesh.mode == Triangles
    ensures mesh.vertices == BoxVertices(size, flipNormals) && |mesh.vertices| == 36
    ensures |mesh.indices| == 36 && forall k :: 0 <= k < 36 ==> mesh.indices[k] == k
    ensures IndicesInRange(mesh)
  {
    var vertices := BoxVertices(size, flipNormals);
    var indices: seq<nat> := [];
    for i := 0 to 6
      invariant |indices| == 6 * i
      invariant forall k :: 0 <= k < |indices| ==> indices[k] == k
    {
      var base := 6 * i;
      for j := 0 to 6
        invariant |indices| == base + j
        invariant forall k :: 0 <= k < |indices| ==> indices[k] == k
      {
        indices := indices + [base + j];
      }
    }
    mesh := Mesh(vertices, indices, Triangles);
  }

  // ---------------------------------------------------------------------
  // createBoxOutline
  // ---------------------------------------------------------------------

  /** The eight corners of createBoxOutline, in literal order. */
  const OutlineCorners: seq<Signs> := [
    Signs(-1,  1, -1), Signs( 1,  1, -1), Signs(-1, -1, -1), Signs( 1, -1, -1),
    Signs(-1,  1,  1), Signs( 1,  1,  1), Signs(-1, -1,  1), Signs( 1, -1,  1)
  ]

  /** The 24 indices of createBoxOutline: twelve line segments. */
  const OutlineIndices: seq<nat> := [
    0, 1,  1, 3,  3, 2,  2, 0,  1, 5,  3, 7,
    5, 7,  0, 4,  2, 6,  4, 6,  4, 5,  6, 7
  ]

  /** Two corners of the box are joined by an edge of the box. */
  predicate IsBoxEdge(a: Signs, b: Signs)
  {
    (if a.x == b.x then 0 else 1) + (if a.y == b.y then 0 else 1) + (if a.z == b.z then 0 else 1) == 1
  }

  /** Segment e of the outline joins corners a and b, in either order. */
  predicate SegmentJoins(e: nat, a: nat, b: nat)
    requires e < 12
  {
    (SegmentFrom(e) == a && SegmentTo(e) == b) || (SegmentFrom(e) == b && SegmentTo(e) == a)
  }

  /** The two corners that outline segment e joins. */
  function SegmentFrom(e: nat): nat
    requires e < 12
  {
    OutlineIndices[2 * e]
  }

  function SegmentTo(e: nat): nat
    requires e < 12
  {
    OutlineIndices[2 * e + 1]
  }

  /** Every outline index names a corner, and every segment joins two
      corners that differ in exactly one axis. */
  lemma OutlineSegmentsAreEdges()
    ensures |OutlineCorners| == 8 && |OutlineIndices| == 24
    ensures forall k :: 0 <= k < 24 ==> OutlineIndices[k] < 8
    ensures forall e :: 0 <= e < 12 ==>
      IsBoxEdge(OutlineCorners[OutlineIndices[2 * e]], OutlineCorners[OutlineIndices[2 * e + 1]])
  {
  }

  /** No two outline segments join the same pair of corners. */
  lemma OutlineSegmentsDistinct()
    ensures forall e, f :: 0 <= e < f < 12 ==> !SegmentJoins(f, SegmentFrom(e), SegmentTo(e))
  {
    forall e, f | 0 <= e < f < 12
      ensures !SegmentJoins(f, SegmentFrom(e), SegmentTo(e))
    {
      assert SegmentFrom(e) != SegmentTo(e);
    }
  }

  /** Every edge of the box is drawn by some outline segment. */
  lemma OutlineCoversEdges()
    ensures forall a, b :: 0 <= a < b < 8 && IsBoxEdge(OutlineCorners[a], OutlineCorners[b]) ==>
      exists e :: 0 <= e < 12 && SegmentJoins(e, a, b)
  {
    forall a, b | 0 <= a < b < 8 && IsBoxEdge(OutlineCorners[a], OutlineCorners[b])
      ensures exists e :: 0 <= e < 12 && SegmentJoins(e, a, b)
    {
      assert SegmentJoins(SegmentOf(a, b), a, b);
    }
  }

  /** The outline segment joining two corners of a box edge. */
  function SegmentOf(a: nat, b: nat): (e: nat)
    ensures e < 12
  {
    if a == 0 then (if b == 1 then 0 else if b == 2 then 3 else 7)
    else if a == 1 then (if b == 3 then 1 else 4)
    else if a == 2 then (if b == 3 then 2 else 8)
    else if a == 3 then 5
    else if a == 4 then (if b == 5 then 10 else 9)
    else if a == 5 then 6
    else 11
  }

  /** createBoxOutline: the eight corners of the box, all in `color`, drawn
      as the twelve edge segments of OutlineIndices. */
  function CreateBoxOutline(size: Vec3, color: Vec3): (mesh: Mesh<ColorVertex>)
    ensures mesh.mode == Lines
    ensures |mesh.vertices| == 8 && mesh.indices == OutlineIndices && IndicesInRange(mesh)
    ensures forall i :: 0 <= i < 8 ==> mesh.vertices[i].color == color
    ensures forall i :: 0 <= i < 8 ==>
      mesh.vertices[i].position == Place(OutlineCorners[i], Vec3(size.x / 2.0, size.y / 2.0, size.z / 2.0))
  {
    var half := Vec3(size.x / 2.0, size.y / 2.0, size.z / 2.0);
    var vertices := seq(8, i requires 0 <= i < 8 => ColorVertex(Place(OutlineCorners[i], half), color));
    OutlineSegmentsAreEdges();
    Mesh(vertices, OutlineIndices, Lines)
  }

  // ---------------------------------------------------------------------
  // Arithmetic helpers for the grid-shaped generators
  // ---------------------------------------------------------------------

  /** Cell (r, c) of a rows x cols grid laid out row by row lies inside it. */
  lemma CellBelow(r: nat, c: nat, rows: nat, cols: nat)
    requires r < rows && c < cols
    ensures r * cols + c < rows * cols
  {
    assert (r + 1) * cols <= rows * cols by { MulLeq(r + 1, rows, cols); }
  }

  lemma MulLeq(a: nat, b: nat, k: nat)
    requires a <= b
    ensures a * k <= b * k
  {
  }

  // ---------------------------------------------------------------------
  // createCylinder
  // ---------------------------------------------------------------------

  /** Trips of `for (int i = 0; i <= s; ++i)` for a float bound s. */
  function RingCount(s: real): nat
  {
    if s < 0.0 then 0 else s.Floor + 1
  }

  /** Trips of `for (int i = 0; i < s; ++i)` for a float bound s. */
  function StepCount(s: real): nat
  {
    if s <= 0.0 then 0 else if s.Floor as real == s then s.Floor else s.Floor + 1
  }

  /** RingCount and StepCount are the trip counts of the two loop forms: a
      counter a takes part exactly when it is below the count. */
  lemma TripCounts(a: nat, s: real)
    ensures a as real <= s <==> a < RingCount(s)
    ensures a as real < s <==> a < StepCount(s)
  {
  }

  /** The wall vertices of the first R angle steps: bottom then top of each. */
  function CylinderWallVertices(R: nat): (r: seq<NormalVertex>)
    ensures |r| == 2 * R
  {
    if R == 0 then []
    else CylinderWallVertices(R - 1) + [Computed(CylinderWall(R - 1, -1)), Computed(CylinderWall(R - 1, 1))]
  }

  /** The two wall triangles starting at wall vertex `offset`. */
  function WallQuad(offset: nat): seq<nat>
  {
    [offset + 0, offset + 2, offset + 1, offset + 1, offset + 2, offset + 3]
  }

  /** The wall indices of the first S angle steps. */
  function CylinderWallIndices(S: nat): (r: seq<nat>)
    ensures |r| == 6 * S
  {
    if S == 0 then [] else CylinderWallIndices(S - 1) + WallQuad(2 * (S - 1))
  }

  /** The centre vertex of the cap at side y (-1 bottom, +1 top). Its normal
      is (0, fy, 0), not normalised. */
  function CapCentre(height: real, y: int): NormalVertex
  {
    var fy := 0.5 * height * y as real;
    Vertex(Vec3(0.0, fy, 0.0), Vec3(0.0, fy, 0.0), Vec2(0.5, 0.5))
  }

  /** The first R rim vertices of the cap at side y. */
  function CapRim(y: int, R: nat): (r: seq<NormalVertex>)
    ensures |r| == R
  {
    if R == 0 then [] else CapRim(y, R - 1) + [Computed(CylinderRim(y, R - 1))]
  }

  /** The first S fan triangles of a cap whose centre is vertex `centre`. */
  function CapFan(centre: nat, S: nat): (r: seq<nat>)
    ensures |r| == 3 * S
  {
    if S == 0 then [] else CapFan(centre, S - 1) + [centre, centre + 1 + (S - 1), centre + 1 + (S - 1) + 1]
  }

  /** The cylinder with R vertex rings per loop and S faces per loop: the
      wall, then the bottom cap (centre at 2R), then the top cap (centre at
      3R + 1). */
  function CylinderMesh(height: real, R: nat, S: nat): (m: Mesh<NormalVertex>)
  {
    var bottom := 2 * R;
    var top := bottom + 1 + R;
    Mesh(CylinderWallVertices(R) + [CapCentre(height, -1)] + CapRim(-1, R)
           + [CapCentre(height, 1)] + CapRim(1, R),
         CylinderWallIndices(S) + CapFan(bottom, S) + CapFan(top, S),
         Triangles)
  }

  /** With S faces the wall indices stay below 2S + 2: inside the wall when
      there are S + 1 rings. */
  lemma {:induction false} CylinderWallIndicesBound(S: nat)
    ensures forall k :: 0 <= k < |CylinderWallIndices(S)| ==> CylinderWallIndices(S)[k] < 2 * S + 2
  {
    if S > 0 {
      CylinderWallIndicesBound(S - 1);
    }
  }

  /** A cap fan of S triangles names its centre and the S + 1 vertices
      after it, and nothing else. */
  lemma {:induction false} CapFanBound(centre: nat, S: nat)
    ensures forall k :: 0 <= k < |CapFan(centre, S)| ==>
      centre <= CapFan(centre, S)[k] <= centre + S + 1
  {
    if S > 0 {
      CapFanBound(centre, S - 1);
    }
  }

  /** The cylinder has 4R + 2 vertices and 12S indices, and every index is in
      range exactly when there are more rings than faces (or no faces). */
  lemma CylinderMeshShape(height: real, R: nat, S: nat)
    ensures |CylinderMesh(height, R, S).vertices| == 4 * R + 2
    ensures |CylinderMesh(height, R, S).indices| == 12 * S
    ensures IndicesInRange(CylinderMesh(height, R, S)) <==> S < R || S == 0
  {
    var m := CylinderMesh(height, R, S);
    var wall := CylinderWallIndices(S);
    var bottom := CapFan(2 * R, S);
    var top := CapFan(3 * R + 1, S);
    assert m.indices == wall + bottom + top;
    if S < R || S == 0 {
      CylinderWallIndicesBound(S);
      CapFanBound(2 * R, S);
      CapFanBound(3 * R + 1, S);
      forall k | 0 <= k < |m.indices|
        ensures m.indices[k] < |m.vertices|
      {
        if k < |wall| {
          assert m.indices[k] == wall[k];
        } else if k < |wall| + |bottom| {
          assert m.indices[k] == bottom[k - |wall|];
        } else {
          assert m.indices[k] == top[k - |wall| - |bottom|];
        }
      }
    } else {
      // The top fan's last index is 3R + S + 2, at least the vertex count.
      assert m.indices[12 * S - 1] == top[3 * S - 1] == 3 * R + S + 2;
    }
  }

  /** With as many faces as rings the last index of the top cap is one past
      the last vertex. */
  lemma CylinderLastIndexOutOfRange(height: real, R: nat)
    requires R > 0
    ensures |CylinderMesh(height, R, R).indices| == 12 * R
    ensures CylinderMesh(height, R, R).indices[12 * R - 1] == |CylinderMesh(height, R, R).vertices|
    ensures !IndicesInRange(CylinderMesh(height, R, R))
  {
    CylinderMeshShape(height, R, R);
    var m := CylinderMesh(height, R, R);
    var top := CapFan(3 * R + 1, R);
    assert top[3 * R - 1] == 4 * R + 2;
    assert m.indices[12 * R - 1] == top[3 * R - 1];
  }

  /** An integral subdivision count n gives n + 1 rings and n faces. */
  lemma IntegralSubdivisions(n: int)
    ensures RingCount(n as real) == Trips(n + 1)
    ensures StepCount(n as real) == Trips(n)
  {
  }

  /** A positive non-integral subdivision count gives as many faces as
      rings. */
  lemma NonIntegralSubdivisions(s: real)
    requires s > 0.0 && s.Floor as real != s
    ensures StepCount(s) == RingCount(s) > 0
  {
  }

  /** createCylinder as written, given a positive non-integral subdivision
      count, builds a mesh with an index that names no vertex. */
  lemma NonIntegralCylinderOutOfRange(height: real, s: real)
    requires s > 0.0 && s.Floor as real != s
    ensures !IndicesInRange(CylinderMesh(height, RingCount(s), StepCount(s)))
  {
    NonIntegralSubdivisions(s);
    CylinderLastIndexOutOfRange(height, RingCount(s));
  }

  /** Rim vertex i of a cap is the sample for side y and angle step i. */
  lemma {:induction false} CapRimAt(y: int, R: nat, i: nat)
    requires i < R
    ensures CapRim(y, R)[i] == Computed(CylinderRim(y, i))
  {
    if i < R - 1 {
      CapRimAt(y, R - 1, i);
    }
  }

  /** createCylinder as written, given a positive non-integral subdivision
      count, closes the wall with a triangle through the bottom cap's centre
      (vertex 2R) and its first rim vertex (vertex 2R + 1). */
  lemma NonIntegralWallReachesCap(height: real, s: real)
    requires s > 0.0 && s.Floor as real != s
    ensures var R := RingCount(s);
      var m := CylinderMesh(height, R, StepCount(s));
      && |m.vertices| == 4 * R + 2 && |m.indices| == 12 * R
      && m.indices[6 * R - 3..6 * R] == [2 * R - 1, 2 * R, 2 * R + 1]
      && m.vertices[2 * R] == CapCentre(height, -1)
      && m.vertices[2 * R + 1] == Computed(CylinderRim(-1, 0))
  {
    NonIntegralSubdivisions(s);
    var R := RingCount(s);
    CylinderMeshShape(height, R, R);
    var m := CylinderMesh(height, R, R);
    var wall := CylinderWallIndices(R);
    assert wall == CylinderWallIndices(R - 1) + WallQuad(2 * (R - 1));
    assert m.indices[6 * R - 3..6 * R] == wall[6 * R - 3..6 * R];
    var rim := CapRim(-1, R);
    assert m.vertices == CylinderWallVertices(R) + [CapCentre(height, -1)] + rim
                         + [CapCentre(height, 1)] + CapRim(1, R);
    CapRimAt(-1, R, 0);
    assert m.vertices[2 * R + 1] == rim[0];
  }

  /** createCylinder as written: the subdivision count is a float, and the
      loops compare the integer angle step against it. */
  method CreateCylinder(height: real, radius: real, circleSubdivisions: real)
    returns (mesh: Mesh<NormalVertex>)
    ensures mesh == CylinderMesh(height, RingCount(circleSubdivisions), StepCount(circleSubdivisions))
  {
    var s := circleSubdivisions;
    ghost var R := RingCount(s);
    ghost var S := StepCount(s);
    var vertices: seq<NormalVertex> := [];
    var indices: seq<nat> := [];

    var angleStep := 0;
    while angleStep as real <= s
      invariant 0 <= angleStep <= R
      invariant vertices == CylinderWallVertices(angleStep)
      decreases R - angleStep
    {
      TripCounts(angleStep, s);
      vertices := AppendCylinderColumn(vertices, angleStep);
      angleStep := angleStep + 1;
    }
    TripCounts(angleStep, s);

    indices := CylinderWallFaces(s);
    assert vertices == CylinderWallVertices(R) && indices == CylinderWallIndices(S);
    vertices, indices := AppendCylinderCaps(vertices, indices, height, s);
    mesh := Mesh(vertices, indices, Triangles);
  }

  /** createCylinder's wall index loop: two triangles per angle step, for
      every step below the float bound s. */
  method CylinderWallFaces(s: real) returns (indices: seq<nat>)
    ensures indices == CylinderWallIndices(StepCount(s))
  {
    indices := [];
    var offset := 0;
    var angleStep := 0;
    while angleStep as real < s
      invariant 0 <= angleStep <= StepCount(s)
      invariant offset == 2 * angleStep
      invariant indices == CylinderWallIndices(angleStep)
      decreases StepCount(s) - angleStep
    {
      TripCounts(angleStep, s);
      indices := indices + [offset + 0, offset + 2, offset + 1];
      indices := indices + [offset + 1, offset + 2, offset + 3];
      offset := offset + 2;
      angleStep := angleStep + 1;
    }
    TripCounts(angleStep, s);
  }

  /** One trip of createCylinder's wall loop: the bottom (y = -1) and top
      (y = 1) wall vertices of angle step a. */
  method AppendCylinderColumn(vertices: seq<NormalVertex>, a: int) returns (vertices': seq<NormalVertex>)
    ensures vertices' == vertices + [Computed(CylinderWall(a, -1)), Computed(CylinderWall(a, 1))]
  {
    vertices' := vertices;
    var y := -1;
    while y <= 1
      invariant y == -1 || y == 1 || y == 3
      invariant vertices' == vertices
        + (if y >= 1 then [Computed(CylinderWall(a, -1))] else [])
        + (if y == 3 then [Computed(CylinderWall(a, 1))] else [])
      decreases 3 - y
    {
      vertices' := vertices' + [Computed(CylinderWall(a, y))];
      y := y + 2;
    }
  }

  /** createCylinder's cap loop: the bottom cap (y = -1), then the top cap
      (y = 1), each a centre, a rim and a fan. */
  method AppendCylinderCaps(vertices: seq<NormalVertex>, indices: seq<nat>, height: real, s: real)
    returns (vertices': seq<NormalVertex>, indices': seq<nat>)
    ensures vertices' == vertices + [CapCentre(height, -1)] + CapRim(-1, RingCount(s))
                                  + [CapCentre(height, 1)] + CapRim(1, RingCount(s))
    ensures indices' == indices + CapFan(|vertices|, StepCount(s))
                                + CapFan(|vertices| + 1 + RingCount(s), StepCount(s))
  {
    ghost var R, S := RingCount(s), StepCount(s);
    ghost var bottom, top := |vertices|, |vertices| + 1 + R;
    vertices', indices' := vertices, indices;
    var y := -1;
    while y <= 1
      invariant y == -1 || y == 1 || y == 3
      invariant y == -1 ==> vertices' == vertices && indices' == indices
      invariant y == 1 ==>
        && vertices' == vertices + [CapCentre(height, -1)] + CapRim(-1, R)
        && indices' == indices + CapFan(bottom, S)
      invariant y == 3 ==>
        && vertices' == vertices + [CapCentre(height, -1)] + CapRim(-1, R) + [CapCentre(height, 1)] + CapRim(1, R)
        && indices' == indices + CapFan(bottom, S) + CapFan(top, S)
      decreases 3 - y
    {
      vertices', indices' := AppendCylinderCap(vertices', indices', height, s, y);
      y := y + 2;
    }
  }

  /** One trip of createCylinder's cap loop: the centre vertex at the current
      vertex count, the rim, and the fan around the centre. */
  method AppendCylinderCap(vertices: seq<NormalVertex>, indices: seq<nat>, height: real, s: real, y: int)
    returns (vertices': seq<NormalVertex>, indices': seq<nat>)
    ensures vertices' == vertices + [CapCentre(height, y)] + CapRim(y, RingCount(s))
    ensures indices' == indices + CapFan(|vertices|, StepCount(s))
  {
    vertices', indices' := vertices, indices;
    var centralVertexIndex := |vertices'|;
    var fy := 0.5 * height * y as real;
    var normal := Vec3(0.0, fy, 0.0);
    vertices' := vertices' + [Vertex(Vec3(0.0, fy, 0.0), normal, Vec2(0.5, 0.5))];

    var angleStep := 0;
    while angleStep as real <= s
      invariant 0 <= angleStep <= RingCount(s)
      invariant vertices' == vertices + [CapCentre(height, y)] + CapRim(y, angleStep)
      decreases RingCount(s) - angleStep
    {
      TripCounts(angleStep, s);
      vertices' := vertices' + [Computed(CylinderRim(y, angleStep))];
      angleStep := angleStep + 1;
    }
    TripCounts(angleStep, s);

    var vertexId := 0;
    while vertexId as real < s
      invariant 0 <= vertexId <= StepCount(s)
      invariant indices' == indices + CapFan(centralVertexIndex, vertexId)
      decreases StepCount(s) - vertexId
    {
      TripCounts(vertexId, s);
      indices' := indices' + [centralVertexIndex, centralVertexIndex + 1 + vertexId,
                              centralVertexIndex + 1 + vertexId + 1];
      vertexId := vertexId + 1;
    }
    TripCounts(vertexId, s);
  }

  /** createCylinder called with an integral subdivision count n: 4(n + 1) + 2
      vertices, 12n indices, every index in range. */
  method CreateCylinderWithSteps(height: real, radius: real, n: int)
    returns (mesh: Mesh<NormalVertex>)
    ensures mesh == CylinderMesh(height, Trips(n + 1), Trips(n))
    ensures |mesh.vertices| == 4 * Trips(n + 1) + 2 && |mesh.indices| == 12 * Trips(n)
    ensures IndicesInRange(mesh)
  {
    IntegralSubdivisions(n);
    mesh := CreateCylinder(height, radius, n as real);
    CylinderMeshShape(height, Trips(n + 1), Trips(n));
  }

  // ---------------------------------------------------------------------
  // createSphere
  // ---------------------------------------------------------------------

  /** Every entry of s is below `bound`. */
  predicate AllBelow(s: seq<nat>, bound: nat)
  {
    forall k :: 0 <= k < |s| ==> s[k] < bound
  }

  lemma ConcatBelow(a: seq<nat>, b: seq<nat>, bound: nat)
    requires AllBelow(a, bound) && AllBelow(b, bound)
    ensures AllBelow(a + b, bound)
  {
  }

  /** One more row of w cells: (r + k) * w == r * w + k * w. */
  lemma NextRow(r: int, k: int, w: int)
    ensures r * w + k * w == (r + k) * w
  {
  }

  /** The two generators that lay trigonometric vertices out as a grid,
      row by row: the sphere (latitude, longitude) and the cone wall
      (angle step, cut). */
  datatype Grid = SphereGrid | ConeGrid

  function GridPoint(grid: Grid, r: int, c: int): NormalVertex
  {
    Computed(if grid == SphereGrid then SpherePoint(r, c) else ConeWall(r, c))
  }

  /** The first C vertices of grid row r. */
  function GridRow(grid: Grid, r: int, C: nat): (row: seq<NormalVertex>)
    ensures |row| == C
  {
    if C == 0 then [] else GridRow(grid, r, C - 1) + [GridPoint(grid, r, C - 1)]
  }

  /** The first R rows of a grid with C vertices per row. */
  function GridVertices(grid: Grid, R: nat, C: nat): seq<NormalVertex>
  {
    if R == 0 then [] else GridVertices(grid, R - 1, C) + GridRow(grid, R - 1, C)
  }

  /** R rows of C vertices make R * C vertices. */
  lemma {:induction false} GridVertexCount(grid: Grid, R: nat, C: nat)
    ensures |GridVertices(grid, R, C)| == R * C
  {
    if R > 0 {
      GridVertexCount(grid, R - 1, C);
      NextRow(R - 1, 1, C);
    }
  }

  lemma {:induction false} GridRowAt(grid: Grid, r: int, C: nat, c: nat)
    requires c < C
    ensures GridRow(grid, r, C)[c] == GridPoint(grid, r, c)
  {
    if c < C - 1 {
      GridRowAt(grid, r, C - 1, c);
    }
  }

  /** The grid vertex of row r and column c sits at index r * C + c. */
  lemma {:induction false} GridVertexAt(grid: Grid, R: nat, C: nat, r: nat, c: nat)
    requires r < R && c < C
    ensures r * C + c < |GridVertices(grid, R, C)|
    ensures GridVertices(grid, R, C)[r * C + c] == GridPoint(grid, r, c)
  {
    var prev := GridVertices(grid, R - 1, C);
    assert |prev| == (R - 1) * C by {
      GridVertexCount(grid, R - 1, C);
    }
    if r < R - 1 {
      assert r * C + c < (R - 1) * C by {
        CellBelow(r, c, R - 1, C);
      }
      GridVertexAt(grid, R - 1, C, r, c);
    } else {
      assert r * C + c == |prev| + c;
      GridRowAt(grid, R - 1, C, c);
    }
  }

  /** The two triangles between longitude g and g + 1 of latitude ring l and
      of the next ring, which wraps to ring 0 after the last. */
  function SphereQuad(l: nat, g: nat, lat: int, lon: int): seq<nat>
    requires lat >= 1 && lon >= 1
  {
    var baseIndex := l * lon + g;
    var neighbourIndex := ((l + 1) % lat) * lon + g;
    [baseIndex, baseIndex + 1, neighbourIndex, neighbourIndex, baseIndex + 1, neighbourIndex + 1]
  }

  /** The first G quads of latitude ring l. */
  function SphereIndexRing(l: nat, G: nat, lat: int, lon: int): (r: seq<nat>)
    requires G == 0 || (lat >= 1 && lon >= 1)
    ensures |r| == 6 * G
  {
    if G == 0 then [] else SphereIndexRing(l, G - 1, lat, lon) + SphereQuad(l, G - 1, lat, lon)
  }

  /** The quads of the first L latitude rings, lon - 1 per ring. */
  function SphereIndices(L: nat, lat: int, lon: int): (r: seq<nat>)
    requires L <= Trips(lat)
  {
    if L == 0 then [] else SphereIndices(L - 1, lat, lon) + SphereIndexRing(L - 1, Trips(lon - 1), lat, lon)
  }

  /** The sphere with `lat` latitude rings of `lon` vertices each. */
  function SphereMesh(lat: int, lon: int): Mesh<NormalVertex>
  {
    Mesh(GridVertices(SphereGrid, Trips(lat), Trips(lon)), SphereIndices(Trips(lat), lat, lon), Triangles)
  }

  /** L rings contribute 6 * L * (lon - 1) indices. */
  lemma {:induction false} SphereIndexCount(L: nat, lat: int, lon: int)
    requires L <= Trips(lat)
    ensures |SphereIndices(L, lat, lon)| == 6 * L * Trips(lon - 1)
  {
    if L > 0 {
      var t := Trips(lon - 1);
      SphereIndexCount(L - 1, lat, lon);
      assert |SphereIndices(L, lat, lon)| == 6 * (L - 1) * t + 6 * t;
      NextRow(6 * (L - 1), 6, t);
    }
  }

  /** Every index of the first L rings names one of the lat * lon vertices,
      the wrap of the last ring included. */
  lemma {:induction false} SphereIndicesBelow(L: nat, lat: int, lon: int)
    requires L <= Trips(lat)
    ensures forall k :: 0 <= k < |SphereIndices(L, lat, lon)| ==>
      SphereIndices(L, lat, lon)[k] < Trips(lat) * Trips(lon)
  {
    if L > 0 {
      SphereIndicesBelow(L - 1, lat, lon);
      SphereIndexRingBelow(L - 1, Trips(lon - 1), lat, lon);
    }
  }

  lemma {:induction false} SphereIndexRingBelow(l: nat, G: nat, lat: int, lon: int)
    requires l < lat && G <= Trips(lon - 1)
    ensures forall k :: 0 <= k < |SphereIndexRing(l, G, lat, lon)| ==>
      SphereIndexRing(l, G, lat, lon)[k] < lat * lon
  {
    if G > 0 {
      SphereIndexRingBelow(l, G - 1, lat, lon);
      var g := G - 1;
      CellBelow(l, g + 1, lat, lon);
      CellBelow((l + 1) % lat, g + 1, lat, lon);
    }
  }

  /** One trip of createSphere's index loop: the quads between latitude ring
      l and the next ring, which for the last ring is ring 0 again. */
  method AppendSphereRing(indices: seq<nat>, l: nat, lat: int, lon: int) returns (indices': seq<nat>)
    requires l < lat
    ensures indices' == indices + SphereIndexRing(l, Trips(lon - 1), lat, lon)
  {
    indices' := indices;
    var longtitude := 0;
    while longtitude < lon - 1
      invariant 0 <= longtitude <= Trips(lon - 1)
      invariant indices' == indices + SphereIndexRing(l, longtitude, lat, lon)
    {
      var baseIndex := l * lon + longtitude;
      var neighbourIndex := ((l + 1) % lat) * lon + longtitude;
      ghost var quad := SphereQuad(l, longtitude, lat, lon);
      assert baseIndex == quad[0] && neighbourIndex == quad[2];
      indices' := indices' + [baseIndex, baseIndex + 1, neighbourIndex];
      indices' := indices' + [neighbourIndex, baseIndex + 1, neighbourIndex + 1];
      assert indices' == indices + SphereIndexRing(l, longtitude, lat, lon) + quad;
      longtitude := longtitude + 1;
    }
  }

  /** createSphere: `lat` rings of `lon` vertices, lat * lon vertices in all,
      6 * lat * (lon - 1) indices, every one of them naming a vertex. */
  method CreateSphere(radius: real, latitudeSubdivisions: int, longtitudeSubdivisions: int)
    returns (mesh: Mesh<NormalVertex>)
    ensures mesh == SphereMesh(latitudeSubdivisions, longtitudeSubdivisions)
    ensures |mesh.vertices| == Trips(latitudeSubdivisions) * Trips(longtitudeSubdivisions)
    ensures |mesh.indices| == 6 * Trips(latitudeSubdivisions) * Trips(longtitudeSubdivisions - 1)
    ensures IndicesInRange(mesh)
  {
    var lat, lon := latitudeSubdivisions, longtitudeSubdivisions;
    var vertices: seq<NormalVertex> := [];
    var indices: seq<nat> := [];

    var latitude := 0;
    while latitude < lat
      invariant 0 <= latitude <= Trips(lat)
      invariant vertices == GridVertices(SphereGrid, latitude, Trips(lon))
    {
      vertices := AppendGridRow(vertices, SphereGrid, latitude, lon);
      latitude := latitude + 1;
    }

    latitude := 0;
    while latitude < lat
      invariant 0 <= latitude <= Trips(lat)
      invariant indices == SphereIndices(latitude, lat, lon)
    {
      indices := AppendSphereRing(indices, latitude, lat, lon);
      latitude := latitude + 1;
    }
    mesh := Mesh(vertices, indices, Triangles);
    GridVertexCount(SphereGrid, Trips(lat), Trips(lon));
    SphereIndexCount(Trips(lat), lat, lon);
    SphereIndicesBelow(Trips(lat), lat, lon);
  }

  // ---------------------------------------------------------------------
  // createCone
  // ---------------------------------------------------------------------

  /** The centre of the cone's base cap: the origin, facing -y. */
  const ConeCapCentre := Vertex(Zero3, Vec3(0.0, -1.0, 0.0), Vec2(0.5, 0.5))

  /** The first A rim vertices of the cone's base cap. */
  function ConeRimVertices(A: nat): (r: seq<NormalVertex>)
    ensures |r| == A
  {
    if A == 0 then [] else ConeRimVertices(A - 1) + [Computed(ConeRim(A - 1))]
  }

  /** The two wall triangles between cut y and y + 1 of the column that
      starts at vertex `base`, and of the next column. */
  function ConeWallQuad(base: nat, y: nat, cuts: nat): seq<nat>
  {
    [base + y, base + y + 1, base + y + cuts, base + y + 1, base + y + cuts, base + y + cuts + 1]
  }

  /** The first Y quads of wall column a. */
  function ConeColumn(a: nat, Y: nat, cuts: int): (r: seq<nat>)
    requires Y == 0 || cuts >= 2
    ensures |r| == 6 * Y
  {
    if Y == 0 then [] else ConeColumn(a, Y - 1, cuts) + ConeWallQuad(cuts * a, Y - 1, cuts)
  }

  /** The wall quads of the first A columns, cuts - 1 per column. */
  function ConeWallIndices(A: nat, cuts: int): seq<nat>
  {
    if A == 0 then [] else ConeWallIndices(A - 1, cuts) + ConeColumn(A - 1, Trips(cuts - 1), cuts)
  }

  /** The cone with n angle steps and `cuts` rings along its height: the wall
      grid, the cap centre at (n + 1) * cuts, then the cap rim; the wall
      quads, then the cap fan. */
  function ConeMesh(n: int, cuts: int): Mesh<NormalVertex>
  {
    var capIndex := Trips(n + 1) * Trips(cuts);
    Mesh(GridVertices(ConeGrid, Trips(n + 1), Trips(cuts)) + [ConeCapCentre] + ConeRimVertices(Trips(n + 1)),
         ConeWallIndices(Trips(n), cuts) + CapFan(capIndex, Trips(n)),
         Triangles)
  }

  /** Every index of column a stays below the start of column a + 2. */
  lemma {:induction false} ConeColumnBelow(a: nat, Y: nat, cuts: int)
    requires Y <= Trips(cuts - 1) && (Y == 0 || cuts >= 2)
    ensures forall k :: 0 <= k < |ConeColumn(a, Y, cuts)| ==> ConeColumn(a, Y, cuts)[k] < cuts * a + 2 * cuts
  {
    if Y > 0 {
      ConeColumnBelow(a, Y - 1, cuts);
    }
  }

  /** A columns have 6 * A * (cuts - 1) wall indices, all below
      cuts * A + cuts: inside the wall grid of A + 1 columns. */
  lemma {:induction false} ConeWallIndicesBelow(A: nat, cuts: int)
    ensures |ConeWallIndices(A, cuts)| == 6 * A * Trips(cuts - 1)
    ensures forall k :: 0 <= k < |ConeWallIndices(A, cuts)| ==> ConeWallIndices(A, cuts)[k] < cuts * A + cuts
  {
    if A > 0 {
      ConeWallIndicesBelow(A - 1, cuts);
      var Y := Trips(cuts - 1);
      NextRow(6 * (A - 1), 6, Y);
      if Y > 0 {
        ConeColumnBelow(A - 1, Y, cuts);
        assert cuts * (A - 1) + 2 * cuts == cuts * A + cuts by {
          NextRow(A - 1, 1, cuts);
        }
      }
    }
  }

  /** The cone has (n + 1) * cuts + 1 + (n + 1) vertices and
      6n(cuts - 1) + 3n indices, every one of them naming a vertex. */
  lemma ConeMeshShape(n: int, cuts: int)
    ensures |ConeMesh(n, cuts).vertices| == Trips(n + 1) * Trips(cuts) + 1 + Trips(n + 1)
    ensures |ConeMesh(n, cuts).indices| == 6 * Trips(n) * Trips(cuts - 1) + 3 * Trips(n)
    ensures IndicesInRange(ConeMesh(n, cuts))
    ensures ConeMesh(n, cuts).vertices[Trips(n + 1) * Trips(cuts)] == ConeCapCentre
  {
    var capIndex := Trips(n + 1) * Trips(cuts);
    var vertexCount := capIndex + 1 + Trips(n + 1);
    assert |ConeMesh(n, cuts).vertices| == vertexCount by {
      GridVertexCount(ConeGrid, Trips(n + 1), Trips(cuts));
    }
    var wall := ConeWallIndices(Trips(n), cuts);
    var fan := CapFan(capIndex, Trips(n));
    assert AllBelow(wall, vertexCount) by {
      ConeWallIndicesBelow(Trips(n), cuts);
      if |wall| > 0 {
        assert n >= 1 && cuts >= 2;
        assert cuts * Trips(n) + cuts == capIndex by {
          assert Trips(n) == n && Trips(n + 1) == n + 1 && Trips(cuts) == cuts;
          NextRow(n, 1, cuts);
        }
      }
    }
    assert AllBelow(fan, vertexCount) by {
      CapFanBound(capIndex, Trips(n));
    }
    ConeWallIndicesBelow(Trips(n), cuts);
    ConcatBelow(wall, fan, vertexCount);
    GridVertexCount(ConeGrid, Trips(n + 1), Trips(cuts));
  }

  /** The side vertex for angle step a and cut y sits at index a * cuts + y. */
  lemma ConeWallVertexAt(n: int, cuts: int, a: nat, y: nat)
    requires a <= n && y < cuts
    ensures a * cuts + y < |ConeMesh(n, cuts).vertices|
    ensures ConeMesh(n, cuts).vertices[a * cuts + y] == Computed(ConeWall(a, y))
  {
    var A, C := Trips(n + 1), Trips(cuts);
    assert A == n + 1 && C == cuts;
    var grid := GridVertices(ConeGrid, A, C);
    assert ConeMesh(n, cuts).vertices == grid + [ConeCapCentre] + ConeRimVertices(A);
    GridVertexAt(ConeGrid, A, C, a, y);
  }

  /** One row of a grid loop: the vertices of row r for columns 0 to
      `columns` - 1, in order. */
  method AppendGridRow(vertices: seq<NormalVertex>, grid: Grid, r: int, columns: int)
    returns (vertices': seq<NormalVertex>)
    ensures vertices' == vertices + GridRow(grid, r, Trips(columns))
  {
    vertices' := vertices;
    var c := 0;
    while c < columns
      invariant 0 <= c <= Trips(columns)
      invariant vertices' == vertices + GridRow(grid, r, c)
    {
      vertices' := vertices' + [GridPoint(grid, r, c)];
      c := c + 1;
    }
  }

  /** One column of createCone's wall loop: the quads between the cuts of
      column a and those of column a + 1. */
  method AppendConeColumn(indices: seq<nat>, a: nat, cuts: int) returns (indices': seq<nat>)
    ensures indices' == indices + ConeColumn(a, Trips(cuts - 1), cuts)
  {
    indices' := indices;
    if cuts < 2 {
      return;
    }
    var baseIndex: nat := cuts * a;
    var y := 0;
    while y < cuts - 1
      invariant 0 <= y <= cuts - 1
      invariant indices' == indices + ConeColumn(a, y, cuts)
    {
      indices' := indices' + [baseIndex + y, baseIndex + y + 1, baseIndex + y + cuts];
      indices' := indices' + [baseIndex + y + 1, baseIndex + y + cuts, baseIndex + y + cuts + 1];
      y := y + 1;
    }
  }

  /** createCone: the wall grid (side vertex for angle step a and cut y at
      index a * cuts + y), the cap centre at capIndex = (n + 1) * cuts, the
      rim; 6n(cuts - 1) + 3n indices, every one naming a vertex. */
  method CreateCone(height: real, radius: real, circleSubdivisions: int, circleCuts: int)
    returns (mesh: Mesh<NormalVertex>)
    ensures mesh == ConeMesh(circleSubdivisions, circleCuts)
    ensures |mesh.vertices| == Trips(circleSubdivisions + 1) * Trips(circleCuts) + 1 + Trips(circleSubdivisions + 1)
    ensures |mesh.indices| == 6 * Trips(circleSubdivisions) * Trips(circleCuts - 1) + 3 * Trips(circleSubdivisions)
    ensures IndicesInRange(mesh)
  {
    var n, cuts := circleSubdivisions, circleCuts;
    var vertices: seq<NormalVertex> := [];
    var indices: seq<nat> := [];

    var angleStep := 0;
    while angleStep <= n
      invariant 0 <= angleStep <= Trips(n + 1)
      invariant vertices == GridVertices(ConeGrid, angleStep, Trips(cuts))
    {
      vertices := AppendGridRow(vertices, ConeGrid, angleStep, cuts);
      angleStep := angleStep + 1;
    }

    ghost var wall := vertices;
    var capIndex := |vertices|;
    vertices := vertices + [Vertex(Zero3, Vec3(0.0, -1.0, 0.0), Vec2(0.5, 0.5))];

    angleStep := 0;
    while angleStep <= n
      invariant 0 <= angleStep <= Trips(n + 1)
      invariant vertices == wall + [ConeCapCentre] + ConeRimVertices(angleStep)
    {
      vertices := vertices + [Computed(ConeRim(angleStep))];
      angleStep := angleStep + 1;
    }

    angleStep := 0;
    while angleStep < n
      invariant 0 <= angleStep <= Trips(n)
      invariant indices == ConeWallIndices(angleStep, cuts)
    {
      indices := AppendConeColumn(indices, angleStep, cuts);
      angleStep := angleStep + 1;
    }

    angleStep := 0;
    while angleStep < n
      invariant 0 <= angleStep <= Trips(n)
      invariant indices == ConeWallIndices(Trips(n), cuts) + CapFan(capIndex, angleStep)
    {
      indices := indices + [capIndex, capIndex + angleStep + 1, capIndex + angleStep + 2];
      angleStep := angleStep + 1;
    }

    mesh := Mesh(vertices, indices, Triangles);
    assert capIndex == Trips(n + 1) * Trips(cuts) by {
      GridVertexCount(ConeGrid, Trips(n + 1), Trips(cuts));
    }
    assert mesh == ConeMesh(n, cuts);
    ConeMeshShape(n, cuts);
  }
}
