/**
 * The Ames room: a distorted box given by eight named corners, assembled
 * into a 30-vertex triangle buffer (two triangles per face, five faces),
 * textured through UV coordinates obtained by projecting each vertex
 * through a virtual camera at the peephole, and split into five material
 * groups, one per face.
 *
 * The camera's projection is the parameter `project`; the textures,
 * materials, lighting and renderer are not modelled.
 */
module AmesRoom {

  datatype Vec3 = Vec3(x: real, y: real, z: real)

  // ----- Corners -----

  datatype Corner =
    | NearBottomLeft | NearBottomRight | NearTopLeft | NearTopRight
    | FarBottomLeft | FarBottomRight | FarTopLeft | FarTopRight

  /** The distorted coordinates of each corner. */
  function Position(c: Corner): Vec3
  {
    match c
    case NearBottomLeft => Vec3(-3.0, -3.0, -8.0)
    case NearBottomRight => Vec3(3.0, -3.0, -8.0)
    case NearTopLeft => Vec3(-3.0, 3.0, -8.0)
    case NearTopRight => Vec3(3.0, 3.0, -8.0)
    case FarBottomLeft => Vec3(-8.0, -6.0, -20.0)
    case FarBottomRight => Vec3(4.0, -4.0, -12.0)
    case FarTopLeft => Vec3(-8.0, 6.0, -20.0)
    case FarTopRight => Vec3(4.0, 4.0, -12.0)
  }

  predicate IsNear(c: Corner)
  {
    c.NearBottomLeft? || c.NearBottomRight? || c.NearTopLeft? || c.NearTopRight?
  }

  predicate IsBottom(c: Corner)
  {
    c.NearBottomLeft? || c.NearBottomRight? || c.FarBottomLeft? || c.FarBottomRight?
  }

  predicate IsLeft(c: Corner)
  {
    c.NearBottomLeft? || c.NearTopLeft? || c.FarBottomLeft? || c.FarTopLeft?
  }

  /** Each corner's name says where it is: left of x = 0, below y = 0, on the near plane z = -8 or deeper. */
  lemma CornerNames(c: Corner)
    ensures IsLeft(c) <==> Position(c).x < 0.0
    ensures !IsLeft(c) <==> Position(c).x > 0.0
    ensures IsBottom(c) <==> Position(c).y < 0.0
    ensures !IsBottom(c) <==> Position(c).y > 0.0
    ensures IsNear(c) <==> Position(c).z == -8.0
    ensures !IsNear(c) <==> Position(c).z < -8.0
  {
  }

  /** The four near corners form a 6 by 6 square, parallel to the axes, on the plane z = -8. */
  lemma NearSquare()
    ensures Position(NearBottomLeft).z == Position(NearBottomRight).z == -8.0
    ensures Position(NearTopLeft).z == Position(NearTopRight).z == -8.0
    ensures Position(NearBottomRight).x - Position(NearBottomLeft).x == 6.0
    ensures Position(NearTopRight).x - Position(NearTopLeft).x == 6.0
    ensures Position(NearTopLeft).y - Position(NearBottomLeft).y == 6.0
    ensures Position(NearTopRight).y - Position(NearBottomRight).y == 6.0
    ensures Position(NearBottomLeft).y == Position(NearBottomRight).y
    ensures Position(NearBottomLeft).x == Position(NearTopLeft).x
  {
  }

  /**
   * The distortion: the far left edge is deeper and taller (12 high at
   * z = -20) than the far right edge (8 high at z = -12).
   */
  lemma FarEdgesDistorted()
    ensures Position(FarTopLeft).y - Position(FarBottomLeft).y == 12.0
    ensures Position(FarTopRight).y - Position(FarBottomRight).y == 8.0
    ensures Position(FarTopLeft).z == Position(FarBottomLeft).z == -20.0
    ensures Position(FarTopRight).z == Position(FarBottomRight).z == -12.0
  {
  }

  // ----- Faces and the vertex buffer -----

  datatype Face = Floor | Ceiling | BackWall | LeftWall | RightWall

  /** The faces in the order of the buffer and of the materials. */
  const Faces: seq<Face> := [Floor, Ceiling, BackWall, LeftWall, RightWall]

  /** Whether a corner belongs to a face. */
  predicate OnFace(c: Corner, f: Face)
  {
    match f
    case Floor => IsBottom(c)
    case Ceiling => !IsBottom(c)
    case BackWall => !IsNear(c)
    case LeftWall => IsLeft(c)
    case RightWall => !IsLeft(c)
  }

  /** A triangle of the buffer: three corners in drawing order. */
  datatype Triangle = Triangle(a: Corner, b: Corner, c: Corner)

  function Corners(t: Triangle): seq<Corner>
  {
    [t.a, t.b, t.c]
  }

  /** The two triangles of each face exactly as the buffer lists them. */
  function SourceFaceTriangles(f: Face): seq<Triangle>
  {
    match f
    case Floor =>
      [Triangle(NearBottomLeft, FarBottomRight, NearBottomRight), Triangle(NearBottomLeft, FarBottomLeft, FarBottomRight)]
    case Ceiling =>
      [Triangle(NearTopLeft, FarTopRight, NearTopRight), Triangle(NearTopLeft, FarTopLeft, FarTopRight)]
    case BackWall =>
      [Triangle(FarBottomLeft, FarTopRight, FarBottomRight), Triangle(FarBottomLeft, FarTopLeft, FarTopRight)]
    case LeftWall =>
      [Triangle(NearBottomLeft, FarTopLeft, FarBottomLeft), Triangle(NearBottomLeft, NearTopLeft, FarTopLeft)]
    case RightWall =>
      [Triangle(NearBottomRight, FarTopRight, FarBottomRight), Triangle(NearBottomRight, NearTopRight, FarTopRight)]
  }

  /** The same triangle drawn the other way round. */
  function Rewound(t: Triangle): Triangle
  {
    Triangle(t.a, t.c, t.b)
  }

  /** The faces whose triangles the buffer winds outward. */
  predicate WoundOutward(f: Face)
  {
    f == Floor || f == BackWall || f == LeftWall
  }

  /**
   * The two triangles of each face, all wound so that their normals point
   * into the room: the floor, back-wall and left-wall triangles are rewound.
   */
  function FaceTriangles(f: Face): seq<Triangle>
  {
    var ts := SourceFaceTriangles(f);
    if WoundOutward(f) then [Rewound(ts[0]), Rewound(ts[1])] else ts
  }

  /**
   * The ten triangles of the buffer exactly as it lists them, face after
   * face: triangle t lies on face t / 2.
   */
  function RoomTriangles(): (ts: seq<Triangle>)
    ensures |ts| == 2 * |Faces| == 10
    ensures forall t, j :: 0 <= t < 10 && 0 <= j < 3 ==> OnFace(Corners(ts[t])[j], Faces[t / 2])
  {
    var ts := seq(10, t requires 0 <= t < 10 => SourceFaceTriangles(Faces[t / 2])[t % 2]);
    forall t, j | 0 <= t < 10 && 0 <= j < 3
      ensures OnFace(Corners(ts[t])[j], Faces[t / 2])
    {
      FacesUseOwnCorners(Faces[t / 2]);
    }
    ts
  }

  /** The corners of a list of triangles, three per triangle. */
  function VertexList(ts: seq<Triangle>): seq<Corner>
  {
    seq(3 * |ts|, v requires 0 <= v < 3 * |ts| => Corners(ts[v / 3])[v % 3])
  }

  /** The corner of each of the 30 vertices. */
  function VertexCorners(): seq<Corner>
  {
    VertexList(RoomTriangles())
  }

  /** One coordinate of a position: 0 is x, 1 is y, 2 is z. */
  function Coord(p: Vec3, i: nat): real
  {
    if i == 0 then p.x else if i == 1 then p.y else p.z
  }

  /** The flat number buffer: the x, y and z of each vertex in turn. */
  function Flatten(cs: seq<Corner>): seq<real>
  {
    seq(3 * |cs|, k requires 0 <= k < 3 * |cs| => Coord(Position(cs[k / 3]), k % 3))
  }

  /**
   * The room's position buffer: 90 numbers, opening with the first floor
   * triangle as listed, near-bottom-left, far-bottom-right, near-bottom-right.
   */
  function Vertices(): (vs: seq<real>)
    ensures |vs| == 90
    ensures vs[..9] == [-3.0, -3.0, -8.0, 4.0, -4.0, -12.0, 3.0, -3.0, -8.0]
  {
    FirstTriangleCoordinates();
    Flatten(VertexCorners())
  }

  /** The buffer opens with the first floor triangle as listed. */
  lemma FirstTriangleCoordinates()
    ensures |VertexCorners()| == 30 && |Flatten(VertexCorners())| == 90
    ensures Flatten(VertexCorners())[..9] == [-3.0, -3.0, -8.0, 4.0, -4.0, -12.0, 3.0, -3.0, -8.0]
  {
    RoomTriangleAt(0);
    VertexListAt(RoomTriangles(), 0);
    VertexListAt(RoomTriangles(), 1);
    VertexListAt(RoomTriangles(), 2);
    FlattenOpening(VertexCorners());
  }

  /** Flattening corners that open with that triangle opens with its nine coordinates. */
  lemma FlattenOpening(cs: seq<Corner>)
    requires |cs| >= 3 && cs[0] == NearBottomLeft && cs[1] == FarBottomRight && cs[2] == NearBottomRight
    ensures |Flatten(cs)| == 3 * |cs|
    ensures Flatten(cs)[..9] == [-3.0, -3.0, -8.0, 4.0, -4.0, -12.0, 3.0, -3.0, -8.0]
  {
    FlattenAt(cs, 0);
    FlattenAt(cs, 1);
    FlattenAt(cs, 2);
  }

  /**
   * The buffer holds 30 vertices, that is 10 triangles, two for each of the
   * 5 faces: vertex v is corner v % 3 of triangle v / 3, which is triangle
   * (v / 3) % 2 of face v / 6.
   */
  lemma VertexCornerAt(v: nat)
    requires v < 30
    ensures |RoomTriangles()| == 10 == 2 * |Faces| && |VertexCorners()| == 30
    ensures VertexCorners()[v] == Corners(SourceFaceTriangles(Faces[v / 6])[(v / 3) % 2])[v % 3]
  {
    VertexListAt(RoomTriangles(), v);
    RoomTriangleAt(v / 3);
    assert (v / 3) / 2 == v / 6;
  }

  lemma VertexListAt(ts: seq<Triangle>, v: nat)
    requires v < 3 * |ts|
    ensures |VertexList(ts)| == 3 * |ts|
    ensures VertexList(ts)[v] == Corners(ts[v / 3])[v % 3]
  {
  }

  lemma RoomTriangleAt(t: nat)
    requires t < 10
    ensures |RoomTriangles()| == 10
    ensures RoomTriangles()[t] == SourceFaceTriangles(Faces[t / 2])[t % 2]
  {
  }

  /**
   * The position buffer holds 90 numbers, 3 per vertex: vertex v occupies
   * positions 3v, 3v + 1 and 3v + 2 with the x, y and z of its corner.
   */
  lemma VertexBuffer(v: nat)
    requires v < 30
    ensures |VertexCorners()| == 30 && |Vertices()| == 90
    ensures Vertices()[3 * v] == Position(VertexCorners()[v]).x
    ensures Vertices()[3 * v + 1] == Position(VertexCorners()[v]).y
    ensures Vertices()[3 * v + 2] == Position(VertexCorners()[v]).z
  {
    VertexCornerAt(v);
    FlattenAt(VertexCorners(), v);
  }

  lemma FlattenAt(cs: seq<Corner>, v: nat)
    requires v < |cs|
    ensures |Flatten(cs)| == 3 * |cs|
    ensures Flatten(cs)[3 * v] == Position(cs[v]).x
    ensures Flatten(cs)[3 * v + 1] == Position(cs[v]).y
    ensures Flatten(cs)[3 * v + 2] == Position(cs[v]).z
  {
    assert (3 * v) / 3 == v && (3 * v) % 3 == 0;
    assert (3 * v + 1) / 3 == v && (3 * v + 1) % 3 == 1;
    assert (3 * v + 2) / 3 == v && (3 * v + 2) % 3 == 2;
  }

  /**
   * Each face's triangles use only the corners of that face, and each of
   * its four corners at least once: the floor only bottom corners, the
   * ceiling only top ones, the back wall only far ones, the left wall only
   * left ones and the right wall only right ones.  This holds for the
   * buffer as written and for the rewound one.
   */
  lemma FacesUseOwnCorners(f: Face)
    ensures |SourceFaceTriangles(f)| == |FaceTriangles(f)| == 2
    ensures forall i, j :: 0 <= i < 2 && 0 <= j < 3 ==> OnFace(Corners(SourceFaceTriangles(f)[i])[j], f)
    ensures forall i, j :: 0 <= i < 2 && 0 <= j < 3 ==> OnFace(Corners(FaceTriangles(f)[i])[j], f)
    ensures forall c :: OnFace(c, f) ==> c in Corners(SourceFaceTriangles(f)[0]) + Corners(SourceFaceTriangles(f)[1])
    ensures forall c :: OnFace(c, f) ==> c in Corners(FaceTriangles(f)[0]) + Corners(FaceTriangles(f)[1])
  {
  }

  // ----- Winding -----

  function Sub(a: Vec3, b: Vec3): Vec3
  {
    Vec3(a.x - b.x, a.y - b.y, a.z - b.z)
  }

  /** The mean of the eight corners, a point inside the room. */
  const RoomCentre: Vec3 := Vec3(-1.0, 0.0, -12.0)

  lemma RoomCentreIsMean()
    ensures 8.0 * RoomCentre.x == Position(NearBottomLeft).x + Position(NearBottomRight).x + Position(NearTopLeft).x
      + Position(NearTopRight).x + Position(FarBottomLeft).x + Position(FarBottomRight).x + Position(FarTopLeft).x
      + Position(FarTopRight).x
    ensures 8.0 * RoomCentre.y == Position(NearBottomLeft).y + Position(NearBottomRight).y + Position(NearTopLeft).y
      + Position(NearTopRight).y + Position(FarBottomLeft).y + Position(FarBottomRight).y + Position(FarTopLeft).y
      + Position(FarTopRight).y
    ensures 8.0 * RoomCentre.z == Position(NearBottomLeft).z + Position(NearBottomRight).z + Position(NearTopLeft).z
      + Position(NearTopRight).z + Position(FarBottomLeft).z + Position(FarBottomRight).z + Position(FarTopLeft).z
      + Position(FarTopRight).z
  {
  }

  /**
   * How far the normal of the triangle a, b, c (right-hand rule over its
   * corners in that order, as the library derives vertex normals) points
   * towards the room's centre: positive means inward.
   */
  function Facing(a: Vec3, b: Vec3, c: Vec3): real
  {
    var u := Sub(b, a);
    var w := Sub(c, a);
    var d := Sub(RoomCentre, a);
    (u.y * w.z - u.z * w.y) * d.x + (u.z * w.x - u.x * w.z) * d.y + (u.x * w.y - u.y * w.x) * d.z
  }

  function Inwardness(t: Triangle): real
  {
    Facing(Position(t.a), Position(t.b), Position(t.c))
  }

  /** Exchanging the last two corners of any triangle negates its facing. */
  lemma FacingSwap(a: Vec3, b: Vec3, c: Vec3)
    ensures Facing(a, c, b) == -Facing(a, b, c)
  {
    var u := Sub(b, a);
    var w := Sub(c, a);
    assert w.y * u.z - w.z * u.y == -(u.y * w.z - u.z * w.y);
    assert w.z * u.x - w.x * u.z == -(u.z * w.x - u.x * w.z);
    assert w.x * u.y - w.y * u.x == -(u.x * w.y - u.y * w.x);
  }

  /** Drawing a triangle the other way round turns its normal around. */
  lemma RewoundFlips(t: Triangle)
    ensures Inwardness(Rewound(t)) == -Inwardness(t)
  {
    FacingSwap(Position(t.a), Position(t.b), Position(t.c));
  }

  /**
   * As written, only the ceiling and right-wall triangles face into the
   * room; the floor, back-wall and left-wall triangles face out, against
   * the buffer's own comment.
   */
  lemma SourceWindingMixed(f: Face)
    ensures |SourceFaceTriangles(f)| == 2
    ensures WoundOutward(f) ==> Inwardness(SourceFaceTriangles(f)[0]) < 0.0 && Inwardness(SourceFaceTriangles(f)[1]) < 0.0
    ensures !WoundOutward(f) ==> Inwardness(SourceFaceTriangles(f)[0]) > 0.0 && Inwardness(SourceFaceTriangles(f)[1]) > 0.0
  {
    match f
    case Floor => FloorWinding();
    case Ceiling => CeilingWinding();
    case BackWall => BackWallWinding();
    case LeftWall => LeftWallWinding();
    case RightWall => RightWallWinding();
  }

  // The facing of each listed triangle, face by face.

  lemma FloorWinding()
    ensures |SourceFaceTriangles(Floor)| == 2
    ensures Inwardness(SourceFaceTriangles(Floor)[0]) == -96.0
    ensures Inwardness(SourceFaceTriangles(Floor)[1]) == -416.0
  {
  }

  lemma CeilingWinding()
    ensures |SourceFaceTriangles(Ceiling)| == 2
    ensures Inwardness(SourceFaceTriangles(Ceiling)[0]) == 96.0
    ensures Inwardness(SourceFaceTriangles(Ceiling)[1]) == 416.0
  {
  }

  lemma BackWallWinding()
    ensures |SourceFaceTriangles(BackWall)| == 2
    ensures Inwardness(SourceFaceTriangles(BackWall)[0]) == -320.0
    ensures Inwardness(SourceFaceTriangles(BackWall)[1]) == -480.0
  {
  }

  lemma LeftWallWinding()
    ensures |SourceFaceTriangles(LeftWall)| == 2
    ensures Inwardness(SourceFaceTriangles(LeftWall)[0]) == -528.0
    ensures Inwardness(SourceFaceTriangles(LeftWall)[1]) == -264.0
  {
  }

  lemma RightWallWinding()
    ensures |SourceFaceTriangles(RightWall)| == 2
    ensures Inwardness(SourceFaceTriangles(RightWall)[0]) == 160.0
    ensures Inwardness(SourceFaceTriangles(RightWall)[1]) == 120.0
  {
  }

  /**
   * In the buffer as built, triangle t faces out of the room exactly when
   * it belongs to the floor, the back wall or the left wall.
   */
  lemma BufferWindingMixed(t: nat)
    requires t < 10
    ensures |RoomTriangles()| == 10
    ensures Inwardness(RoomTriangles()[t]) < 0.0 <==> WoundOutward(Faces[t / 2])
    ensures Inwardness(RoomTriangles()[t]) != 0.0
  {
    RoomTriangleAt(t);
    var f := Faces[t / 2];
    var tri := SourceFaceTriangles(f)[t % 2];
    SignOfListed(f, t % 2, tri);
  }

  lemma SignOfListed(f: Face, i: nat, tri: Triangle)
    requires i < 2 && |SourceFaceTriangles(f)| == 2 && tri == SourceFaceTriangles(f)[i]
    ensures Inwardness(tri) < 0.0 <==> WoundOutward(f)
    ensures Inwardness(tri) != 0.0
  {
    SourceWindingMixed(f);
  }

  /** With the corrected triangles every triangle faces into the room. */
  lemma WindingInward(f: Face, i: nat)
    requires i < 2
    ensures |FaceTriangles(f)| == 2
    ensures Inwardness(FaceTriangles(f)[i]) > 0.0
  {
    SourceWindingMixed(f);
    if WoundOutward(f) {
      RewoundFlips(SourceFaceTriangles(f)[i]);
    }
  }

  /**
   * The rewinding keeps each triangle's first corner and its set of
   * corners, and leaves the ceiling and right-wall triangles untouched.
   */
  lemma RewindingKeepsTriangles(f: Face, i: nat)
    requires i < 2
    ensures |FaceTriangles(f)| == |SourceFaceTriangles(f)| == 2
    ensures FaceTriangles(f)[i].a == SourceFaceTriangles(f)[i].a
    ensures multiset(Corners(FaceTriangles(f)[i])) == multiset(Corners(SourceFaceTriangles(f)[i]))
    ensures !WoundOutward(f) ==> FaceTriangles(f)[i] == SourceFaceTriangles(f)[i]
  {
    var t := SourceFaceTriangles(f)[i];
    if WoundOutward(f) {
      assert FaceTriangles(f)[i] == Rewound(t);
      RewoundKeepsCorners(t);
    }
  }

  /** Rewinding keeps the first corner and the corners as a multiset. */
  lemma RewoundKeepsCorners(t: Triangle)
    ensures Rewound(t).a == t.a
    ensures multiset(Corners(Rewound(t))) == multiset(Corners(t))
  {
    calc {
      multiset(Corners(Rewound(t)));
      multiset([t.a, t.c, t.b]);
      multiset{t.a, t.c, t.b};
      multiset{t.a, t.b, t.c};
      multiset(Corners(t));
    }
  }

  // ----- Texture coordinates -----

  /** Clip space (-1 to 1) to texture space (0 to 1). */
  function ClipToUV(c: real): real
  {
    (c + 1.0) / 2.0
  }

  /** The inverse map, texture space back to clip space. */
  function UVToClip(u: real): real
  {
    2.0 * u - 1.0
  }

  /** The two maps are inverse to each other. */
  lemma ClipUVRoundTrip(c: real, u: real)
    ensures UVToClip(ClipToUV(c)) == c
    ensures ClipToUV(UVToClip(u)) == u
  {
  }

  /** -1 goes to 0, 1 to 1, the centre to 0.5, and exactly [-1, 1] goes into [0, 1]. */
  lemma ClipToUVRange(c: real)
    ensures ClipToUV(-1.0) == 0.0 && ClipToUV(1.0) == 1.0 && ClipToUV(0.0) == 0.5
    ensures -1.0 <= c <= 1.0 <==> 0.0 <= ClipToUV(c) <= 1.0
  {
  }

  lemma ClipToUVMonotone(a: real, b: real)
    ensures a < b <==> ClipToUV(a) < ClipToUV(b)
    ensures ClipToUV(b) - ClipToUV(a) == (b - a) / 2.0
  {
  }

  /** The vertex whose coordinates start at position 3v of a flat buffer. */
  function VertexAt(vertices: seq<real>, v: nat): Vec3
    requires 3 * v + 2 < |vertices|
  {
    Vec3(vertices[3 * v], vertices[3 * v + 1], vertices[3 * v + 2])
  }

  /**
   * The UV buffer for a position buffer: for each vertex in order, the
   * clip-to-UV map of its projected x, then of its projected y.
   */
  function UVs(vertices: seq<real>, project: Vec3 -> Vec3): seq<real>
  {
    seq(2 * (|vertices| / 3), k requires 0 <= k < 2 * (|vertices| / 3) =>
      var p := project(VertexAt(vertices, k / 2));
      if k % 2 == 0 then ClipToUV(p.x) else ClipToUV(p.y))
  }

  /**
   * The stride-3 loop: one (u, v) pair per vertex, in vertex order, each
   * component the clip-to-UV map of the projected coordinate.
   */
  method ComputeUVs(vertices: seq<real>, project: Vec3 -> Vec3) returns (uvs: seq<real>)
    requires |vertices| % 3 == 0
    ensures uvs == UVs(vertices, project)
  {
    uvs := [];
    var i := 0;
    ghost var n := 0;
    while i < |vertices|
      invariant i == 3 * n && i <= |vertices|
      invariant |uvs| == 2 * n
      invariant forall k :: 0 <= k < |uvs| ==> uvs[k] == UVs(vertices, project)[k]
    {
      var tempVector := Vec3(vertices[i], vertices[i + 1], vertices[i + 2]);
      assert tempVector == VertexAt(vertices, n);
      tempVector := project(tempVector);
      var uvX := (tempVector.x + 1.0) / 2.0;
      var uvY := (tempVector.y + 1.0) / 2.0;
      assert uvX == UVs(vertices, project)[2 * n] by {
        assert (2 * n) / 2 == n && (2 * n) % 2 == 0;
      }
      assert uvY == UVs(vertices, project)[2 * n + 1] by {
        assert (2 * n + 1) / 2 == n && (2 * n + 1) % 2 == 1;
      }
      uvs := uvs + [uvX, uvY];
      i := i + 3;
      n := n + 1;
    }
  }

  /**
   * Vertex v's pair sits at positions 2v and 2v + 1, and mapping it back
   * gives the projected x and y of that vertex.
   */
  lemma UVsLayout(vertices: seq<real>, project: Vec3 -> Vec3, v: nat)
    requires v < |vertices| / 3
    ensures |UVs(vertices, project)| == 2 * (|vertices| / 3)
    ensures UVs(vertices, project)[2 * v] == ClipToUV(project(VertexAt(vertices, v)).x)
    ensures UVs(vertices, project)[2 * v + 1] == ClipToUV(project(VertexAt(vertices, v)).y)
    ensures UVToClip(UVs(vertices, project)[2 * v]) == project(VertexAt(vertices, v)).x
    ensures UVToClip(UVs(vertices, project)[2 * v + 1]) == project(VertexAt(vertices, v)).y
  {
    assert (2 * v) / 2 == v && (2 * v) % 2 == 0;
    assert (2 * v + 1) / 2 == v && (2 * v + 1) % 2 == 1;
  }

  /** Vertices that project inside the clip square get texture coordinates inside the unit square. */
  lemma UVsInUnitSquare(vertices: seq<real>, project: Vec3 -> Vec3, k: nat)
    requires k < |UVs(vertices, project)|
    requires forall v :: 0 <= v < |vertices| / 3 ==>
      -1.0 <= project(VertexAt(vertices, v)).x <= 1.0 && -1.0 <= project(VertexAt(vertices, v)).y <= 1.0
    ensures 0.0 <= UVs(vertices, project)[k] <= 1.0
  {
    var v := k / 2;
    assert 3 * v + 2 < |vertices|;
    assert -1.0 <= project(VertexAt(vertices, v)).x <= 1.0 && -1.0 <= project(VertexAt(vertices, v)).y <= 1.0;
  }

  /** The room's 30 vertices give 60 texture coordinates. */
  lemma RoomUVCount(project: Vec3 -> Vec3)
    ensures |UVs(Vertices(), project)| == 60
  {
    VertexBuffer(0);
  }

  // ----- Geometry and material groups -----

  /** A draw group: `count` vertices from `start`, drawn with material `materialIndex`. */
  datatype Group = Group(start: nat, count: nat, materialIndex: nat)

  function InGroup(v: nat, g: Group): bool
  {
    g.start <= v < g.start + g.count
  }

  /**
   * The groups the room adds, in order: consecutive blocks that start at 0,
   * end at 30, and use the materials 0 to 4 in order.
   */
  function RoomGroups(): (gs: seq<Group>)
    ensures |gs| == |Faces|
    ensures gs[0].start == 0 && gs[4].start + gs[4].count == 30
    ensures forall i :: 0 <= i < 4 ==> gs[i].start + gs[i].count == gs[i + 1].start
    ensures forall i :: 0 <= i < 5 ==> gs[i].materialIndex == i
  {
    [Group(0, 6, 0), Group(6, 6, 1), Group(12, 6, 2), Group(18, 6, 3), Group(24, 6, 4)]
  }

  /**
   * The five groups are consecutive blocks of 6 with materials 0 to 4 in
   * order; every one of the 30 vertices lies in exactly one of them, the
   * one of its face.
   */
  lemma GroupsPartition(v: nat, i: nat)
    requires v < 30 && i < |RoomGroups()|
    ensures |RoomGroups()| == |Faces| == 5
    ensures RoomGroups()[i] == Group(6 * i, 6, i)
    ensures RoomGroups()[0].start == 0 && RoomGroups()[4].start + RoomGroups()[4].count == 30
    ensures InGroup(v, RoomGroups()[i]) <==> i == v / 6
  {
  }

  /** Every vertex is drawn with the material of the face its corner lies on. */
  lemma MaterialMatchesFace(v: nat)
    requires v < 30
    ensures |VertexCorners()| == 30
    ensures InGroup(v, RoomGroups()[v / 6])
    ensures OnFace(VertexCorners()[v], Faces[RoomGroups()[v / 6].materialIndex])
  {
    VertexCornerAt(v);
    FacesUseOwnCorners(Faces[v / 6]);
    GroupsPartition(v, v / 6);
  }

  /** The library's buffer geometry: a position buffer, a UV buffer and draw groups. */
  class BufferGeometry {
    var position: seq<real>
    var uv: seq<real>
    var groups: seq<Group>

    constructor ()
      ensures position == [] && uv == [] && groups == []
    {
      position, uv, groups := [], [], [];
    }

    method AddGroup(start: nat, count: nat, materialIndex: nat)
      modifies this`groups
      ensures groups == old(groups) + [Group(start, count, materialIndex)]
    {
      groups := groups + [Group(start, count, materialIndex)];
    }
  }

  /** Builds the room's geometry: positions, projected UVs and the five groups. */
  method BuildRoom(project: Vec3 -> Vec3) returns (geometry: BufferGeometry)
    ensures fresh(geometry)
    ensures geometry.position == Vertices()
    ensures geometry.uv == UVs(Vertices(), project)
    ensures geometry.groups == RoomGroups()
  {
    geometry := new BufferGeometry();
    var vertices := Flatten(VertexCorners());
    geometry.position := vertices;
    VertexBuffer(0);
    var uvs := ComputeUVs(vertices, project);
    geometry.uv := uvs;
    geometry.AddGroup(0, 6, 0);
    geometry.AddGroup(6, 6, 1);
    geometry.AddGroup(12, 6, 2);
    geometry.AddGroup(18, 6, 3);
    geometry.AddGroup(24, 6, 4);
  }
}
