/**
 * The ground plane: a 200 × 200 square at height 0 made of two triangles,
 * textured with grass and drawn with fixed material values.
 */
module Floor {
  import opened Space
  import opened Wrappers
  import opened Assets

  const FloorTextureFile: string := "assets/grass.jpg"

  /** The `floorVertices` arrays. */
  const FloorArrays: VertexArrays := VertexArrays(
    [-100.0, 0.0, -100.0,
      100.0, 0.0, -100.0,
     -100.0, 0.0,  100.0,
      100.0, 0.0,  100.0],
    [0.0, 1.0, 0.0,
     0.0, 1.0, 0.0,
     0.0, 1.0, 0.0,
     0.0, 1.0, 0.0],
    [0.0, 0.0,
     1.0, 0.0,
     0.0, 1.0,
     1.0, 1.0],
    Absent,
    Some([0, 1, 2,
          2, 1, 3]))

  /** The material uniforms set for the floor draw. */
  const FloorMaterial: Material := Material(
    Vec3(1.0, 1.0, 1.0), Vec3(0.1, 0.1, 0.1), Vec3(0.0, 0.0, 0.0), Vec3(0.3, 0.3, 0.3),
    30.0, 1.0)

  /** Vertex `v` of a flat array of 3-component values. */
  function Triple(s: seq<real>, v: nat): Vec3
    requires 3 * v + 2 < |s|
  {
    Vec3(s[3 * v], s[3 * v + 1], s[3 * v + 2])
  }

  predicate IsCorner(c: real) {
    c == -100.0 || c == 100.0
  }

  /**
   * Twice the signed area of triangle (a, b, c) seen from above, in the
   * x-z plane; its sign gives the winding.
   */
  function Winding(a: Vec3, b: Vec3, c: Vec3): real {
    (b.z - a.z) * (c.x - a.x) - (b.x - a.x) * (c.z - a.z)
  }

  /** The four floor vertices, in array order. */
  lemma FloorCorners()
    ensures |FloorArrays.position| == 12
    ensures Triple(FloorArrays.position, 0) == Vec3(-100.0, 0.0, -100.0)
    ensures Triple(FloorArrays.position, 1) == Vec3(100.0, 0.0, -100.0)
    ensures Triple(FloorArrays.position, 2) == Vec3(-100.0, 0.0, 100.0)
    ensures Triple(FloorArrays.position, 3) == Vec3(100.0, 0.0, 100.0)
  {
  }

  /**
   * Four vertices, all on the ground at the corners of the square, each
   * with the upward normal and the texture coordinate that maps the square
   * linearly onto the unit square.
   */
  lemma FloorMeshShape()
    ensures |FloorArrays.position| == 12 && |FloorArrays.normal| == 12 && |FloorArrays.texcoord| == 8
    ensures forall v :: 0 <= v < 4 ==>
              var p := Triple(FloorArrays.position, v);
              p.y == 0.0 && IsCorner(p.x) && IsCorner(p.z)
    ensures forall v :: 0 <= v < 4 ==> Triple(FloorArrays.normal, v) == Vec3(0.0, 1.0, 0.0)
    ensures forall v :: 0 <= v < 4 ==>
              FloorArrays.texcoord[2 * v] == (Triple(FloorArrays.position, v).x + 100.0) / 200.0 &&
              FloorArrays.texcoord[2 * v + 1] == (Triple(FloorArrays.position, v).z + 100.0) / 200.0
  {
    var p, n, t := FloorArrays.position, FloorArrays.normal, FloorArrays.texcoord;
    forall v | 0 <= v < 4
      ensures Triple(p, v).y == 0.0 && IsCorner(Triple(p, v).x) && IsCorner(Triple(p, v).z)
      ensures Triple(n, v) == Vec3(0.0, 1.0, 0.0)
      ensures t[2 * v] == (Triple(p, v).x + 100.0) / 200.0
      ensures t[2 * v + 1] == (Triple(p, v).z + 100.0) / 200.0
    {
      FloorVertex(v);
    }
  }

  /** No two floor vertices coincide. */
  lemma FloorVerticesDistinct()
    ensures |FloorArrays.position| == 12
    ensures forall v, w :: 0 <= v < w < 4 ==> Triple(FloorArrays.position, v) != Triple(FloorArrays.position, w)
  {
    FloorCorners();
  }

  /** Vertex `v` of the floor, its normal and its texture coordinate. */
  lemma FloorVertex(v: nat)
    requires v < 4
    ensures 3 * v + 2 < |FloorArrays.position| && 3 * v + 2 < |FloorArrays.normal| && 2 * v + 1 < |FloorArrays.texcoord|
    ensures var p := Triple(FloorArrays.position, v);
            p.y == 0.0 && IsCorner(p.x) && IsCorner(p.z)
    ensures Triple(FloorArrays.normal, v) == Vec3(0.0, 1.0, 0.0)
    ensures FloorArrays.texcoord[2 * v] == (Triple(FloorArrays.position, v).x + 100.0) / 200.0
    ensures FloorArrays.texcoord[2 * v + 1] == (Triple(FloorArrays.position, v).z + 100.0) / 200.0
  {
    if v == 0 {
    } else if v == 1 {
    } else if v == 2 {
    } else {
      assert v == 3;
    }
  }

  /** Six indices, all naming one of the four vertices, forming two triangles of the same non-zero winding. */
  lemma FloorTriangles()
    ensures FloorArrays.indices.Some?
    ensures var ix := FloorArrays.indices.value;
            |ix| == 6 && (forall k :: 0 <= k < 6 ==> ix[k] < 4)
    ensures var ix, p := FloorArrays.indices.value, FloorArrays.position;
            |p| == 12 &&
            var first := Winding(Triple(p, ix[0]), Triple(p, ix[1]), Triple(p, ix[2]));
            var second := Winding(Triple(p, ix[3]), Triple(p, ix[4]), Triple(p, ix[5]));
            first != 0.0 && first == second
  {
    FloorCorners();
  }
}
