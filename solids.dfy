/** The fixed-size generators: `empty`, `quad`, `box` and `tetrahedron`.
    Each adds a fixed list of vertices whose coordinates are plain
    arithmetic on the parameters, then a fixed table of triangles. */
module Solids {
  import opened Meshes
  import opened MeshParams

  /** `v` has one of the two values `h` or `-h`. */
  predicate PlusMinus(v: real, h: real) {
    v == h || v == -h
  }

  predicate IsQuadCorner(v: Vec3, hw: real, hl: real) {
    PlusMinus(v.x, hw) && PlusMinus(v.y, hl) && v.z == 0.0
  }

  // ---------------------------------------------------------------- empty

  method Empty(params: MeshParameters) returns (mesh: Mesh)
    ensures fresh(mesh)
    ensures mesh.vertices == [] && mesh.indices == []
  {
    mesh := new Mesh();
  }

  // ----------------------------------------------------------------- quad

  function QuadFaces(): seq<Tri> {
    [Tri(1, 2, 0), Tri(2, 3, 0)]
  }

  /** The quad: the four corners of a `width` by `length` rectangle in the
      z = 0 plane, centred on the origin, split into two triangles that
      share the diagonal from corner 2 to corner 0. */
  function QuadMesh(length: real, width: real): (m: MeshData)
    ensures |m.vertices| == 4 && |m.indices| == 6 && WellFormed(m)
    ensures forall v :: v in m.vertices <==> IsQuadCorner(v, width / 2.0, length / 2.0)
    ensures m.indices[1] == m.indices[3] == 2 && m.indices[2] == m.indices[5] == 0
  {
    var hw, hl := width / 2.0, length / 2.0;
    var vs := [Vec3(hw, -hl, 0.0), Vec3(hw, hl, 0.0), Vec3(-hw, hl, 0.0), Vec3(-hw, -hl, 0.0)];
    assert forall v :: IsQuadCorner(v, hw, hl) ==> v in vs by {
      forall v | IsQuadCorner(v, hw, hl) ensures v in vs {
        assert v == vs[if v.x == hw then (if v.y == hl then 1 else 0) else (if v.y == hl then 2 else 3)];
      }
    }
    MeshData(vs, Flatten(QuadFaces()))
  }

  method Quad(params: MeshParameters) returns (mesh: Mesh)
    requires HasFloat(params, Length) && HasFloat(params, Width)
    ensures fresh(mesh)
    ensures mesh.Data() == QuadMesh(FloatAt(params, Length), FloatAt(params, Width))
  {
    var length := FloatAt(params, Length);
    var width := FloatAt(params, Width);
    mesh := new Mesh();
    var i0 := mesh.AddVertex(Vec3(width / 2.0, -length / 2.0, 0.0));
    var i1 := mesh.AddVertex(Vec3(width / 2.0, length / 2.0, 0.0));
    var i2 := mesh.AddVertex(Vec3(-width / 2.0, length / 2.0, 0.0));
    var i3 := mesh.AddVertex(Vec3(-width / 2.0, -length / 2.0, 0.0));
    mesh.AddFaces(QuadFaces());
  }

  // ------------------------------------------------------------------ box

  predicate IsBoxCorner(v: Vec3, hw: real, hl: real, hh: real) {
    PlusMinus(v.x, hw) && PlusMinus(v.y, hl) && PlusMinus(v.z, hh)
  }

  /** The three corners of `t` lie in one side plane of the box. */
  predicate OnOneSide(vs: seq<Vec3>, t: Tri)
    requires TriBelow(t, |vs|)
  {
    var p, q, r := vs[t.a], vs[t.b], vs[t.c];
    (p.x == q.x == r.x) || (p.y == q.y == r.y) || (p.z == q.z == r.z)
  }

  function BoxFaces(): seq<Tri> {
    [Tri(0, 2, 3), Tri(0, 1, 2), Tri(4, 1, 0), Tri(4, 5, 1),
     Tri(7, 5, 4), Tri(7, 6, 5), Tri(3, 6, 7), Tri(3, 2, 6),
     Tri(1, 6, 2), Tri(1, 5, 6), Tri(3, 7, 4), Tri(3, 4, 0)]
  }

  function BoxVertices(hw: real, hl: real, hh: real): seq<Vec3> {
    [Vec3(hw, -hl, -hh), Vec3(hw, -hl, hh), Vec3(-hw, -hl, hh), Vec3(-hw, -hl, -hh),
     Vec3(hw, hl, -hh), Vec3(hw, hl, hh), Vec3(-hw, hl, hh), Vec3(-hw, hl, -hh)]
  }

  /** The box: the eight corners of a `width` by `length` by `height` box
      centred on the origin (x from the width, y from the length, z from the
      height), covered by twelve triangles, each lying on one side. */
  function BoxMesh(length: real, width: real, height: real): (m: MeshData)
    ensures |m.vertices| == 8 && |m.indices| == 36 && WellFormed(m)
    ensures forall v :: v in m.vertices <==> IsBoxCorner(v, width / 2.0, length / 2.0, height / 2.0)
    ensures m.indices == Flatten(BoxFaces())
  {
    var hw, hl, hh := width / 2.0, length / 2.0, height / 2.0;
    var vs := BoxVertices(hw, hl, hh);
    assert forall v :: IsBoxCorner(v, hw, hl, hh) ==> v in vs by {
      forall v | IsBoxCorner(v, hw, hl, hh) ensures v in vs {
        var k := (if v.y == hl then 4 else 0) +
          (if v.x == hw then (if v.z == hh then 1 else 0) else (if v.z == hh then 2 else 3));
        assert v == vs[k];
      }
    }
    FlattenBelow(BoxFaces(), 8);
    MeshData(vs, Flatten(BoxFaces()))
  }

  /** Every triangle of the box lies in one of its six side planes. */
  lemma BoxFacesOnSides(length: real, width: real, height: real)
    ensures var vs := BoxMesh(length, width, height).vertices;
      forall j :: 0 <= j < |BoxFaces()| ==> TriBelow(BoxFaces()[j], |vs|) && OnOneSide(vs, BoxFaces()[j])
  {
  }

  method Box(params: MeshParameters) returns (mesh: Mesh)
    requires HasFloat(params, Length) && HasFloat(params, Width) && HasFloat(params, Height)
    ensures fresh(mesh)
    ensures mesh.Data() == BoxMesh(FloatAt(params, Length), FloatAt(params, Width), FloatAt(params, Height))
  {
    var length := FloatAt(params, Length);
    var width := FloatAt(params, Width);
    var height := FloatAt(params, Height);
    var hl := length / 2.0;
    var hw := width / 2.0;
    var hh := height / 2.0;
    mesh := new Mesh();
    var i0 := mesh.AddVertex(Vec3(hw, -hl, -hh));
    var i1 := mesh.AddVertex(Vec3(hw, -hl, hh));
    var i2 := mesh.AddVertex(Vec3(-hw, -hl, hh));
    var i3 := mesh.AddVertex(Vec3(-hw, -hl, -hh));
    var i4 := mesh.AddVertex(Vec3(hw, hl, -hh));
    var i5 := mesh.AddVertex(Vec3(hw, hl, hh));
    var i6 := mesh.AddVertex(Vec3(-hw, hl, hh));
    var i7 := mesh.AddVertex(Vec3(-hw, hl, -hh));
    mesh.AddFaces(BoxFaces());
  }

  // ---------------------------------------------------------- tetrahedron

  function TetrahedronFaces(): seq<Tri> {
    [Tri(0, 1, 2), Tri(0, 3, 1), Tri(0, 2, 3), Tri(2, 1, 3)]
  }

  /** The tetrahedron: four alternate corners of the cube of edge `length`
      centred on the origin, those with an even number of negative
      coordinates. Every triangle has three distinct corners, and each
      corner is left out of exactly one triangle. */
  function TetrahedronMesh(length: real): (m: MeshData)
    ensures |m.vertices| == 4 && |m.indices| == 12 && WellFormed(m)
    ensures forall k :: 0 <= k < |m.vertices| ==>
              var v := m.vertices[k];
              var h := length / 2.0;
              PlusMinus(v.x, h) && PlusMinus(v.y, h) && PlusMinus(v.z, h) && v.x * v.y * v.z == h * h * h
    ensures length != 0.0 ==> forall j, k :: 0 <= j < k < |m.vertices| ==> m.vertices[j] != m.vertices[k]
    ensures forall j :: 0 <= j < 4 ==>
              var t := TetrahedronFaces()[j];
              t.a != t.b && t.b != t.c && t.a != t.c && 3 - j !in {t.a, t.b, t.c}
    ensures m.indices == Flatten(TetrahedronFaces())
  {
    var h := length / 2.0;
    var vs := [Vec3(h, h, h), Vec3(h, -h, -h), Vec3(-h, h, -h), Vec3(-h, -h, h)];
    FlattenBelow(TetrahedronFaces(), 4);
    MeshData(vs, Flatten(TetrahedronFaces()))
  }

  method Tetrahedron(params: MeshParameters) returns (mesh: Mesh)
    requires HasFloat(params, Length)
    ensures fresh(mesh)
    ensures mesh.Data() == TetrahedronMesh(FloatAt(params, Length))
  {
    var length := FloatAt(params, Length);
    var hl := length / 2.0;
    mesh := new Mesh();
    var i0 := mesh.AddVertex(Vec3(hl, hl, hl));
    var i1 := mesh.AddVertex(Vec3(hl, -hl, -hl));
    var i2 := mesh.AddVertex(Vec3(-hl, hl, -hl));
    var i3 := mesh.AddVertex(Vec3(-hl, -hl, hl));
    mesh.AddFaces(TetrahedronFaces());
  }
}
