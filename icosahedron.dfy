/** The `icosahedron` generator: the twelve corners of a regular
    icosahedron pushed out to `radius`, its twenty triangles, and then
    `subdivisions` rounds that split every triangle into four. */
module Icosahedra {
  import opened Meshes
  import opened MeshParams

  /** `PHI`, the golden ratio. */
  function Phi(math: MathLib): real {
    (1.0 + math.sqrt(5.0)) / 2.0
  }

  /** `glm::normalize(p) * radius`: `p` pushed onto the sphere. */
  function OnSphere(p: Vec3, radius: real, math: MathLib): Vec3 {
    Times(math.normalize(p), radius)
  }

  /** The twelve corners, three golden rectangles: the first six ... */
  function BaseVerticesFirst(radius: real, math: MathLib): (vs: seq<Vec3>)
    ensures |vs| == 6
  {
    var phi := Phi(math);
    [OnSphere(Vec3(-1.0, phi, 0.0), radius, math), OnSphere(Vec3(1.0, phi, 0.0), radius, math),
     OnSphere(Vec3(-1.0, -phi, 0.0), radius, math), OnSphere(Vec3(1.0, -phi, 0.0), radius, math),
     OnSphere(Vec3(0.0, -1.0, phi), radius, math), OnSphere(Vec3(0.0, 1.0, phi), radius, math)]
  }

  /** ... and the last six. */
  function BaseVerticesLast(radius: real, math: MathLib): (vs: seq<Vec3>)
    ensures |vs| == 6
  {
    var phi := Phi(math);
    [OnSphere(Vec3(0.0, -1.0, -phi), radius, math), OnSphere(Vec3(0.0, 1.0, -phi), radius, math),
     OnSphere(Vec3(phi, 0.0, -1.0), radius, math), OnSphere(Vec3(phi, 0.0, 1.0), radius, math),
     OnSphere(Vec3(-phi, 0.0, -1.0), radius, math), OnSphere(Vec3(-phi, 0.0, 1.0), radius, math)]
  }

  function BaseVertices(radius: real, math: MathLib): (vs: seq<Vec3>)
    ensures |vs| == 12
  {
    BaseVerticesFirst(radius, math) + BaseVerticesLast(radius, math)
  }

  function BaseFaces(): (fs: seq<Tri>)
    ensures |fs| == 20
  {
    [Tri(0, 11, 5), Tri(0, 5, 1), Tri(0, 1, 7), Tri(0, 7, 10), Tri(0, 10, 11),
     Tri(1, 5, 9), Tri(5, 11, 4), Tri(11, 10, 2), Tri(10, 7, 6), Tri(7, 1, 8),
     Tri(3, 9, 4), Tri(3, 4, 2), Tri(3, 2, 6), Tri(3, 6, 8), Tri(3, 8, 9),
     Tri(4, 9, 5), Tri(2, 4, 11), Tri(6, 2, 10), Tri(8, 6, 7), Tri(9, 8, 1)]
  }

  /** A triangle over three different vertices. */
  predicate Proper(t: Tri) {
    t.a != t.b && t.b != t.c && t.a != t.c
  }

  predicate AllProper(fs: seq<Tri>) {
    forall j :: 0 <= j < |fs| ==> Proper(fs[j])
  }

  /** The twenty triangles are proper and name only the twelve corners. */
  lemma BaseFacesShape()
    ensures AllProper(BaseFaces()) && FacesBelow(BaseFaces(), 12)
  {
  }

  /** `makeMidpoint`'s vertex: the point half-way between `p` and `q`,
      pushed onto the sphere. */
  function Midpoint(p: Vec3, q: Vec3, radius: real, math: MathLib): Vec3 {
    var mid := Plus(p, q);
    OnSphere(Vec3(mid.x / 2.0, mid.y / 2.0, mid.z / 2.0), radius, math)
  }

  /** The four triangles that replace `f` in a round when its three new
      vertices start at `a`: `a` lies between the first two corners of `f`,
      `a + 1` between the last two, `a + 2` between the last and the first.
      There is one child at each corner of `f` and a middle one over the
      three new vertices. */
  function Children(f: Tri, a: nat): seq<Tri> {
    [Tri(f.a, a, a + 2), Tri(f.b, a + 1, a), Tri(f.c, a + 2, a + 1), Tri(a, a + 1, a + 2)]
  }

  /** The vertices after the three `makeMidpoint` calls for `f`; each call
      reads the vertices as they are after the previous one. */
  function SplitVertices(vs: seq<Vec3>, f: Tri, radius: real, math: MathLib): (r: seq<Vec3>)
    requires TriBelow(f, |vs|)
    ensures |r| == |vs| + 3
  {
    var vs1 := vs + [Midpoint(vs[f.a], vs[f.b], radius, math)];
    var vs2 := vs1 + [Midpoint(vs1[f.b], vs1[f.c], radius, math)];
    vs2 + [Midpoint(vs2[f.c], vs2[f.a], radius, math)]
  }

  /** The vertices of a round after its first `k` faces. */
  function RoundVertices(vs: seq<Vec3>, fs: seq<Tri>, k: nat, radius: real, math: MathLib): (r: seq<Vec3>)
    requires FacesBelow(fs, |vs|) && k <= |fs|
    ensures |r| == |vs| + 3 * k
  {
    if k == 0 then vs
    else
      assert TriBelow(fs[k - 1], |vs|);
      SplitVertices(RoundVertices(vs, fs, k - 1, radius, math), fs[k - 1], radius, math)
  }

  /** The new face list `faces1` of a round after its first `k` faces, when
      the round started with `n` vertices. */
  function RoundFaces(fs: seq<Tri>, n: nat, k: nat): (r: seq<Tri>)
    requires k <= |fs|
    ensures |r| == 4 * k
  {
    if k == 0 then []
    else RoundFaces(fs, n, k - 1) + Children(fs[k - 1], n + 3 * (k - 1))
  }

  function Pow4(n: nat): (p: nat)
    ensures p >= 1
  {
    if n == 0 then 1 else 4 * Pow4(n - 1)
  }

  /** The number of vertices after `n` rounds. */
  function StageSize(n: nat): nat {
    12 + 20 * (Pow4(n) - 1)
  }

  /** The faces after `n` rounds: `20 4^n` of them, naming only the
      vertices made by then. Each round adds three vertices per face, so no
      vertex is shared between the faces of a round. */
  function StageFaces(n: nat): (fs: seq<Tri>)
    ensures |fs| == 20 * Pow4(n) && FacesBelow(fs, StageSize(n))
  {
    if n == 0 then
      BaseFacesShape();
      BaseFaces()
    else
      var prev := StageFaces(n - 1);
      RoundFacesBelow(prev, StageSize(n - 1), |prev|);
      RoundFaces(prev, StageSize(n - 1), |prev|)
  }

  /** The vertices after `n` rounds. */
  function StageVertices(n: nat, radius: real, math: MathLib): (vs: seq<Vec3>)
    ensures |vs| == StageSize(n)
  {
    if n == 0 then BaseVertices(radius, math)
    else
      var prev := StageVertices(n - 1, radius, math);
      RoundVertices(prev, StageFaces(n - 1), |StageFaces(n - 1)|, radius, math)
  }

  lemma RoundVerticesStep(vs: seq<Vec3>, fs: seq<Tri>, k: nat, radius: real, math: MathLib)
    requires FacesBelow(fs, |vs|) && k < |fs|
    ensures TriBelow(fs[k], |RoundVertices(vs, fs, k, radius, math)|)
    ensures RoundVertices(vs, fs, k + 1, radius, math) ==
              SplitVertices(RoundVertices(vs, fs, k, radius, math), fs[k], radius, math)
  {
    assert TriBelow(fs[k], |vs|);
  }

  lemma RoundFacesStep(fs: seq<Tri>, n: nat, k: nat)
    requires k < |fs|
    ensures RoundFaces(fs, n, k + 1) == RoundFaces(fs, n, k) + Children(fs[k], n + 3 * k)
  {
  }

  /** A round makes four triangles of each face; each names only the
      vertices made so far, and is proper when the faces it comes from are. */
  lemma {:induction false} RoundFacesBelow(fs: seq<Tri>, n: nat, k: nat)
    requires FacesBelow(fs, n) && k <= |fs|
    ensures FacesBelow(RoundFaces(fs, n, k), n + 3 * k)
    ensures AllProper(fs) ==> AllProper(RoundFaces(fs, n, k))
  {
    if k > 0 {
      RoundFacesBelow(fs, n, k - 1);
      var prev, f, a := RoundFaces(fs, n, k - 1), fs[k - 1], n + 3 * (k - 1);
      assert TriBelow(f, n);
      FacesBelowMore(prev, a, a + 3);
      FacesBelowAppend(prev, Children(f, a), a + 3);
      if AllProper(fs) {
        assert Proper(f);
        ProperAppend(prev, Children(f, a));
      }
    }
  }

  lemma ProperAppend(fs: seq<Tri>, gs: seq<Tri>)
    requires AllProper(fs) && AllProper(gs)
    ensures AllProper(fs + gs)
  {
    forall j | 0 <= j < |fs + gs| ensures Proper((fs + gs)[j]) {
      if j < |fs| { assert (fs + gs)[j] == fs[j]; } else { assert (fs + gs)[j] == gs[j - |fs|]; }
    }
  }

  /** Child `i < 3` of face `j` keeps corner `i` of face `j` as its first
      corner, and the middle child is over three fresh vertices. */
  lemma {:induction false} RoundFacesKeepCorners(fs: seq<Tri>, n: nat, k: nat)
    requires k <= |fs|
    ensures forall j :: 0 <= j < k ==>
              var r := RoundFaces(fs, n, k);
              r[4 * j].a == fs[j].a && r[4 * j + 1].a == fs[j].b && r[4 * j + 2].a == fs[j].c &&
              r[4 * j + 3] == Tri(n + 3 * j, n + 3 * j + 1, n + 3 * j + 2)
  {
    if k > 0 {
      RoundFacesKeepCorners(fs, n, k - 1);
      var prev, r := RoundFaces(fs, n, k - 1), RoundFaces(fs, n, k);
      forall j | 0 <= j < k
        ensures r[4 * j].a == fs[j].a && r[4 * j + 1].a == fs[j].b && r[4 * j + 2].a == fs[j].c &&
                r[4 * j + 3] == Tri(n + 3 * j, n + 3 * j + 1, n + 3 * j + 2)
      {
        if j < k - 1 {
          assert r[4 * j] == prev[4 * j] && r[4 * j + 1] == prev[4 * j + 1];
          assert r[4 * j + 2] == prev[4 * j + 2] && r[4 * j + 3] == prev[4 * j + 3];
        }
      }
    }
  }

  /** A round only appends vertices: those already there stay in place. */
  lemma {:induction false} RoundKeepsVertices(vs: seq<Vec3>, fs: seq<Tri>, k: nat, radius: real, math: MathLib)
    requires FacesBelow(fs, |vs|) && k <= |fs|
    ensures RoundVertices(vs, fs, k, radius, math)[..|vs|] == vs
  {
    if k > 0 {
      RoundKeepsVertices(vs, fs, k - 1, radius, math);
      var prev := RoundVertices(vs, fs, k - 1, radius, math);
      assert TriBelow(fs[k - 1], |vs|);
      assert RoundVertices(vs, fs, k, radius, math)[..|prev|] == prev;
      assert RoundVertices(vs, fs, k, radius, math)[..|vs|] == prev[..|vs|];
    }
  }

  /** Stage `n + 1` is one round over stage `n`. */
  lemma StageStep(n: nat, radius: real, math: MathLib)
    ensures FacesBelow(StageFaces(n), |StageVertices(n, radius, math)|)
    ensures StageVertices(n + 1, radius, math) ==
              RoundVertices(StageVertices(n, radius, math), StageFaces(n), |StageFaces(n)|, radius, math)
    ensures StageFaces(n + 1) == RoundFaces(StageFaces(n), |StageVertices(n, radius, math)|, |StageFaces(n)|)
  {
  }

  /** Every triangle of every stage has three different corners. */
  lemma {:induction false} StageProper(n: nat)
    ensures AllProper(StageFaces(n))
  {
    if n == 0 {
      BaseFacesShape();
    } else {
      StageProper(n - 1);
      RoundFacesBelow(StageFaces(n - 1), StageSize(n - 1), |StageFaces(n - 1)|);
    }
  }

  /** The icosahedron after `n` rounds: well-formed, with `20 4^n` proper
      triangles over `12 + 20 (4^n - 1)` vertices. */
  function IcosahedronMesh(n: nat, radius: real, math: MathLib): (m: TriMesh)
    ensures |m.faces| == 20 * Pow4(n) && |m.vertices| == 12 + 20 * (Pow4(n) - 1)
    ensures WellFormed(Flat(m)) && AllProper(m.faces)
  {
    var m := TriMesh(StageVertices(n, radius, math), StageFaces(n));
    StageProper(n);
    FlattenWellFormed(m.vertices, m.faces);
    m
  }

  /** `makeMidpoint`: reads two vertices already added and adds the vertex
      between them. */
  method MakeMidpoint(mesh: Mesh, p1: nat, p2: nat, radius: real, math: MathLib) returns (index: nat)
    requires p1 < |mesh.vertices| && p2 < |mesh.vertices|
    modifies mesh
    ensures index == |old(mesh.vertices)|
    ensures mesh.vertices == old(mesh.vertices) + [Midpoint(old(mesh.vertices)[p1], old(mesh.vertices)[p2], radius, math)]
    ensures mesh.indices == old(mesh.indices)
  {
    var v1 := mesh.At(p1);
    var v2 := mesh.At(p2);
    var mid := Plus(v1, v2);
    index := mesh.AddVertex(OnSphere(Vec3(mid.x / 2.0, mid.y / 2.0, mid.z / 2.0), radius, math));
  }

  /** The body of the round loop for face `j` of `faces`: the three
      midpoints of the face, and its four children pushed onto `faces1`. */
  method SplitFace(mesh: Mesh, ghost start: seq<Vec3>, faces: seq<Tri>, j: nat, faces1: seq<Tri>,
                   radius: real, math: MathLib) returns (faces2: seq<Tri>)
    requires FacesBelow(faces, |start|) && j < |faces|
    requires mesh.vertices == RoundVertices(start, faces, j, radius, math)
    requires faces1 == RoundFaces(faces, |start|, j)
    modifies mesh
    ensures mesh.vertices == RoundVertices(start, faces, j + 1, radius, math)
    ensures faces2 == RoundFaces(faces, |start|, j + 1)
    ensures mesh.indices == old(mesh.indices)
  {
    RoundVerticesStep(start, faces, j, radius, math);
    RoundFacesStep(faces, |start|, j);
    var face := faces[j];
    var a := MakeMidpoint(mesh, face.a, face.b, radius, math);
    var b := MakeMidpoint(mesh, face.b, face.c, radius, math);
    var c := MakeMidpoint(mesh, face.c, face.a, radius, math);
    faces2 := faces1 + [Tri(face.a, a, c)];
    faces2 := faces2 + [Tri(face.b, b, a)];
    faces2 := faces2 + [Tri(face.c, c, b)];
    faces2 := faces2 + [Tri(a, b, c)];
  }

  /** The first twelve `add_vertex` calls. */
  method AddBaseVertices(mesh: Mesh, radius: real, math: MathLib)
    modifies mesh
    ensures mesh.vertices == old(mesh.vertices) + BaseVertices(radius, math)
    ensures mesh.indices == old(mesh.indices)
  {
    AddBaseVerticesFirst(mesh, radius, math);
    AddBaseVerticesLast(mesh, radius, math);
  }

  method AddBaseVerticesFirst(mesh: Mesh, radius: real, math: MathLib)
    modifies mesh
    ensures mesh.vertices == old(mesh.vertices) + BaseVerticesFirst(radius, math)
    ensures mesh.indices == old(mesh.indices)
  {
    var phi := Phi(math);
    var i0 := mesh.AddVertex(OnSphere(Vec3(-1.0, phi, 0.0), radius, math));
    var i1 := mesh.AddVertex(OnSphere(Vec3(1.0, phi, 0.0), radius, math));
    var i2 := mesh.AddVertex(OnSphere(Vec3(-1.0, -phi, 0.0), radius, math));
    var i3 := mesh.AddVertex(OnSphere(Vec3(1.0, -phi, 0.0), radius, math));
    var i4 := mesh.AddVertex(OnSphere(Vec3(0.0, -1.0, phi), radius, math));
    var i5 := mesh.AddVertex(OnSphere(Vec3(0.0, 1.0, phi), radius, math));
  }

  method AddBaseVerticesLast(mesh: Mesh, radius: real, math: MathLib)
    modifies mesh
    ensures mesh.vertices == old(mesh.vertices) + BaseVerticesLast(radius, math)
    ensures mesh.indices == old(mesh.indices)
  {
    var phi := Phi(math);
    var i6 := mesh.AddVertex(OnSphere(Vec3(0.0, -1.0, -phi), radius, math));
    var i7 := mesh.AddVertex(OnSphere(Vec3(0.0, 1.0, -phi), radius, math));
    var i8 := mesh.AddVertex(OnSphere(Vec3(phi, 0.0, -1.0), radius, math));
    var i9 := mesh.AddVertex(OnSphere(Vec3(phi, 0.0, 1.0), radius, math));
    var i10 := mesh.AddVertex(OnSphere(Vec3(-phi, 0.0, -1.0), radius, math));
    var i11 := mesh.AddVertex(OnSphere(Vec3(-phi, 0.0, 1.0), radius, math));
  }

  /** One round of the subdivision loop: every face of `faces`, in order,
      is split, and the children collected in `faces1`. */
  method Subdivide(mesh: Mesh, faces: seq<Tri>, radius: real, math: MathLib) returns (faces1: seq<Tri>)
    requires FacesBelow(faces, |mesh.vertices|)
    modifies mesh
    ensures mesh.vertices == RoundVertices(old(mesh.vertices), faces, |faces|, radius, math)
    ensures faces1 == RoundFaces(faces, |old(mesh.vertices)|, |faces|)
    ensures mesh.indices == old(mesh.indices)
  {
    ghost var start := mesh.vertices;
    faces1 := [];
    var j := 0;
    while j < |faces|
      invariant j <= |faces|
      invariant mesh.vertices == RoundVertices(start, faces, j, radius, math)
      invariant faces1 == RoundFaces(faces, |start|, j)
      invariant mesh.indices == old(mesh.indices)
    {
      faces1 := SplitFace(mesh, start, faces, j, faces1, radius, math);
      j := j + 1;
    }
  }

  method Icosahedron(params: MeshParameters, math: MathLib) returns (mesh: Mesh)
    requires HasFloat(params, Radius) && HasInt(params, Subdivisions)
    requires IntAt(params, Subdivisions) >= 0
    ensures fresh(mesh)
    ensures mesh.Data() == Flat(IcosahedronMesh(IntAt(params, Subdivisions), FloatAt(params, Radius), math))
  {
    var radius := FloatAt(params, Radius);
    var subdivisions := IntAt(params, Subdivisions);
    mesh := new Mesh();
    AddBaseVertices(mesh, radius, math);
    var faces := BaseFaces();

    var i := 0;
    while i < subdivisions
      invariant i <= subdivisions
      invariant mesh.vertices == StageVertices(i, radius, math) && faces == StageFaces(i)
      invariant mesh.indices == []
    {
      StageStep(i, radius, math);
      faces := Subdivide(mesh, faces, radius, math);
      i := i + 1;
    }

    AddFaceList(mesh, faces);
  }

  /** The closing loop: one `add_face` per face of the last round, in order. */
  method AddFaceList(mesh: Mesh, faces: seq<Tri>)
    modifies mesh
    ensures mesh.indices == old(mesh.indices) + Flatten(faces)
    ensures mesh.vertices == old(mesh.vertices)
  {
    var k := 0;
    while k < |faces|
      invariant k <= |faces|
      invariant mesh.indices == old(mesh.indices) + Flatten(faces[..k])
      invariant mesh.vertices == old(mesh.vertices)
    {
      FlattenTake(faces, k);
      mesh.AddFace(faces[k].a, faces[k].b, faces[k].c);
      k := k + 1;
    }
    assert faces[..k] == faces;
  }
}
