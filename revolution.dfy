/** The `cylinder` and `cone` generators: two centre vertices, then one
    iteration per angular sample that adds that sample's ring vertices and
    the triangles joining it to the next sample. The next sample's vertices
    are named before they exist; at the last sample `cylinder`'s and `cone`'s modular
    arithmetic sends "next" back to the first ring slot. */
module Revolution {
  import opened Meshes
  import opened MeshParams

  /** Sample `i` of `r` on the circle of `radius` at height `y`; the angle
      is `i / r` of a full turn. */
  function RingPoint(i: nat, r: nat, radius: real, y: real, math: MathLib): Vec3
    requires r > 0
  {
    var angle := Angle(i, r);
    Vec3(Mul(math.fastCos(angle), radius), y, Mul(math.fastSin(angle), radius))
  }

  /** The sample after `i`, going round the circle: after the last sample
      comes the first. */
  function NextSample(i: nat, r: nat): (s: nat)
    requires i < r
    ensures s < r
  {
    if i + 1 < r then i + 1 else 0
  }

  /** Going round the circle is counting modulo `r`. */
  lemma NextSampleMod(i: nat, r: nat)
    requires i < r
    ensures NextSample(i, r) == (i + 1) % r
  {
    if i + 1 < r {
      ModOfSmall(i + 1, r);
    } else {
      ModOfSelf(r);
    }
  }

  // ------------------------------------------------------------- cylinder

  /** The centre vertices and the first `n` samples' top and bottom ring
      vertices, in the order the loop adds them. */
  function CylinderVertices(r: nat, hh: real, radius: real, math: MathLib, n: nat): (vs: seq<Vec3>)
    requires r > 0
    ensures |vs| == 2 + 2 * n
  {
    if n == 0 then [Vec3(0.0, hh, 0.0), Vec3(0.0, -hh, 0.0)]
    else
      CylinderVertices(r, hh, radius, math, n - 1) +
      [RingPoint(n - 1, r, radius, hh, math), RingPoint(n - 1, r, radius, -hh, math)]
  }

  /** The four triangles of sample `i`: the top cap, two for the side, the
      bottom cap. Top ring vertex of sample `s` is `2 s + 2`; its bottom
      partner is the next index. */
  function CylinderSegment(i: nat, r: nat): seq<Tri>
    requires i < r
  {
    var top := 2 * i + 2;
    var topNext := 2 * NextSample(i, r) + 2;
    [Tri(0, topNext, top), Tri(top, topNext + 1, top + 1),
     Tri(top, topNext, topNext + 1), Tri(1, top + 1, topNext + 1)]
  }

  /** The triangles of the first `n` samples. Every corner names a vertex
      of the finished cylinder, although not yet one that exists. */
  function CylinderFaces(r: nat, n: nat): (fs: seq<Tri>)
    requires 0 < r && n <= r
    ensures |fs| == 4 * n
  {
    if n == 0 then [] else CylinderFaces(r, n - 1) + CylinderSegment(n - 1, r)
  }

  /** Every corner of the first `n` samples' triangles names a vertex of the
      finished cylinder, although not yet always one that exists. */
  lemma {:induction false} CylinderFacesBelow(r: nat, n: nat)
    requires 0 < r && n <= r
    ensures FacesBelow(CylinderFaces(r, n), 2 + 2 * r)
  {
    if n > 0 {
      CylinderFacesBelow(r, n - 1);
      var init, seg := CylinderFaces(r, n - 1), CylinderSegment(n - 1, r);
      assert forall j :: 0 <= j < |init + seg| ==>
        (init + seg)[j] == if j < |init| then init[j] else seg[j - |init|];
    }
  }

  /** The centres and the top ring are at height `hh`, the bottom ring at `-hh`. */
  lemma {:induction false} CylinderHeights(r: nat, hh: real, radius: real, math: MathLib, n: nat)
    requires r > 0
    ensures forall k :: 0 <= k < 2 + 2 * n ==>
              CylinderVertices(r, hh, radius, math, n)[k].y == if k % 2 == 0 then hh else -hh
  {
    if n > 0 {
      CylinderHeights(r, hh, radius, math, n - 1);
      var vs, init := CylinderVertices(r, hh, radius, math, n), CylinderVertices(r, hh, radius, math, n - 1);
      forall k | 0 <= k < |vs| ensures vs[k].y == if k % 2 == 0 then hh else -hh {
        if k < |init| {
          assert vs[k] == init[k];
        } else if k == 2 * n {
          assert vs[k] == RingPoint(n - 1, r, radius, hh, math) && k % 2 == 0;
        } else {
          assert vs[k] == RingPoint(n - 1, r, radius, -hh, math) && k % 2 == 1;
        }
      }
    }
  }

  /** A cylinder with `r` samples: 2 + 2 r vertices, 4 r triangles, every
      index names one of its vertices. The centres and the top ring are at
      height `hh`, the bottom ring at `-hh`. */
  function CylinderMesh(r: nat, hh: real, radius: real, math: MathLib): (m: MeshData)
    requires r >= 3
    ensures |m.vertices| == 2 + 2 * r && |m.indices| == 3 * (4 * r)
    ensures WellFormed(m)
    ensures forall k :: 2 <= k < |m.vertices| ==> m.vertices[k].y == if k % 2 == 0 then hh else -hh
    ensures m.vertices[0] == Vec3(0.0, hh, 0.0) && m.vertices[1] == Vec3(0.0, -hh, 0.0)
  {
    var vs := CylinderVertices(r, hh, radius, math, r);
    var fs := CylinderFaces(r, r);
    CylinderFacesBelow(r, r);
    CylinderHeights(r, hh, radius, math, r);
    FlattenWellFormed(vs, fs);
    CylinderCentres(r, hh, radius, math, r);
    MeshData(vs, Flatten(fs))
  }

  lemma {:induction false} CylinderCentres(r: nat, hh: real, radius: real, math: MathLib, n: nat)
    requires r > 0
    ensures CylinderVertices(r, hh, radius, math, n)[..2] == [Vec3(0.0, hh, 0.0), Vec3(0.0, -hh, 0.0)]
  {
    if n > 0 {
      CylinderCentres(r, hh, radius, math, n - 1);
      assert CylinderVertices(r, hh, radius, math, n)[..2] == CylinderVertices(r, hh, radius, math, n - 1)[..2];
    }
  }

  /** Sample `i`'s ring vertices are `2 i + 2` (top) and `2 i + 3` (bottom):
      the same point of the circle at the two heights. */
  lemma {:induction false} CylinderRingAt(r: nat, hh: real, radius: real, math: MathLib, n: nat, i: nat)
    requires r > 0 && i < n
    ensures CylinderVertices(r, hh, radius, math, n)[2 * i + 2] == RingPoint(i, r, radius, hh, math)
    ensures CylinderVertices(r, hh, radius, math, n)[2 * i + 3] == RingPoint(i, r, radius, -hh, math)
  {
    if i < n - 1 {
      CylinderRingAt(r, hh, radius, math, n - 1, i);
    }
  }

  /** Triangles `4 i` to `4 i + 3` of the cylinder are sample `i`'s. */
  lemma {:induction false} CylinderSegmentAt(r: nat, n: nat, i: nat)
    requires 0 < r && i < n <= r
    ensures CylinderFaces(r, n)[4 * i .. 4 * i + 4] == CylinderSegment(i, r)
  {
    var init, seg := CylinderFaces(r, n - 1), CylinderSegment(n - 1, r);
    assert CylinderFaces(r, n) == init + seg;
    if i < n - 1 {
      CylinderSegmentAt(r, n - 1, i);
      assert (init + seg)[4 * i .. 4 * i + 4] == init[4 * i .. 4 * i + 4];
    } else {
      assert (init + seg)[4 * i .. 4 * i + 4] == seg;
    }
  }

  /** At the seam the last sample's triangles close the ring on the first
      sample's vertices 2 (top) and 3 (bottom). */
  lemma CylinderSeam(r: nat)
    requires r >= 3
    ensures CylinderSegment(r - 1, r) ==
      [Tri(0, 2, 2 * r), Tri(2 * r, 3, 2 * r + 1), Tri(2 * r, 2, 3), Tri(1, 2 * r + 1, 3)]
  {
  }

  /** `cylinder`'s index arithmetic for iteration `i` picks the ring slots
      of sample `i` and of the sample after it. */
  lemma CylinderSlots(r: nat, i: nat)
    requires 0 < r && i < r
    ensures ((i + 1) * 2) % ((r * 2) + 2) == 2 * i + 2
    ensures Max(2, (2 * i + 2 + 2) % ((r * 2) + 2)) == 2 * NextSample(i, r) + 2
  {
    ModOfSmall(2 * i + 2, 2 * r + 2);
    if i < r - 1 {
      ModOfSmall(2 * i + 4, 2 * r + 2);
    } else {
      ModOfSelf(2 * r + 2);
    }
  }

  lemma ModOfSmall(x: int, m: int)
    requires 0 <= x < m
    ensures x % m == x
  {
  }

  lemma ModOfSelf(m: int)
    requires 0 < m
    ensures m % m == 0
  {
  }

  method Cylinder(params: MeshParameters, math: MathLib) returns (mesh: Mesh)
    requires HasInt(params, Resolution) && HasFloat(params, Height) && HasFloat(params, Radius)
    requires IntAt(params, Resolution) >= 3
    ensures fresh(mesh)
    ensures mesh.Data() ==
      CylinderMesh(IntAt(params, Resolution), FloatAt(params, Height) / 2.0, FloatAt(params, Radius), math)
  {
    var resolution := IntAt(params, Resolution);
    var height := FloatAt(params, Height);
    var radius := FloatAt(params, Radius);
    var hh := height / 2.0;
    mesh := new Mesh();
    var topCenter := mesh.AddVertex(Vec3(0.0, hh, 0.0));
    var bottomCenter := mesh.AddVertex(Vec3(0.0, -hh, 0.0));
    for i := 0 to resolution
      invariant mesh.vertices == CylinderVertices(resolution, hh, radius, math, i)
      invariant mesh.indices == Flatten(CylinderFaces(resolution, i))
    {
      var angle := Angle(i, resolution);
      var opp := Mul(math.fastSin(angle), radius);
      var adj := Mul(math.fastCos(angle), radius);
      var topRing := mesh.AddVertex(Vec3(adj, hh, opp));
      var bottomRing := mesh.AddVertex(Vec3(adj, -hh, opp));
      CylinderVerticesStep(resolution, hh, radius, math, i);

      var top := ((i + 1) * 2) % ((resolution * 2) + 2);
      var topNext := Max(2, (top + 2) % ((resolution * 2) + 2));
      var bottom := top + 1;
      var bottomNext := topNext + 1;
      CylinderSlots(resolution, i);

      mesh.AddFace(topCenter, topNext, top);
      mesh.AddFace(top, bottomNext, bottom);
      mesh.AddFace(top, topNext, bottomNext);
      mesh.AddFace(bottomCenter, bottom, bottomNext);
      CylinderIndicesStep(resolution, i);
    }
  }

  /** What one iteration of the cylinder loop appends to the vertex list is
      that sample's top and bottom ring vertices. */
  lemma CylinderVerticesStep(r: nat, hh: real, radius: real, math: MathLib, i: nat)
    requires 0 < r
    ensures CylinderVertices(r, hh, radius, math, i + 1) == CylinderVertices(r, hh, radius, math, i) +
              [RingPoint(i, r, radius, hh, math)] + [RingPoint(i, r, radius, -hh, math)]
  {
    var vs := CylinderVertices(r, hh, radius, math, i);
    var p, q := RingPoint(i, r, radius, hh, math), RingPoint(i, r, radius, -hh, math);
    assert CylinderVertices(r, hh, radius, math, i + 1) == vs + [p, q];
    assert vs + [p, q] == vs + [p] + [q];
  }

  /** What one iteration of the cylinder loop appends to the index list,
      written with `cylinder`'s own arithmetic, is that sample's triangles. */
  lemma CylinderIndicesStep(r: nat, i: nat)
    requires 0 < r && i < r
    ensures var top := 2 * i + 2;
            var topNext := 2 * NextSample(i, r) + 2;
            Flatten(CylinderFaces(r, i + 1)) == Flatten(CylinderFaces(r, i)) +
              [0, topNext, top] + [top, topNext + 1, top + 1] +
              [top, topNext, topNext + 1] + [1, top + 1, topNext + 1]
  {
    var fs, seg := CylinderFaces(r, i), CylinderSegment(i, r);
    var done := fs;
    FlattenSnoc(done, seg[0]);
    done := done + [seg[0]];
    FlattenSnoc(done, seg[1]);
    done := done + [seg[1]];
    FlattenSnoc(done, seg[2]);
    done := done + [seg[2]];
    FlattenSnoc(done, seg[3]);
    done := done + [seg[3]];
    assert done == fs + seg;
  }

  // ----------------------------------------------------------------- cone

  /** The centre vertices and the ring vertices of the first `n` samples,
      all ring vertices on the base at height `-hh`. */
  function ConeVertices(r: nat, hh: real, radius: real, math: MathLib, n: nat): (vs: seq<Vec3>)
    requires r > 0
    ensures |vs| == 2 + n
    ensures forall k :: 1 <= k < |vs| ==> vs[k].y == -hh
  {
    if n == 0 then [Vec3(0.0, hh, 0.0), Vec3(0.0, -hh, 0.0)]
    else ConeVertices(r, hh, radius, math, n - 1) + [RingPoint(n - 1, r, radius, -hh, math)]
  }

  /** The two triangles of sample `i`, whose ring vertex is `i + 2`: one
      from the top centre (the lateral surface), one from the bottom
      centre (the base). */
  function ConeSegment(i: nat, r: nat): seq<Tri>
    requires i < r
  {
    var v := i + 2;
    var vNext := NextSample(i, r) + 2;
    [Tri(0, vNext, v), Tri(1, v, vNext)]
  }

  function ConeFaces(r: nat, n: nat): (fs: seq<Tri>)
    requires 0 < r && n <= r
    ensures |fs| == 2 * n
    ensures FacesBelow(fs, 2 + r)
  {
    if n == 0 then []
    else
      var init := ConeFaces(r, n - 1);
      var seg := ConeSegment(n - 1, r);
      assert forall j :: 0 <= j < |init + seg| ==>
        (init + seg)[j] == if j < |init| then init[j] else seg[j - |init|];
      init + seg
  }

  /** A cone with `r` samples: 2 + r vertices, 2 r triangles, every index
      names one of its vertices; only the apex is above the base. */
  function ConeMesh(r: nat, hh: real, radius: real, math: MathLib): (m: MeshData)
    requires r >= 3
    ensures |m.vertices| == 2 + r && |m.indices| == 3 * (2 * r)
    ensures WellFormed(m)
    ensures m.vertices[0] == Vec3(0.0, hh, 0.0)
    ensures forall k :: 1 <= k < |m.vertices| ==> m.vertices[k].y == -hh
  {
    var vs := ConeVertices(r, hh, radius, math, r);
    var fs := ConeFaces(r, r);
    FlattenWellFormed(vs, fs);
    ConeApex(r, hh, radius, math, r);
    MeshData(vs, Flatten(fs))
  }

  lemma {:induction false} ConeApex(r: nat, hh: real, radius: real, math: MathLib, n: nat)
    requires r > 0
    ensures ConeVertices(r, hh, radius, math, n)[0] == Vec3(0.0, hh, 0.0)
  {
    if n > 0 {
      ConeApex(r, hh, radius, math, n - 1);
    }
  }

  /** Sample `i`'s ring vertex is vertex `i + 2`. */
  lemma {:induction false} ConeRingAt(r: nat, hh: real, radius: real, math: MathLib, n: nat, i: nat)
    requires r > 0 && i < n
    ensures ConeVertices(r, hh, radius, math, n)[i + 2] == RingPoint(i, r, radius, -hh, math)
  {
    if i < n - 1 {
      ConeRingAt(r, hh, radius, math, n - 1, i);
    }
  }

  /** Triangles `2 i` and `2 i + 1` of the cone are sample `i`'s. */
  lemma {:induction false} ConeSegmentAt(r: nat, n: nat, i: nat)
    requires 0 < r && i < n <= r
    ensures ConeFaces(r, n)[2 * i .. 2 * i + 2] == ConeSegment(i, r)
  {
    var init, seg := ConeFaces(r, n - 1), ConeSegment(n - 1, r);
    assert ConeFaces(r, n) == init + seg;
    if i < n - 1 {
      ConeSegmentAt(r, n - 1, i);
      assert (init + seg)[2 * i .. 2 * i + 2] == init[2 * i .. 2 * i + 2];
    } else {
      assert (init + seg)[2 * i .. 2 * i + 2] == seg;
    }
  }

  /** At the seam the last sample's triangles close the fan on vertex 2. */
  lemma ConeSeam(r: nat)
    requires r >= 3
    ensures ConeSegment(r - 1, r) == [Tri(0, 2, r + 1), Tri(1, r + 1, 2)]
  {
  }

  /** `cone`'s `max(2, (v + 1) % (r + 2))` with `v = i + 2` is the ring
      vertex of the sample after `i`. */
  lemma ConeSlots(r: nat, i: nat)
    requires 0 < r && i < r
    ensures Max(2, (i + 2 + 1) % (r + 2)) == NextSample(i, r) + 2
  {
    if i < r - 1 {
      ModOfSmall(i + 3, r + 2);
    } else {
      ModOfSelf(r + 2);
    }
  }

  method Cone(params: MeshParameters, math: MathLib) returns (mesh: Mesh)
    requires HasInt(params, Resolution) && HasFloat(params, Height) && HasFloat(params, Radius)
    requires IntAt(params, Resolution) >= 3
    ensures fresh(mesh)
    ensures mesh.Data() ==
      ConeMesh(IntAt(params, Resolution), FloatAt(params, Height) / 2.0, FloatAt(params, Radius), math)
  {
    var resolution := IntAt(params, Resolution);
    var height := FloatAt(params, Height);
    var radius := FloatAt(params, Radius);
    var hh := height / 2.0;
    mesh := new Mesh();
    var topCenter := mesh.AddVertex(Vec3(0.0, hh, 0.0));
    var bottomCenter := mesh.AddVertex(Vec3(0.0, -hh, 0.0));
    for i := 0 to resolution
      invariant mesh.vertices == ConeVertices(resolution, hh, radius, math, i)
      invariant mesh.indices == Flatten(ConeFaces(resolution, i))
    {
      var angle := Angle(i, resolution);
      var opp := Mul(math.fastSin(angle), radius);
      var adj := Mul(math.fastCos(angle), radius);
      var index := mesh.AddVertex(Vec3(adj, -hh, opp));
      assert Vec3(adj, -hh, opp) == RingPoint(i, resolution, radius, -hh, math);

      var v := i + 2;
      var vNext := Max(2, (v + 1) % (resolution + 2));
      ConeSlots(resolution, i);

      mesh.AddFace(topCenter, vNext, v);
      mesh.AddFace(bottomCenter, v, vNext);
      ConeVerticesStep(resolution, hh, radius, math, i);
      ConeIndicesStep(resolution, i);
    }
  }

  /** One iteration of the cone loop appends that sample's ring vertex. */
  lemma ConeVerticesStep(r: nat, hh: real, radius: real, math: MathLib, i: nat)
    requires 0 < r
    ensures ConeVertices(r, hh, radius, math, i + 1) ==
              ConeVertices(r, hh, radius, math, i) + [RingPoint(i, r, radius, -hh, math)]
  {
  }

  /** One iteration of the cone loop, written with `cone`'s own arithmetic,
      appends that sample's two triangles. */
  lemma ConeIndicesStep(r: nat, i: nat)
    requires 0 < r && i < r
    ensures var v := i + 2;
            var vNext := NextSample(i, r) + 2;
            Flatten(ConeFaces(r, i + 1)) == Flatten(ConeFaces(r, i)) + [0, vNext, v] + [1, v, vNext]
  {
    var fs, seg := ConeFaces(r, i), ConeSegment(i, r);
    FlattenSnoc(fs, seg[0]);
    FlattenSnoc(fs + [seg[0]], seg[1]);
    assert fs + [seg[0]] + [seg[1]] == fs + seg;
  }
}
