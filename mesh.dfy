/** The indexed triangle mesh that every generator builds: an append-only
    list of vertex positions and a flat list of vertex indices, three per
    triangle. */
module Meshes {

  /** A point in space; the C++ code's single-precision floats are reals here. */
  datatype Vec3 = Vec3(x: real, y: real, z: real)

  /** A float product. Rounding is not modelled; keeping the product of
      two unknowns behind a name also keeps the solver's reasoning linear. */
  function Mul(a: real, b: real): real {
    a * b
  }

  function Plus(a: Vec3, b: Vec3): Vec3 {
    Vec3(a.x + b.x, a.y + b.y, a.z + b.z)
  }

  function Times(v: Vec3, s: real): Vec3 {
    Vec3(Mul(v.x, s), Mul(v.y, s), Mul(v.z, s))
  }

  /** One triangle, given by the indices of its three corners. */
  datatype Tri = Tri(a: nat, b: nat, c: nat)

  /** The value a generator hands to the renderer. */
  datatype MeshData = MeshData(vertices: seq<Vec3>, indices: seq<nat>)

  /** A mesh viewed as its list of triangles; `Flat` is the index buffer the
      renderer sees. */
  datatype TriMesh = TriMesh(vertices: seq<Vec3>, faces: seq<Tri>)

  function Flat(m: TriMesh): MeshData {
    MeshData(m.vertices, Flatten(m.faces))
  }

  predicate TriBelow(t: Tri, n: nat) {
    t.a < n && t.b < n && t.c < n
  }

  /** Every corner of every triangle in `fs` is below `n`. */
  predicate FacesBelow(fs: seq<Tri>, n: nat) {
    forall j :: 0 <= j < |fs| ==> TriBelow(fs[j], n)
  }

  predicate IndicesBelow(idx: seq<nat>, n: nat) {
    forall k :: 0 <= k < |idx| ==> idx[k] < n
  }

  /** The mesh invariant: whole triangles only, and every index names a vertex. */
  predicate WellFormed(m: MeshData) {
    |m.indices| % 3 == 0 && IndicesBelow(m.indices, |m.vertices|)
  }

  /** The flat index list that adding the triangles `fs` in order produces. */
  function Flatten(fs: seq<Tri>): (r: seq<nat>)
    ensures |r| == 3 * |fs|
  {
    if fs == [] then []
    else
      var t := fs[|fs| - 1];
      Flatten(fs[..|fs| - 1]) + [t.a, t.b, t.c]
  }

  /** Adding one more triangle appends its three corners. */
  lemma FlattenSnoc(fs: seq<Tri>, t: Tri)
    ensures Flatten(fs + [t]) == Flatten(fs) + [t.a, t.b, t.c]
  {
    assert (fs + [t])[..|fs|] == fs;
  }

  /** Adding the triangles of `fs` one at a time: after `k + 1` of them. */
  lemma FlattenTake(fs: seq<Tri>, k: nat)
    requires k < |fs|
    ensures Flatten(fs[..k + 1]) == Flatten(fs[..k]) + [fs[k].a, fs[k].b, fs[k].c]
  {
    assert fs[..k + 1] == fs[..k] + [fs[k]];
    FlattenSnoc(fs[..k], fs[k]);
  }

  lemma FlattenOne(t: Tri)
    ensures Flatten([t]) == [t.a, t.b, t.c]
  {
    FlattenSnoc([], t);
  }

  lemma FlattenTwo(t: Tri, t': Tri)
    ensures Flatten([t, t']) == [t.a, t.b, t.c] + [t'.a, t'.b, t'.c]
  {
    FlattenOne(t);
    FlattenSnoc([t], t');
  }

  lemma {:induction false} FlattenAppend(fs: seq<Tri>, gs: seq<Tri>)
    ensures Flatten(fs + gs) == Flatten(fs) + Flatten(gs)
    decreases |gs|
  {
    if gs == [] {
      assert fs + gs == fs;
    } else {
      var n := |gs| - 1;
      var t := gs[n];
      assert (fs + gs)[..|fs + gs| - 1] == fs + gs[..n];
      assert (fs + gs)[|fs + gs| - 1] == t;
      FlattenAppend(fs, gs[..n]);
      calc {
        Flatten(fs + gs);
        Flatten(fs + gs[..n]) + [t.a, t.b, t.c];
        Flatten(fs) + Flatten(gs[..n]) + [t.a, t.b, t.c];
        Flatten(fs) + Flatten(gs);
      }
    }
  }

  /** Flattening keeps each corner at its place: corner `k` of triangle `j`
      is index `3 * j + k`. */
  lemma {:induction false} FlattenAt(fs: seq<Tri>, j: nat)
    requires j < |fs|
    ensures Flatten(fs)[3 * j] == fs[j].a
    ensures Flatten(fs)[3 * j + 1] == fs[j].b
    ensures Flatten(fs)[3 * j + 2] == fs[j].c
    decreases |fs|
  {
    if j < |fs| - 1 {
      FlattenAt(fs[..|fs| - 1], j);
    }
  }

  /** A triangle list whose corners are below `n` flattens to a well-formed
      index list over `n` vertices, and conversely. */
  lemma {:induction false} FlattenBelow(fs: seq<Tri>, n: nat)
    ensures FacesBelow(fs, n) <==> IndicesBelow(Flatten(fs), n)
    decreases |fs|
  {
    if fs != [] {
      var init := fs[..|fs| - 1];
      FlattenBelow(init, n);
      assert FacesBelow(fs, n) <==> FacesBelow(init, n) && TriBelow(fs[|fs| - 1], n) by {
        if FacesBelow(init, n) && TriBelow(fs[|fs| - 1], n) {
          forall j | 0 <= j < |fs| ensures TriBelow(fs[j], n) {
            if j < |fs| - 1 { assert fs[j] == init[j]; }
          }
        }
      }
      var r := Flatten(fs);
      assert r == Flatten(init) + [fs[|fs| - 1].a, fs[|fs| - 1].b, fs[|fs| - 1].c];
      if IndicesBelow(r, n) {
        forall k | 0 <= k < |Flatten(init)| ensures Flatten(init)[k] < n {
          assert Flatten(init)[k] == r[k];
        }
        assert r[|r| - 3] == fs[|fs| - 1].a;
        assert r[|r| - 2] == fs[|fs| - 1].b;
        assert r[|r| - 1] == fs[|fs| - 1].c;
      }
    }
  }

  lemma FacesBelowAppend(fs: seq<Tri>, gs: seq<Tri>, n: nat)
    requires FacesBelow(fs, n) && FacesBelow(gs, n)
    ensures FacesBelow(fs + gs, n)
  {
    forall j | 0 <= j < |fs + gs| ensures TriBelow((fs + gs)[j], n) {
      if j < |fs| { assert (fs + gs)[j] == fs[j]; } else { assert (fs + gs)[j] == gs[j - |fs|]; }
    }
  }

  lemma FacesBelowMore(fs: seq<Tri>, n: nat, m: nat)
    requires FacesBelow(fs, n) && n <= m
    ensures FacesBelow(fs, m)
  {
    forall j | 0 <= j < |fs| ensures TriBelow(fs[j], m) {
      assert TriBelow(fs[j], n);
    }
  }

  /** Vertices together with the flattening of triangles over them make a
      well-formed mesh. */
  lemma FlattenWellFormed(vs: seq<Vec3>, fs: seq<Tri>)
    requires FacesBelow(fs, |vs|)
    ensures WellFormed(MeshData(vs, Flatten(fs)))
  {
    FlattenBelow(fs, |vs|);
    assert |Flatten(fs)| == 3 * |fs|;
    assert (3 * |fs|) % 3 == 0;
  }

  /** The mesh under construction. `AddVertex` answers the index the new
      vertex gets, which is the number of vertices before it. */
  class Mesh {
    var vertices: seq<Vec3>
    var indices: seq<nat>

    constructor ()
      ensures vertices == [] && indices == []
    {
      vertices := [];
      indices := [];
    }

    function Data(): MeshData
      reads this
    {
      MeshData(vertices, indices)
    }

    /** `mesh[i]`: a vertex added earlier. */
    function At(i: nat): Vec3
      reads this
      requires i < |vertices|
    {
      vertices[i]
    }

    method AddVertex(v: Vec3) returns (index: nat)
      modifies this
      ensures index == |old(vertices)|
      ensures vertices == old(vertices) + [v]
      ensures indices == old(indices)
    {
      index := |vertices|;
      vertices := vertices + [v];
    }

    /** Appends one triangle. The indices are not checked: the cylinder and
        the cone name ring vertices before adding them. */
    method AddFace(i0: nat, i1: nat, i2: nat)
      modifies this
      ensures indices == old(indices) + [i0, i1, i2]
      ensures vertices == old(vertices)
    {
      indices := indices + [i0, i1, i2];
    }

    /** Appends several triangles, as repeated `AddFace` would. */
    method AddFaces(fs: seq<Tri>)
      modifies this
      ensures indices == old(indices) + Flatten(fs)
      ensures vertices == old(vertices)
    {
      indices := indices + Flatten(fs);
    }
  }
}
