/** The `uvsphere` and `torus` generators: a `u` by `v` grid of cells
    visited row by row. Every cell adds four fresh vertices, so no vertex is
    shared between cells, and then the triangles over those four. */
module Grids {
  import opened Meshes
  import opened MeshParams

  /** The corners of `t` are three distinct vertices of one cell; cell `c`
      owns vertices `4 c` to `4 c + 3`. */
  predicate InOneCell(t: Tri) {
    t.a / 4 == t.b / 4 == t.c / 4 && t.a != t.b && t.b != t.c && t.a != t.c
  }

  predicate CellLocal(fs: seq<Tri>) {
    forall j :: 0 <= j < |fs| ==> InOneCell(fs[j])
  }

  lemma CellLocalAppend(fs: seq<Tri>, gs: seq<Tri>)
    requires CellLocal(fs) && CellLocal(gs)
    ensures CellLocal(fs + gs)
  {
    forall j | 0 <= j < |fs + gs| ensures InOneCell((fs + gs)[j]) {
      if j < |fs| { assert (fs + gs)[j] == fs[j]; } else { assert (fs + gs)[j] == gs[j - |fs|]; }
    }
  }

  lemma CellCorners(b: nat)
    requires b % 4 == 0
    ensures (b + 1) / 4 == b / 4 && (b + 2) / 4 == b / 4 && (b + 3) / 4 == b / 4
  {
  }

  lemma FourTimes(n: nat)
    ensures (4 * n) % 4 == 0
  {
  }

  /** The number of cells in a row, or of rows: a non-positive sample count
      gives none. */
  function Count(n: int): nat {
    if n < 0 then 0 else n
  }

  /** How many cells come before cell `p` of row `t` when rows have `cols`
      cells: the loop's running cell number. */
  function CellsBefore(cols: nat, t: nat, p: nat): nat
    decreases t, p
  {
    if p > 0 then CellsBefore(cols, t, p - 1) + 1
    else if t > 0 then CellsBefore(cols, t - 1, cols)
    else 0
  }

  lemma {:induction false} CellsBeforeIs(cols: nat, t: nat, p: nat)
    ensures CellsBefore(cols, t, p) == t * cols + p
    decreases t, p
  {
    if p > 0 {
      CellsBeforeIs(cols, t, p - 1);
    } else if t > 0 {
      CellsBeforeIs(cols, t - 1, cols);
      assert (t - 1) * cols + cols == t * cols;
    }
  }

  // ------------------------------------------------------------ uvsphere

  /** The loop's `v1` to `v4` for cell `(t, p)`: the corners of the patch
      between polar angles `t` and `t + 1` of `u` and azimuths `p` and
      `p + 1` of `v`, scaled along each axis. */
  function SphereCell(t: nat, p: nat, u: int, v: int, xs: real, ys: real, zs: real, math: MathLib): (vs: seq<Vec3>)
    requires t < u && p < v
    ensures |vs| == 4
  {
    var st1, st2 := math.fastSin(Angle(t, u)), math.fastSin(Angle(t + 1, u));
    var ct1, ct2 := math.fastCos(Angle(t, u)), math.fastCos(Angle(t + 1, u));
    var sp1, sp2 := math.fastSin(Angle(p, v)), math.fastSin(Angle(p + 1, v));
    var cp1, cp2 := math.fastCos(Angle(p, v)), math.fastCos(Angle(p + 1, v));
    [Vec3(Mul(Mul(xs, st1), cp1), Mul(Mul(ys, st1), sp1), Mul(zs, ct1)),
     Vec3(Mul(Mul(xs, st1), cp2), Mul(Mul(ys, st1), sp2), Mul(zs, ct1)),
     Vec3(Mul(Mul(xs, st2), cp2), Mul(Mul(ys, st2), sp2), Mul(zs, ct2)),
     Vec3(Mul(Mul(xs, st2), cp1), Mul(Mul(ys, st2), sp1), Mul(zs, ct2))]
  }

  /** The triangles of a cell of row `t` whose first vertex is `b`: one in
      the first row, one in the last, two elsewhere. The first row wins
      when there is only one row. */
  function SphereCellFaces(t: nat, u: int, b: nat): seq<Tri> {
    if t == 0 then [Tri(b, b + 3, b + 2)]
    else if t + 1 == u then [Tri(b + 2, b + 1, b)]
    else [Tri(b, b + 3, b + 1), Tri(b + 1, b + 3, b + 2)]
  }

  /** How many triangles each cell of row `t` has. */
  function RowFaces(t: nat, u: int): nat {
    if t == 0 || t + 1 == u then 1 else 2
  }

  lemma SphereCellFacesLocal(t: nat, u: int, b: nat)
    requires b % 4 == 0
    ensures var cell := SphereCellFaces(t, u, b);
            |cell| == RowFaces(t, u) && CellLocal(cell) && FacesBelow(cell, b + 4)
  {
    CellCorners(b);
  }

  /** The vertices once rows `0` to `t - 1` and the first `p` cells of row
      `t` are done. */
  function SphereVertices(u: int, v: int, xs: real, ys: real, zs: real, math: MathLib, t: nat, p: nat): (vs: seq<Vec3>)
    requires t <= Count(u) && p <= Count(v) && (t < u || p == 0)
    ensures |vs| == 4 * CellsBefore(Count(v), t, p)
    decreases t, p
  {
    if p > 0 then SphereVertices(u, v, xs, ys, zs, math, t, p - 1) + SphereCell(t, p - 1, u, v, xs, ys, zs, math)
    else if t > 0 then SphereVertices(u, v, xs, ys, zs, math, t - 1, Count(v))
    else []
  }

  /** The triangles of the same cells; cell `c` starts at vertex `4 c`. */
  function SphereFaces(u: int, v: int, t: nat, p: nat): seq<Tri>
    requires t <= Count(u) && p <= Count(v) && (t < u || p == 0)
    decreases t, p
  {
    if p > 0 then SphereFaces(u, v, t, p - 1) + SphereCellFaces(t, u, 4 * CellsBefore(Count(v), t, p - 1))
    else if t > 0 then SphereFaces(u, v, t - 1, Count(v))
    else []
  }

  /** The triangles of the first `t` rows of `cols` cells. */
  function FacesBeforeRow(t: nat, u: int, cols: nat): nat {
    if t == 0 then 0 else FacesBeforeRow(t - 1, u, cols) + cols * RowFaces(t - 1, u)
  }

  /** The triangle count of the finished sphere: two per cell, less one per
      cell in each of the two polar rows; a single row keeps one per cell. */
  function SphereFaceCount(u: int, v: int): int {
    if u <= 0 || v <= 0 then 0 else if u == 1 then v else 2 * v * (u - 1)
  }

  /** After `t` rows and `p` more cells: the triangles of the rows done
      plus those of the `p` cells. */
  lemma {:induction false} SphereFacesSize(u: int, v: int, t: nat, p: nat)
    requires t <= Count(u) && p <= Count(v) && (t < u || p == 0)
    ensures |SphereFaces(u, v, t, p)| == FacesBeforeRow(t, u, Count(v)) + p * RowFaces(t, u)
    decreases t, p
  {
    if p > 0 {
      SphereFacesSize(u, v, t, p - 1);
      assert |SphereCellFaces(t, u, 4 * CellsBefore(Count(v), t, p - 1))| == RowFaces(t, u);
    } else if t > 0 {
      SphereFacesSize(u, v, t - 1, Count(v));
    }
  }

  /** Every triangle so far names a vertex added so far, and three distinct
      ones of its own cell. */
  lemma {:induction false} SphereFacesLocal(u: int, v: int, t: nat, p: nat)
    requires t <= Count(u) && p <= Count(v) && (t < u || p == 0)
    ensures FacesBelow(SphereFaces(u, v, t, p), 4 * CellsBefore(Count(v), t, p))
    ensures CellLocal(SphereFaces(u, v, t, p))
    decreases t, p
  {
    if p > 0 {
      SphereFacesLocal(u, v, t, p - 1);
      var fs, c := SphereFaces(u, v, t, p - 1), CellsBefore(Count(v), t, p - 1);
      var cell := SphereCellFaces(t, u, 4 * c);
      FourTimes(c);
      SphereCellFacesLocal(t, u, 4 * c);
      FacesBelowMore(fs, 4 * c, 4 * c + 4);
      FacesBelowAppend(fs, cell, 4 * c + 4);
      CellLocalAppend(fs, cell);
    } else if t > 0 {
      SphereFacesLocal(u, v, t - 1, Count(v));
    }
  }

  /** Before the last row, the rows done hold one triangle per cell for
      the first row and two per cell for each later one. */
  lemma {:induction false} FacesBeforeInnerRow(t: nat, u: int, cols: nat)
    requires 1 <= t < u
    ensures FacesBeforeRow(t, u, cols) == cols + 2 * cols * (t - 1)
  {
    if t > 1 {
      FacesBeforeInnerRow(t - 1, u, cols);
    }
  }

  lemma SphereFaceTotal(u: int, v: int)
    ensures FacesBeforeRow(Count(u), u, Count(v)) == SphereFaceCount(u, v)
  {
    if u > 1 {
      FacesBeforeInnerRow(u - 1, u, Count(v));
      assert FacesBeforeRow(u, u, Count(v)) == Count(v) + 2 * Count(v) * (u - 2) + Count(v);
    }
  }

  /** The uvsphere: `4 u v` vertices, four per cell; `SphereFaceCount(u, v)`
      triangles, each over three distinct vertices of its own cell. */
  function SphereMesh(u: int, v: int, xs: real, ys: real, zs: real, math: MathLib): (m: TriMesh)
    ensures |m.vertices| == 4 * (Count(u) * Count(v))
    ensures |m.faces| == SphereFaceCount(u, v)
    ensures WellFormed(Flat(m)) && CellLocal(m.faces)
  {
    var vs := SphereVertices(u, v, xs, ys, zs, math, Count(u), 0);
    var fs := SphereFaces(u, v, Count(u), 0);
    CellsBeforeIs(Count(v), Count(u), 0);
    SphereFacesSize(u, v, Count(u), 0);
    SphereFacesLocal(u, v, Count(u), 0);
    SphereFaceTotal(u, v);
    FlattenWellFormed(vs, fs);
    TriMesh(vs, fs)
  }

  /** One cell of the sphere loop appends its four vertices. */
  lemma SphereVerticesStep(u: int, v: int, xs: real, ys: real, zs: real, math: MathLib, t: nat, p: nat)
    requires t < u && p < v
    ensures var cell := SphereCell(t, p, u, v, xs, ys, zs, math);
            SphereVertices(u, v, xs, ys, zs, math, t, p + 1) ==
              SphereVertices(u, v, xs, ys, zs, math, t, p) + [cell[0]] + [cell[1]] + [cell[2]] + [cell[3]]
  {
    var vs, cell := SphereVertices(u, v, xs, ys, zs, math, t, p), SphereCell(t, p, u, v, xs, ys, zs, math);
    assert vs + cell == vs + [cell[0]] + [cell[1]] + [cell[2]] + [cell[3]];
  }

  /** One cell of the sphere loop appends the indices of its triangles. */
  lemma SphereFacesStep(u: int, v: int, t: nat, p: nat)
    requires t < u && p < v
    ensures Flatten(SphereFaces(u, v, t, p + 1)) ==
              Flatten(SphereFaces(u, v, t, p)) + Flatten(SphereCellFaces(t, u, 4 * CellsBefore(Count(v), t, p)))
  {
    FlattenAppend(SphereFaces(u, v, t, p), SphereCellFaces(t, u, 4 * CellsBefore(Count(v), t, p)));
  }

  /** The indices of a cell's triangles over the four vertices from `b` on,
      in the order the loop adds them. */
  lemma SphereCellIndices(t: nat, u: int, b: nat)
    ensures Flatten(SphereCellFaces(t, u, b)) ==
              if t == 0 then [b, b + 3, b + 2]
              else if t + 1 == u then [b + 2, b + 1, b]
              else [b, b + 3, b + 1] + [b + 1, b + 3, b + 2]
  {
    if t == 0 {
      FlattenOne(Tri(b, b + 3, b + 2));
    } else if t + 1 == u {
      FlattenOne(Tri(b + 2, b + 1, b));
    } else {
      FlattenTwo(Tri(b, b + 3, b + 1), Tri(b + 1, b + 3, b + 2));
    }
  }

  /** The body of the sphere loop: the cell's four vertices, then its
      triangles, which depend on the row. */
  method AddSphereCell(mesh: Mesh, t: nat, u: int, xs: real, ys: real, zs: real,
                       st1: real, st2: real, ct1: real, ct2: real, sp1: real, sp2: real, cp1: real, cp2: real)
    modifies mesh
    ensures mesh.vertices == old(mesh.vertices) +
      [Vec3(Mul(Mul(xs, st1), cp1), Mul(Mul(ys, st1), sp1), Mul(zs, ct1))] +
      [Vec3(Mul(Mul(xs, st1), cp2), Mul(Mul(ys, st1), sp2), Mul(zs, ct1))] +
      [Vec3(Mul(Mul(xs, st2), cp2), Mul(Mul(ys, st2), sp2), Mul(zs, ct2))] +
      [Vec3(Mul(Mul(xs, st2), cp1), Mul(Mul(ys, st2), sp1), Mul(zs, ct2))]
    ensures mesh.indices == old(mesh.indices) + Flatten(SphereCellFaces(t, u, |old(mesh.vertices)|))
  {
    var v1 := mesh.AddVertex(Vec3(Mul(Mul(xs, st1), cp1), Mul(Mul(ys, st1), sp1), Mul(zs, ct1)));
    var v2 := mesh.AddVertex(Vec3(Mul(Mul(xs, st1), cp2), Mul(Mul(ys, st1), sp2), Mul(zs, ct1)));
    var v3 := mesh.AddVertex(Vec3(Mul(Mul(xs, st2), cp2), Mul(Mul(ys, st2), sp2), Mul(zs, ct2)));
    var v4 := mesh.AddVertex(Vec3(Mul(Mul(xs, st2), cp1), Mul(Mul(ys, st2), sp1), Mul(zs, ct2)));
    SphereCellIndices(t, u, v1);
    if t == 0 {
      mesh.AddFace(v1, v4, v3);
    } else if t + 1 == u {
      mesh.AddFace(v3, v2, v1);
    } else {
      mesh.AddFace(v1, v4, v2);
      mesh.AddFace(v2, v4, v3);
    }
  }

  method UVSphere(params: MeshParameters, math: MathLib) returns (mesh: Mesh)
    requires HasInt(params, USamples) && HasInt(params, VSamples)
    requires HasFloat(params, XScale) && HasFloat(params, YScale) && HasFloat(params, ZScale)
    ensures fresh(mesh)
    ensures mesh.Data() == Flat(SphereMesh(IntAt(params, USamples), IntAt(params, VSamples),
      FloatAt(params, XScale), FloatAt(params, YScale), FloatAt(params, ZScale), math))
  {
    var uSamples := IntAt(params, USamples);
    var vSamples := IntAt(params, VSamples);
    var xScl := FloatAt(params, XScale);
    var yScl := FloatAt(params, YScale);
    var zScl := FloatAt(params, ZScale);
    mesh := new Mesh();
    var t := 0;
    while t < uSamples
      invariant t <= Count(uSamples)
      invariant mesh.vertices == SphereVertices(uSamples, vSamples, xScl, yScl, zScl, math, t, 0)
      invariant mesh.indices == Flatten(SphereFaces(uSamples, vSamples, t, 0))
    {
      var theta1 := Angle(t, uSamples);
      var theta2 := Angle(t + 1, uSamples);
      var st1, st2 := math.fastSin(theta1), math.fastSin(theta2);
      var ct1, ct2 := math.fastCos(theta1), math.fastCos(theta2);
      var p := 0;
      while p < vSamples
        invariant p <= Count(vSamples)
        invariant mesh.vertices == SphereVertices(uSamples, vSamples, xScl, yScl, zScl, math, t, p)
        invariant mesh.indices == Flatten(SphereFaces(uSamples, vSamples, t, p))
      {
        var phi1 := Angle(p, vSamples);
        var phi2 := Angle(p + 1, vSamples);
        var sp1, sp2 := math.fastSin(phi1), math.fastSin(phi2);
        var cp1, cp2 := math.fastCos(phi1), math.fastCos(phi2);
        SphereVerticesStep(uSamples, vSamples, xScl, yScl, zScl, math, t, p);
        SphereFacesStep(uSamples, vSamples, t, p);
        AddSphereCell(mesh, t, uSamples, xScl, yScl, zScl, st1, st2, ct1, ct2, sp1, sp2, cp1, cp2);
        p := p + 1;
      }
      t := t + 1;
    }
  }

  // --------------------------------------------------------------- torus

  /** The torus's `f`: the point at angle `(su, cu)` around the central
      circle of radius `big` and at angle `(sv, cv)` around the tube of
      radius `small`. */
  function TorusPoint(big: real, small: real, su: real, cu: real, sv: real, cv: real): Vec3 {
    var ring := big + Mul(small, cv);
    Vec3(Mul(ring, cu), Mul(ring, su), Mul(small, sv))
  }

  /** The loop's `i1` to `i4` for cell `(t, p)`: the corners of the patch
      between angles `t` and `t + 1` of `u` around the centre and `p` and
      `p + 1` of `v` around the tube. */
  function TorusCell(t: nat, p: nat, u: int, v: int, big: real, small: real, math: MathLib): (vs: seq<Vec3>)
    requires t < u && p < v
    ensures |vs| == 4
  {
    var su1, su2 := math.fastSin(Angle(t, u)), math.fastSin(Angle(t + 1, u));
    var cu1, cu2 := math.fastCos(Angle(t, u)), math.fastCos(Angle(t + 1, u));
    var sv1, sv2 := math.fastSin(Angle(p, v)), math.fastSin(Angle(p + 1, v));
    var cv1, cv2 := math.fastCos(Angle(p, v)), math.fastCos(Angle(p + 1, v));
    [TorusPoint(big, small, su1, cu1, sv1, cv1), TorusPoint(big, small, su2, cu2, sv1, cv1),
     TorusPoint(big, small, su2, cu2, sv2, cv2), TorusPoint(big, small, su1, cu1, sv2, cv2)]
  }

  /** The two triangles of a torus cell whose first vertex is `b`; they
      share the diagonal from `b` to `b + 2`. */
  function TorusCellFaces(b: nat): seq<Tri> {
    [Tri(b, b + 1, b + 2), Tri(b + 2, b + 3, b)]
  }

  lemma TorusCellFacesLocal(b: nat)
    requires b % 4 == 0
    ensures var cell := TorusCellFaces(b);
            |cell| == 2 && CellLocal(cell) && FacesBelow(cell, b + 4)
  {
    CellCorners(b);
  }

  /** The vertices once rows `0` to `t - 1` and the first `p` cells of row
      `t` are done. */
  function TorusVertices(u: int, v: int, big: real, small: real, math: MathLib, t: nat, p: nat): (vs: seq<Vec3>)
    requires t <= Count(u) && p <= Count(v) && (t < u || p == 0)
    ensures |vs| == 4 * CellsBefore(Count(v), t, p)
    decreases t, p
  {
    if p > 0 then TorusVertices(u, v, big, small, math, t, p - 1) + TorusCell(t, p - 1, u, v, big, small, math)
    else if t > 0 then TorusVertices(u, v, big, small, math, t - 1, Count(v))
    else []
  }

  /** The triangles of the same cells; cell `c` starts at vertex `4 c`. */
  function TorusFaces(u: int, v: int, t: nat, p: nat): (fs: seq<Tri>)
    requires t <= Count(u) && p <= Count(v) && (t < u || p == 0)
    decreases t, p
  {
    if p > 0 then TorusFaces(u, v, t, p - 1) + TorusCellFaces(4 * CellsBefore(Count(v), t, p - 1))
    else if t > 0 then TorusFaces(u, v, t - 1, Count(v))
    else []
  }

  /** Every cell so far has added two triangles, each over three distinct
      vertices of its own cell, all added so far. */
  lemma {:induction false} TorusFacesLocal(u: int, v: int, t: nat, p: nat)
    requires t <= Count(u) && p <= Count(v) && (t < u || p == 0)
    ensures |TorusFaces(u, v, t, p)| == 2 * CellsBefore(Count(v), t, p)
    ensures FacesBelow(TorusFaces(u, v, t, p), 4 * CellsBefore(Count(v), t, p))
    ensures CellLocal(TorusFaces(u, v, t, p))
    decreases t, p
  {
    if p > 0 {
      TorusFacesLocal(u, v, t, p - 1);
      var fs, c := TorusFaces(u, v, t, p - 1), CellsBefore(Count(v), t, p - 1);
      var cell := TorusCellFaces(4 * c);
      FourTimes(c);
      TorusCellFacesLocal(4 * c);
      FacesBelowMore(fs, 4 * c, 4 * c + 4);
      FacesBelowAppend(fs, cell, 4 * c + 4);
      CellLocalAppend(fs, cell);
    } else if t > 0 {
      TorusFacesLocal(u, v, t - 1, Count(v));
    }
  }

  /** The torus: `4 u v` vertices, four per cell, and `2 u v` triangles, two
      per cell over three distinct vertices of that cell. */
  function TorusMesh(u: int, v: int, big: real, small: real, math: MathLib): (m: TriMesh)
    ensures |m.vertices| == 4 * (Count(u) * Count(v))
    ensures |m.faces| == 2 * (Count(u) * Count(v))
    ensures WellFormed(Flat(m)) && CellLocal(m.faces)
  {
    var vs := TorusVertices(u, v, big, small, math, Count(u), 0);
    var fs := TorusFaces(u, v, Count(u), 0);
    CellsBeforeIs(Count(v), Count(u), 0);
    TorusFacesLocal(u, v, Count(u), 0);
    FlattenWellFormed(vs, fs);
    TriMesh(vs, fs)
  }

  /** One cell of the torus loop appends its four vertices. */
  lemma TorusVerticesStep(u: int, v: int, big: real, small: real, math: MathLib, t: nat, p: nat)
    requires t < u && p < v
    ensures var cell := TorusCell(t, p, u, v, big, small, math);
            TorusVertices(u, v, big, small, math, t, p + 1) ==
              TorusVertices(u, v, big, small, math, t, p) + [cell[0]] + [cell[1]] + [cell[2]] + [cell[3]]
  {
    var vs, cell := TorusVertices(u, v, big, small, math, t, p), TorusCell(t, p, u, v, big, small, math);
    assert vs + cell == vs + [cell[0]] + [cell[1]] + [cell[2]] + [cell[3]];
  }

  /** One cell of the torus loop appends the indices of its two triangles. */
  lemma TorusFacesStep(u: int, v: int, t: nat, p: nat)
    requires t < u && p < v
    ensures var b := 4 * CellsBefore(Count(v), t, p);
            Flatten(TorusFaces(u, v, t, p + 1)) ==
              Flatten(TorusFaces(u, v, t, p)) + [b, b + 1, b + 2] + [b + 2, b + 3, b]
  {
    var b := 4 * CellsBefore(Count(v), t, p);
    FlattenAppend(TorusFaces(u, v, t, p), TorusCellFaces(b));
    FlattenTwo(Tri(b, b + 1, b + 2), Tri(b + 2, b + 3, b));
  }

  /** The body of the torus loop. */
  method AddTorusCell(mesh: Mesh, big: real, small: real,
                      su1: real, cu1: real, su2: real, cu2: real, sv1: real, cv1: real, sv2: real, cv2: real)
    modifies mesh
    ensures mesh.vertices == old(mesh.vertices) +
      [TorusPoint(big, small, su1, cu1, sv1, cv1)] + [TorusPoint(big, small, su2, cu2, sv1, cv1)] +
      [TorusPoint(big, small, su2, cu2, sv2, cv2)] + [TorusPoint(big, small, su1, cu1, sv2, cv2)]
    ensures var b := |old(mesh.vertices)|;
            mesh.indices == old(mesh.indices) + [b, b + 1, b + 2] + [b + 2, b + 3, b]
  {
    var i1 := mesh.AddVertex(TorusPoint(big, small, su1, cu1, sv1, cv1));
    var i2 := mesh.AddVertex(TorusPoint(big, small, su2, cu2, sv1, cv1));
    var i3 := mesh.AddVertex(TorusPoint(big, small, su2, cu2, sv2, cv2));
    var i4 := mesh.AddVertex(TorusPoint(big, small, su1, cu1, sv2, cv2));
    mesh.AddFace(i1, i2, i3);
    mesh.AddFace(i3, i4, i1);
  }

  method Torus(params: MeshParameters, math: MathLib) returns (mesh: Mesh)
    requires HasFloat(params, OuterRadius) && HasFloat(params, InnerRadius)
    requires HasInt(params, USamples) && HasInt(params, VSamples)
    ensures fresh(mesh)
    ensures mesh.Data() == Flat(TorusMesh(IntAt(params, USamples), IntAt(params, VSamples),
      FloatAt(params, OuterRadius), FloatAt(params, InnerRadius), math))
  {
    var big := FloatAt(params, OuterRadius);
    var small := FloatAt(params, InnerRadius);
    var uSamples := IntAt(params, USamples);
    var vSamples := IntAt(params, VSamples);
    mesh := new Mesh();
    var t := 0;
    while t < uSamples
      invariant t <= Count(uSamples)
      invariant mesh.vertices == TorusVertices(uSamples, vSamples, big, small, math, t, 0)
      invariant mesh.indices == Flatten(TorusFaces(uSamples, vSamples, t, 0))
    {
      var u1 := Angle(t, uSamples);
      var u2 := Angle(t + 1, uSamples);
      var cu1, cu2 := math.fastCos(u1), math.fastCos(u2);
      var su1, su2 := math.fastSin(u1), math.fastSin(u2);
      var p := 0;
      while p < vSamples
        invariant p <= Count(vSamples)
        invariant mesh.vertices == TorusVertices(uSamples, vSamples, big, small, math, t, p)
        invariant mesh.indices == Flatten(TorusFaces(uSamples, vSamples, t, p))
      {
        var v1 := Angle(p, vSamples);
        var v2 := Angle(p + 1, vSamples);
        var cv1, cv2 := math.fastCos(v1), math.fastCos(v2);
        var sv1, sv2 := math.fastSin(v1), math.fastSin(v2);
        TorusVerticesStep(uSamples, vSamples, big, small, math, t, p);
        TorusFacesStep(uSamples, vSamples, t, p);
        AddTorusCell(mesh, big, small, su1, cu1, su2, cu2, sv1, cv1, sv2, cv2);
        p := p + 1;
      }
      t := t + 1;
    }
  }
}
