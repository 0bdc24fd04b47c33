/** A `MeshFunction` maps a parameter set to a mesh. Each generator is named
    here, with the parameters it reads and demands, and `Generate` is the
    mesh it returns: a function of the parameters alone. */
module Generators {
  import opened Meshes
  import opened MeshParams
  import Solids
  import Revolution
  import Grids
  import Icosahedra

  datatype Option<T> = None | Some(value: T)

  datatype Generator =
    | Empty | Quad | Box | Tetrahedron | Icosahedron
    | Cylinder | Cone | UVSphere | Torus

  /** What a generator demands of its parameters: the keys it reads, with
      the right kind of value, and the documented lower bounds. */
  predicate Accepts(g: Generator, p: MeshParameters) {
    match g
    case Empty => true
    case Quad => HasFloat(p, Length) && HasFloat(p, Width)
    case Box => HasFloat(p, Length) && HasFloat(p, Width) && HasFloat(p, Height)
    case Tetrahedron => HasFloat(p, Length)
    case Icosahedron => HasFloat(p, Radius) && HasInt(p, Subdivisions) && IntAt(p, Subdivisions) >= 0
    case Cylinder =>
      HasInt(p, Resolution) && HasFloat(p, Height) && HasFloat(p, Radius) && IntAt(p, Resolution) >= 3
    case Cone =>
      HasInt(p, Resolution) && HasFloat(p, Height) && HasFloat(p, Radius) && IntAt(p, Resolution) >= 3
    case UVSphere =>
      HasInt(p, USamples) && HasInt(p, VSamples) &&
      HasFloat(p, XScale) && HasFloat(p, YScale) && HasFloat(p, ZScale)
    case Torus =>
      HasFloat(p, OuterRadius) && HasFloat(p, InnerRadius) && HasInt(p, USamples) && HasInt(p, VSamples)
  }

  /** The mesh a generator returns, or `None` for parameters it does not
      accept. Whatever it returns is a well-formed mesh: whole triangles
      whose corners all name vertices. */
  function Generate(g: Generator, p: MeshParameters, math: MathLib): (r: Option<MeshData>)
    ensures r.Some? <==> Accepts(g, p)
    ensures r.Some? ==> WellFormed(r.value)
  {
    if !Accepts(g, p) then None
    else match g
      case Empty => Some(MeshData([], []))
      case Quad => Some(Solids.QuadMesh(FloatAt(p, Length), FloatAt(p, Width)))
      case Box => Some(Solids.BoxMesh(FloatAt(p, Length), FloatAt(p, Width), FloatAt(p, Height)))
      case Tetrahedron => Some(Solids.TetrahedronMesh(FloatAt(p, Length)))
      case Icosahedron =>
        Some(Flat(Icosahedra.IcosahedronMesh(IntAt(p, Subdivisions), FloatAt(p, Radius), math)))
      case Cylinder =>
        Some(Revolution.CylinderMesh(IntAt(p, Resolution), FloatAt(p, Height) / 2.0, FloatAt(p, Radius), math))
      case Cone =>
        Some(Revolution.ConeMesh(IntAt(p, Resolution), FloatAt(p, Height) / 2.0, FloatAt(p, Radius), math))
      case UVSphere =>
        Some(Flat(Grids.SphereMesh(IntAt(p, USamples), IntAt(p, VSamples),
          FloatAt(p, XScale), FloatAt(p, YScale), FloatAt(p, ZScale), math)))
      case Torus =>
        Some(Flat(Grids.TorusMesh(IntAt(p, USamples), IntAt(p, VSamples),
          FloatAt(p, OuterRadius), FloatAt(p, InnerRadius), math)))
  }

  /** `empty` accepts any parameters and has no vertices. */
  lemma EmptyHasNoVertices(p: MeshParameters, math: MathLib)
    ensures Generate(Empty, p, math) == Some(MeshData([], []))
  {
  }

  /** A generator reads only the keys it names: two parameter sets that
      agree on those give the same mesh. */
  lemma GenerateReadsItsKeys(g: Generator, p: MeshParameters, q: MeshParameters, math: MathLib)
    requires forall k :: k in Keys(g) ==> (k in p <==> k in q) && (k in p ==> p[k] == q[k])
    ensures Generate(g, p, math) == Generate(g, q, math)
  {
    match g
    case Empty =>
    case Quad => SameKey(p, q, Length); SameKey(p, q, Width);
    case Box => SameKey(p, q, Length); SameKey(p, q, Width); SameKey(p, q, Height);
    case Tetrahedron => SameKey(p, q, Length);
    case Icosahedron => SameKey(p, q, Radius); SameKey(p, q, Subdivisions);
    case Cylinder => SameKey(p, q, Resolution); SameKey(p, q, Height); SameKey(p, q, Radius);
    case Cone => SameKey(p, q, Resolution); SameKey(p, q, Height); SameKey(p, q, Radius);
    case UVSphere =>
      SameKey(p, q, USamples); SameKey(p, q, VSamples);
      SameKey(p, q, XScale); SameKey(p, q, YScale); SameKey(p, q, ZScale);
    case Torus =>
      SameKey(p, q, OuterRadius); SameKey(p, q, InnerRadius); SameKey(p, q, USamples); SameKey(p, q, VSamples);
  }

  lemma SameKey(p: MeshParameters, q: MeshParameters, k: string)
    requires (k in p <==> k in q) && (k in p ==> p[k] == q[k])
    ensures HasFloat(p, k) == HasFloat(q, k) && (HasFloat(p, k) ==> FloatAt(p, k) == FloatAt(q, k))
    ensures HasInt(p, k) == HasInt(q, k) && (HasInt(p, k) ==> IntAt(p, k) == IntAt(q, k))
  {
  }

  /** The keys a generator reads. */
  function Keys(g: Generator): set<string> {
    match g
    case Empty => {}
    case Quad => {Length, Width}
    case Box => {Length, Width, Height}
    case Tetrahedron => {Length}
    case Icosahedron => {Radius, Subdivisions}
    case Cylinder => {Resolution, Height, Radius}
    case Cone => {Resolution, Height, Radius}
    case UVSphere => {USamples, VSamples, XScale, YScale, ZScale}
    case Torus => {OuterRadius, InnerRadius, USamples, VSamples}
  }

  /** Calling a generator: it builds, step by step, exactly the mesh
      `Generate` names. */
  method Run(g: Generator, p: MeshParameters, math: MathLib) returns (mesh: Mesh)
    requires Accepts(g, p)
    ensures fresh(mesh)
    ensures Generate(g, p, math) == Some(mesh.Data())
  {
    match g
    case Empty => mesh := Solids.Empty(p);
    case Quad => mesh := Solids.Quad(p);
    case Box => mesh := Solids.Box(p);
    case Tetrahedron => mesh := Solids.Tetrahedron(p);
    case Icosahedron => mesh := Icosahedra.Icosahedron(p, math);
    case Cylinder => mesh := Revolution.Cylinder(p, math);
    case Cone => mesh := Revolution.Cone(p, math);
    case UVSphere => mesh := Grids.UVSphere(p, math);
    case Torus => mesh := Grids.Torus(p, math);
  }
}
