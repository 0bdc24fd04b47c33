/** What every generator reads: the named parameters, and the numeric
    library calls whose results the model does not interpret. */
module MeshParams {
  import opened Meshes

  /** A parameter value; generators read either an integer or a float. */
  datatype MeshParameter = IntParam(intValue: int) | FloatParam(floatValue: real)

  type MeshParameters = map<string, MeshParameter>

  const Height: string := "height"
  const InnerRadius: string := "inner-radius"
  const Length: string := "length"
  const OuterRadius: string := "outer-radius"
  const Radius: string := "radius"
  const Resolution: string := "resolution"
  const Subdivisions: string := "subdivisions"
  const USamples: string := "u-samples"
  const VSamples: string := "v-samples"
  const Width: string := "width"
  const XScale: string := "x-scale"
  const YScale: string := "y-scale"
  const ZScale: string := "z-scale"

  /** `params.at(key).get<float>()` is defined: the key is present and holds a float. */
  predicate HasFloat(p: MeshParameters, key: string) {
    key in p && p[key].FloatParam?
  }

  predicate HasInt(p: MeshParameters, key: string) {
    key in p && p[key].IntParam?
  }

  function FloatAt(p: MeshParameters, key: string): real
    requires HasFloat(p, key)
  {
    p[key].floatValue
  }

  function IntAt(p: MeshParameters, key: string): int
    requires HasInt(p, key)
  {
    p[key].intValue
  }

  /** The library calls the generators make; their values are left
      uninterpreted. */
  datatype MathLib = MathLib(
    fastSin: real -> real,
    fastCos: real -> real,
    sqrt: real -> real,
    normalize: Vec3 -> Vec3)

  /** `M_PI`. */
  const Pi: real := 3.14159265358979323846

  /** Sample `i` of `n` as an angle: the fraction `i / n` of a full turn. */
  function Angle(i: int, n: int): real
    requires n > 0
  {
    (i as real / n as real) * (2.0 * Pi)
  }

  /** `std::max` on integers. */
  function Max(a: int, b: int): int {
    if a < b then b else a
  }
}
