/**
 * The three sphere materials of the scene generator. The material has no tag
 * of its own: the kernel only sees the albedo/specular/refraction triple.
 */
module Materials {
  import opened Geometry

  datatype Material = Metal | Glass | Diffuse

  /** What the kernel receives for one sphere's material. */
  datatype Surface = Surface(albedo: Vec3, specular: Vec3, refraction: Vec3)

  /** A first draw below this makes the sphere metal. */
  const MetalThreshold: real := 0.2
  /** For a non-metal, a second draw below this makes it glass. */
  const GlassThreshold: real := 0.5
  /** Fixed specular reflectance of a diffuse sphere. */
  const DielectricSpecular: Vec3 := Vec3(0.04, 0.04, 0.04)
  /** A glass sphere's albedo is its colour dimmed by this factor. */
  const GlassAlbedoFactor: real := 0.1

  /**
   * The nested decision: `metalDraw` alone decides Metal; the second draw
   * is read (and consumed) only for a non-metal.
   */
  function Classify(metalDraw: real, glassDraw: real): Material {
    if metalDraw < MetalThreshold then Metal
    else if glassDraw < GlassThreshold then Glass
    else Diffuse
  }

  /** The triple written for a material of colour `color`. */
  function SurfaceOf(m: Material, color: Vec3): (s: Surface)
    ensures InUnitCube(color) ==>
      InUnitCube(s.albedo) && InUnitCube(s.specular) && InUnitCube(s.refraction)
    ensures s.refraction == Zero || s.refraction == color
  {
    match m
    case Metal => Surface(Zero, color, Zero)
    case Glass => Surface(Scale(GlassAlbedoFactor, color), color, color)
    case Diffuse => Surface(color, DielectricSpecular, Zero)
  }

  /**
   * How a consumer of the triple tells the materials apart: only glass
   * refracts, and of the two that do not, only a diffuse sphere has an albedo.
   */
  function InferMaterial(s: Surface): Material {
    if s.refraction != Zero then Glass
    else if s.albedo != Zero then Diffuse
    else Metal
  }

  /** For any colour other than black the material can be read back from the triple. */
  lemma {:induction false} SurfaceRoundTrip(m: Material, color: Vec3)
    requires color != Zero
    ensures InferMaterial(SurfaceOf(m, color)) == m
  {
    match m
    case Metal =>
    case Glass =>
    case Diffuse =>
  }

  /**
   * Without a tag the encoding is lossy: a black metal sphere and a black
   * glass sphere receive the same triple, and so do a metal sphere of
   * colour (0.04, 0.04, 0.04) and a black diffuse one.
   */
  lemma BlackIsAmbiguous()
    ensures SurfaceOf(Metal, Zero) == SurfaceOf(Glass, Zero)
    ensures SurfaceOf(Metal, DielectricSpecular) == SurfaceOf(Diffuse, Zero)
  {
  }
}
