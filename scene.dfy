/**
 * The rejection-sampling scene generator (`SetUpScene`): one pass over
 * `SpheresMax` candidate slots; a candidate that overlaps an accepted sphere
 * is skipped and never retried.
 *
 * UnityEngine.Random is modelled as a sequence of draws: the k-th call to the
 * random source, whatever its kind, is answered by `draws[k]`, read as a
 * uniform value, a point in the unit disk or an HSV colour in RGB. A slot
 * consumes at most five draws, so `SpheresMax` slots need at most
 * `DrawsNeeded(SpheresMax)` of them; draws beyond those consumed do not
 * matter (`SceneIgnoresLaterDraws`).
 */
module SceneGen {
  import opened Numerics
  import opened Geometry
  import opened Materials

  /** The inspector fields `SphereRadius` (x to y), `SpheresMax` and `SpherePlacementRadius`. */
  datatype Config = Config(sphereRadius: Vec2, spheresMax: uint32, spherePlacementRadius: real)

  datatype Draw = Draw(value: real, insideUnitCircle: Vec2, colorHSV: Vec3)

  /** The most draws one slot consumes: radius, position, colour, metal and glass decisions. */
  const MaxDrawsPerSlot: nat := 5

  function DrawsNeeded(slots: nat): nat {
    MaxDrawsPerSlot * slots
  }

  /** What Unity's random source guarantees of each answer. */
  predicate ValidDraw(d: Draw) {
    && 0.0 <= d.value <= 1.0
    && SqrMagnitude2(d.insideUnitCircle) <= 1.0
    && InUnitCube(d.colorHSV)
  }

  predicate AllValid(draws: seq<Draw>) {
    forall k :: 0 <= k < |draws| ==> ValidDraw(draws[k])
  }

  /** The 52-byte `Sphere` struct uploaded to the kernel. */
  datatype Sphere = Sphere(position: Vec3, radius: real, albedo: Vec3, specular: Vec3, refraction: Vec3)

  /** The radius drawn from one uniform value `u`, as on line 80. */
  function RadiusOf(sphereRadius: Vec2, u: real): real {
    sphereRadius.x + u * (sphereRadius.y - sphereRadius.x)
  }

  /** A draw in [0, 1] gives a radius between the two ends, in whichever order they are given. */
  lemma RadiusInRange(sphereRadius: Vec2, u: real)
    requires 0.0 <= u <= 1.0
    ensures var r, lo, hi := RadiusOf(sphereRadius, u), sphereRadius.x, sphereRadius.y;
      (lo <= r <= hi) || (hi <= r <= lo)
  {
    var lo, hi := sphereRadius.x, sphereRadius.y;
    var e := if lo <= hi then hi - lo else lo - hi;
    MulNonneg(u, e);
    MulNonneg(1.0 - u, e);
    assert (1.0 - u) * e == e - u * e;
    assert u * (hi - lo) == if lo <= hi then u * e else -(u * e);
  }

  /** The ground position drawn from a point of the unit disk, as on line 81. */
  function PlacementOf(placementRadius: real, p: Vec2): (q: Vec2)
    ensures SqrMagnitude2(p) <= 1.0 ==> SqrMagnitude2(q) <= placementRadius * placementRadius
  {
    assert SqrMagnitude2(p) <= 1.0 ==> SqrMagnitude2(Scale2(placementRadius, p)) <= placementRadius * placementRadius by {
      if SqrMagnitude2(p) <= 1.0 {
        ScaledDisk(placementRadius, p);
      }
    }
    Scale2(placementRadius, p)
  }

  /** A candidate before its material is chosen: it rests on the ground, so its height is its radius. */
  function Candidate(cfg: Config, radiusDraw: real, diskDraw: Vec2): (s: Sphere)
    ensures s.position.y == s.radius
    ensures s.radius == RadiusOf(cfg.sphereRadius, radiusDraw)
    ensures Horizontal(s.position) == PlacementOf(cfg.spherePlacementRadius, diskDraw)
  {
    var radius := RadiusOf(cfg.sphereRadius, radiusDraw);
    var p := PlacementOf(cfg.spherePlacementRadius, diskDraw);
    Sphere(Vec3(p.x, radius, p.y), radius, Zero, Zero, Zero)
  }

  function Dress(s: Sphere, surface: Surface): Sphere {
    s.(albedo := surface.albedo, specular := surface.specular, refraction := surface.refraction)
  }

  /** The rejection test: centres closer than the sum of the radii (touching is allowed). */
  predicate Overlaps(candidate: Sphere, other: Sphere) {
    var minDist := candidate.radius + other.radius;
    SqrMagnitude(Sub(candidate.position, other.position)) < minDist * minDist
  }

  predicate Clear(candidate: Sphere, placed: seq<Sphere>) {
    forall k :: 0 <= k < |placed| ==> !Overlaps(candidate, placed[k])
  }

  /** No two spheres of the scene overlap, in either order. */
  predicate Separated(spheres: seq<Sphere>) {
    forall i, j :: 0 <= i < |spheres| && 0 <= j < |spheres| && i != j ==> !Overlaps(spheres[i], spheres[j])
  }

  /** The accepted spheres so far and the number of random draws consumed. */
  datatype Generation = Generation(spheres: seq<Sphere>, used: nat)

  /** The candidate of the slot starting at draw `at`, from its radius and position draws. */
  function CandidateAt(cfg: Config, draws: seq<Draw>, at: nat): Sphere
    requires at + 2 <= |draws|
  {
    Candidate(cfg, draws[at].value, draws[at + 1].insideUnitCircle)
  }

  /** The material of the slot starting at draw `at`, from its metal and glass draws. */
  function MaterialAt(draws: seq<Draw>, at: nat): Material
    requires at + MaxDrawsPerSlot <= |draws|
  {
    Classify(draws[at + 3].value, draws[at + 4].value)
  }

  /** The candidate of the slot at `at` dressed in its colour draw and material, as it is appended when accepted. */
  function PlacedAt(cfg: Config, draws: seq<Draw>, at: nat): Sphere
    requires at + MaxDrawsPerSlot <= |draws|
  {
    Dress(CandidateAt(cfg, draws, at), SurfaceOf(MaterialAt(draws, at), draws[at + 2].colorHSV))
  }

  /**
   * One candidate slot starting at draw `g.used`, once the overlap test has
   * answered `clear`: a rejected candidate consumes its radius and position
   * draws only; an accepted one also draws a colour, the metal decision and,
   * if not metal, the glass decision. The only sphere a slot can add is its
   * own candidate, at the end.
   */
  function SlotGiven(cfg: Config, draws: seq<Draw>, g: Generation, clear: bool): (r: Generation)
    requires g.used + MaxDrawsPerSlot <= |draws|
    ensures g.used + 2 <= r.used <= g.used + MaxDrawsPerSlot
    ensures r.spheres == g.spheres || r.spheres == g.spheres + [PlacedAt(cfg, draws, g.used)]
  {
    var at := g.used;
    if !clear then
      Generation(g.spheres, at + 2)
    else
      Generation(g.spheres + [PlacedAt(cfg, draws, at)], at + if MaterialAt(draws, at) == Metal then 4 else 5)
  }

  /** One candidate slot: the overlap test against the spheres accepted so far decides. */
  function Slot(cfg: Config, draws: seq<Draw>, g: Generation): Generation
    requires g.used + MaxDrawsPerSlot <= |draws|
  {
    SlotGiven(cfg, draws, g, Clear(CandidateAt(cfg, draws, g.used), g.spheres))
  }

  /** The first `n` slots: they add at most one sphere each and consume two to five draws each. */
  function Generate(cfg: Config, draws: seq<Draw>, n: nat): (r: Generation)
    requires DrawsNeeded(n) <= |draws|
    ensures 2 * n <= r.used <= DrawsNeeded(n)
    ensures |r.spheres| <= n
  {
    if n == 0 then Generation([], 0) else Slot(cfg, draws, Generate(cfg, draws, n - 1))
  }

  /** The scene `SetUpScene` builds: all `SpheresMax` slots. */
  function Scene(cfg: Config, draws: seq<Draw>): seq<Sphere>
    requires DrawsNeeded(cfg.spheresMax as nat) <= |draws|
  {
    Generate(cfg, draws, cfg.spheresMax as nat).spheres
  }

  /**
   * A sphere as the generator leaves it: resting on the ground inside the
   * placement disk, radius and colour drawn in range, one of the three
   * material formulas.
   */
  predicate WellPlaced(cfg: Config, s: Sphere) {
    var lo, hi := cfg.sphereRadius.x, cfg.sphereRadius.y;
    && s.position.y == s.radius
    && SqrMagnitude2(Horizontal(s.position)) <= cfg.spherePlacementRadius * cfg.spherePlacementRadius
    && ((lo <= s.radius <= hi) || (hi <= s.radius <= lo))
    && InUnitCube(s.albedo) && InUnitCube(s.specular) && InUnitCube(s.refraction)
    && (|| (s.albedo == Zero && s.refraction == Zero)
        || (s.albedo == Scale(GlassAlbedoFactor, s.specular) && s.refraction == s.specular)
        || (s.specular == DielectricSpecular && s.refraction == Zero))
  }

  predicate AllWellPlaced(cfg: Config, spheres: seq<Sphere>) {
    forall i :: 0 <= i < |spheres| ==> WellPlaced(cfg, spheres[i])
  }

  // ---------------------------------------------------------------------------
  // One slot

  /** With the overlap test's answer given, a slot adds a sphere exactly when the answer is "clear". */
  lemma SlotGivenAddsIff(cfg: Config, draws: seq<Draw>, g: Generation, clear: bool)
    requires g.used + MaxDrawsPerSlot <= |draws|
    ensures |SlotGiven(cfg, draws, g, clear).spheres| == |g.spheres| + 1 <==> clear
    ensures !clear ==> SlotGiven(cfg, draws, g, clear) == Generation(g.spheres, g.used + 2)
  {
  }

  /**
   * A slot adds a sphere exactly when its candidate overlaps none of the
   * spheres already accepted; a rejected candidate costs its two draws and
   * nothing else.
   */
  lemma SlotAddsIffClear(cfg: Config, draws: seq<Draw>, g: Generation)
    requires g.used + MaxDrawsPerSlot <= |draws|
    ensures var clear := Clear(CandidateAt(cfg, draws, g.used), g.spheres);
      && (|Slot(cfg, draws, g).spheres| == |g.spheres| + 1 <==> clear)
      && (!clear ==> Slot(cfg, draws, g) == Generation(g.spheres, g.used + 2))
  {
    SlotGivenAddsIff(cfg, draws, g, Clear(CandidateAt(cfg, draws, g.used), g.spheres));
  }

  /** An accepted candidate is placed only where it overlaps none of the earlier spheres, so separation is kept. */
  lemma SlotKeepsSeparated(cfg: Config, draws: seq<Draw>, g: Generation)
    requires g.used + MaxDrawsPerSlot <= |draws|
    requires Separated(g.spheres)
    ensures Separated(Slot(cfg, draws, g).spheres)
  {
    var candidate := CandidateAt(cfg, draws, g.used);
    if Clear(candidate, g.spheres) {
      AppendClearKeepsSeparated(g.spheres, candidate, PlacedAt(cfg, draws, g.used));
    }
  }

  /** Overlapping depends only on position and radius, and does not depend on the order of the pair. */
  lemma OverlapsSymmetric(a: Sphere, b: Sphere, a2: Sphere)
    requires a2.position == a.position && a2.radius == a.radius
    ensures Overlaps(a2, b) == Overlaps(a, b) && Overlaps(b, a2) == Overlaps(a, b)
  {
    SqrDistanceSymmetric(a.position, b.position);
  }

  /** Appending a sphere at the place and size of a clear candidate keeps a separated scene separated. */
  lemma AppendClearKeepsSeparated(prev: seq<Sphere>, candidate: Sphere, placed: Sphere)
    requires Separated(prev) && Clear(candidate, prev)
    requires placed.position == candidate.position && placed.radius == candidate.radius
    ensures Separated(prev + [placed])
  {
    var n := |prev|;
    var s := prev + [placed];
    forall i, j | 0 <= i < |s| && 0 <= j < |s| && i != j
      ensures !Overlaps(s[i], s[j])
    {
      if j == n {
        assert s[i] == prev[i] && s[j] == placed;
        assert !Overlaps(candidate, prev[i]);
        OverlapsSymmetric(candidate, prev[i], placed);
      } else if i == n {
        assert s[i] == placed && s[j] == prev[j];
        assert !Overlaps(candidate, prev[j]);
        OverlapsSymmetric(candidate, prev[j], placed);
      } else {
        assert s[i] == prev[i] && s[j] == prev[j];
      }
    }
  }

  /** Whatever the overlap test answers, a slot keeps every sphere well placed if its draws are valid. */
  lemma SlotWellPlaced(cfg: Config, draws: seq<Draw>, g: Generation, clear: bool)
    requires g.used + MaxDrawsPerSlot <= |draws|
    requires AllWellPlaced(cfg, g.spheres)
    requires ValidDraw(draws[g.used]) && ValidDraw(draws[g.used + 1]) && ValidDraw(draws[g.used + 2])
    ensures AllWellPlaced(cfg, SlotGiven(cfg, draws, g, clear).spheres)
  {
    var placed := PlacedAt(cfg, draws, g.used);
    if SlotGiven(cfg, draws, g, clear).spheres != g.spheres {
      AcceptedWellPlaced(cfg, draws, g.used);
      AppendWellPlaced(cfg, g.spheres, placed);
    }
  }

  lemma AppendWellPlaced(cfg: Config, prev: seq<Sphere>, s: Sphere)
    requires AllWellPlaced(cfg, prev) && WellPlaced(cfg, s)
    ensures AllWellPlaced(cfg, prev + [s])
  {
    var all := prev + [s];
    forall i | 0 <= i < |all| ensures WellPlaced(cfg, all[i]) {
      if i < |prev| {
        assert all[i] == prev[i];
      }
    }
  }

  lemma AcceptedWellPlaced(cfg: Config, draws: seq<Draw>, at: nat)
    requires at + MaxDrawsPerSlot <= |draws|
    requires ValidDraw(draws[at]) && ValidDraw(draws[at + 1]) && ValidDraw(draws[at + 2])
    ensures WellPlaced(cfg, PlacedAt(cfg, draws, at))
  {
    RadiusInRange(cfg.sphereRadius, draws[at].value);
    match MaterialAt(draws, at)
    case Metal =>
    case Glass =>
    case Diffuse =>
  }

  /** A slot reads no draw beyond those it consumes: two draw sequences agreeing on those give the same slot. */
  lemma SlotDependsOnConsumedDraws(cfg: Config, d1: seq<Draw>, d2: seq<Draw>, g: Generation)
    requires g.used + MaxDrawsPerSlot <= |d1| && g.used + MaxDrawsPerSlot <= |d2|
    requires forall k :: g.used <= k < Slot(cfg, d1, g).used ==> d1[k] == d2[k]
    ensures Slot(cfg, d1, g) == Slot(cfg, d2, g)
  {
    var at := g.used;
    assert d1[at] == d2[at] && d1[at + 1] == d2[at + 1];
    assert CandidateAt(cfg, d1, at) == CandidateAt(cfg, d2, at);
    if Clear(CandidateAt(cfg, d1, at), g.spheres) {
      assert d1[at + 2] == d2[at + 2] && d1[at + 3] == d2[at + 3];
      if !(d1[at + 3].value < MetalThreshold) {
        assert d1[at + 4] == d2[at + 4];
      }
      assert PlacedAt(cfg, d1, at) == PlacedAt(cfg, d2, at);
    }
  }

  // ---------------------------------------------------------------------------
  // The whole pass

  /** Touching is allowed, overlapping is not: every pair of accepted spheres is at least the sum of their radii apart. */
  lemma {:induction false} GenerateSeparated(cfg: Config, draws: seq<Draw>, n: nat)
    requires DrawsNeeded(n) <= |draws|
    ensures Separated(Generate(cfg, draws, n).spheres)
  {
    if n > 0 {
      GenerateSeparated(cfg, draws, n - 1);
      SlotKeepsSeparated(cfg, draws, Generate(cfg, draws, n - 1));
    }
  }

  /** `later` is `earlier` after `slots` more slots: spheres only appended, at most one per slot, two to five draws per slot. */
  predicate Grown(earlier: Generation, later: Generation, slots: nat) {
    && |earlier.spheres| <= |later.spheres| && later.spheres[..|earlier.spheres|] == earlier.spheres
    && |later.spheres| - |earlier.spheres| <= slots
    && earlier.used + 2 * slots <= later.used <= earlier.used + MaxDrawsPerSlot * slots
  }

  lemma GenerateStep(cfg: Config, draws: seq<Draw>, n: nat)
    requires 0 < n && DrawsNeeded(n) <= |draws|
    ensures Grown(Generate(cfg, draws, n - 1), Generate(cfg, draws, n), 1)
  {
    var prev := Generate(cfg, draws, n - 1);
    assert prev.spheres <= prev.spheres + [PlacedAt(cfg, draws, prev.used)];
  }

  /** Slot `n` either keeps the spheres or appends the sphere its draws describe. */
  lemma GenerateAppends(cfg: Config, draws: seq<Draw>, n: nat)
    requires 0 < n && DrawsNeeded(n) <= |draws|
    ensures var prev := Generate(cfg, draws, n - 1);
      var spheres := Generate(cfg, draws, n).spheres;
      spheres == prev.spheres || spheres == prev.spheres + [PlacedAt(cfg, draws, prev.used)]
  {
  }

  lemma GrownStep(a: Generation, b: Generation, c: Generation, slots: nat)
    requires Grown(a, b, slots) && Grown(b, c, 1)
    ensures Grown(a, c, slots + 1)
  {
    PrefixTransitive(a.spheres, b.spheres, c.spheres);
  }

  lemma PrefixTransitive<T>(a: seq<T>, b: seq<T>, c: seq<T>)
    requires a <= b && b <= c
    ensures a <= c
  {
    assert forall i :: 0 <= i < |a| ==> a[i] == b[i] == c[i];
  }

  /** Later slots only append, so the spheres keep slot order; each slot adds at most one sphere and consumes two to five draws. */
  lemma {:induction false} GenerateGrows(cfg: Config, draws: seq<Draw>, m: nat, n: nat)
    requires m <= n && DrawsNeeded(n) <= |draws|
    ensures Grown(Generate(cfg, draws, m), Generate(cfg, draws, n), n - m)
  {
    if m < n {
      GenerateGrows(cfg, draws, m, n - 1);
      GenerateStep(cfg, draws, n);
      GrownStep(Generate(cfg, draws, m), Generate(cfg, draws, n - 1), Generate(cfg, draws, n), n - 1 - m);
    }
  }

  /**
   * `s` is the sphere accepted by slot `i` of the pass: the slot found `k`
   * spheres in place, accepted its candidate, and `s` is that candidate
   * dressed with the slot's own draws.
   */
  predicate AcceptedAt(cfg: Config, draws: seq<Draw>, s: Sphere, k: nat, i: nat)
    requires DrawsNeeded(i + 1) <= |draws|
  {
    var g := Generate(cfg, draws, i);
    && |g.spheres| == k
    && |Generate(cfg, draws, i + 1).spheres| == k + 1
    && s == PlacedAt(cfg, draws, g.used)
  }

  /** `s` was accepted by one of the first `n` slots, which found `k` spheres already in place. */
  predicate AcceptedBefore(cfg: Config, draws: seq<Draw>, s: Sphere, k: nat, n: nat)
    requires DrawsNeeded(n) <= |draws|
  {
    exists i :: 0 <= i < n && AcceptedAt(cfg, draws, s, k, i)
  }

  /** Every sphere of `spheres` was accepted by one of the first `n` slots, at its own index. */
  predicate FromSlots(cfg: Config, draws: seq<Draw>, spheres: seq<Sphere>, n: nat)
    requires DrawsNeeded(n) <= |draws|
  {
    forall k :: 0 <= k < |spheres| ==> AcceptedBefore(cfg, draws, spheres[k], k, n)
  }

  /**
   * Every sphere of the pass was accepted by a slot, in order: the `k`-th one
   * is the candidate of the slot that found exactly `k` spheres in place,
   * dressed with that slot's colour and material draws.
   */
  lemma {:induction false} GenerateFromSlots(cfg: Config, draws: seq<Draw>, n: nat)
    requires DrawsNeeded(n) <= |draws|
    ensures FromSlots(cfg, draws, Generate(cfg, draws, n).spheres, n)
  {
    if n > 0 {
      GenerateFromSlots(cfg, draws, n - 1);
      var prev := Generate(cfg, draws, n - 1);
      GenerateAppends(cfg, draws, n);
      if Generate(cfg, draws, n).spheres == prev.spheres {
        FromSlotsMore(cfg, draws, prev.spheres, n - 1);
      } else {
        assert AcceptedAt(cfg, draws, PlacedAt(cfg, draws, prev.used), |prev.spheres|, n - 1);
        FromSlotsAppend(cfg, draws, prev.spheres, PlacedAt(cfg, draws, prev.used), n - 1);
      }
    }
  }

  lemma FromSlotsMore(cfg: Config, draws: seq<Draw>, spheres: seq<Sphere>, n: nat)
    requires DrawsNeeded(n + 1) <= |draws|
    requires FromSlots(cfg, draws, spheres, n)
    ensures FromSlots(cfg, draws, spheres, n + 1)
  {
    forall k | 0 <= k < |spheres| ensures AcceptedBefore(cfg, draws, spheres[k], k, n + 1) {
      var i :| 0 <= i < n && AcceptedAt(cfg, draws, spheres[k], k, i);
    }
  }

  lemma FromSlotsAppend(cfg: Config, draws: seq<Draw>, spheres: seq<Sphere>, s: Sphere, n: nat)
    requires DrawsNeeded(n + 1) <= |draws|
    requires FromSlots(cfg, draws, spheres, n)
    requires AcceptedAt(cfg, draws, s, |spheres|, n)
    ensures FromSlots(cfg, draws, spheres + [s], n + 1)
  {
    var all := spheres + [s];
    forall k | 0 <= k < |all| ensures AcceptedBefore(cfg, draws, all[k], k, n + 1) {
      if k < |spheres| {
        assert all[k] == spheres[k];
        var i :| 0 <= i < n && AcceptedAt(cfg, draws, spheres[k], k, i);
      } else {
        assert AcceptedAt(cfg, draws, all[k], k, n);
      }
    }
  }

  /** The first candidate has nothing to collide with, so the scene is empty exactly when `SpheresMax` is 0. */
  lemma SceneEmptyIff(cfg: Config, draws: seq<Draw>)
    requires DrawsNeeded(cfg.spheresMax as nat) <= |draws|
    ensures |Scene(cfg, draws)| == 0 <==> cfg.spheresMax == 0
  {
    if cfg.spheresMax > 0 {
      GenerateGrows(cfg, draws, 1, cfg.spheresMax as nat);
    }
  }

  /** With draws that Unity's random source can produce, every accepted sphere is well placed. */
  lemma {:induction false} GenerateWellPlaced(cfg: Config, draws: seq<Draw>, n: nat)
    requires DrawsNeeded(n) <= |draws| && AllValid(draws)
    ensures AllWellPlaced(cfg, Generate(cfg, draws, n).spheres)
  {
    if n > 0 {
      GenerateWellPlaced(cfg, draws, n - 1);
      var prev := Generate(cfg, draws, n - 1);
      SlotWellPlaced(cfg, draws, prev, Clear(CandidateAt(cfg, draws, prev.used), prev.spheres));
    }
  }

  /**
   * The scene is a function of the draws it consumed: two sequences that
   * agree on the first `used` draws give the same spheres and consume the same
   * number of draws. Hence a fixed seed always yields the same scene.
   */
  lemma {:induction false} GenerateDependsOnConsumedDraws(cfg: Config, d1: seq<Draw>, d2: seq<Draw>, n: nat)
    requires DrawsNeeded(n) <= |d1| && DrawsNeeded(n) <= |d2|
    requires forall k :: 0 <= k < Generate(cfg, d1, n).used ==> d1[k] == d2[k]
    ensures Generate(cfg, d1, n) == Generate(cfg, d2, n)
  {
    if n > 0 {
      GenerateDependsOnConsumedDraws(cfg, d1, d2, n - 1);
      SlotDependsOnConsumedDraws(cfg, d1, d2, Generate(cfg, d1, n - 1));
    }
  }

  /** Draws beyond the ones the slots need never change the scene. */
  lemma SceneIgnoresLaterDraws(cfg: Config, draws: seq<Draw>, later: seq<Draw>)
    requires DrawsNeeded(cfg.spheresMax as nat) <= |draws|
    ensures Scene(cfg, draws + later) == Scene(cfg, draws)
  {
    GenerateDependsOnConsumedDraws(cfg, draws, draws + later, cfg.spheresMax as nat);
  }

  // ---------------------------------------------------------------------------
  // The loops of SetUpScene

  /** The inner `foreach` with its `goto SkipSphere`: stops at the first overlap. */
  method IsClear(candidate: Sphere, placed: seq<Sphere>) returns (clear: bool)
    ensures clear <==> Clear(candidate, placed)
  {
    var k := 0;
    while k < |placed|
      invariant 0 <= k <= |placed|
      invariant forall j :: 0 <= j < k ==> !Overlaps(candidate, placed[j])
    {
      var other := placed[k];
      var minDist := candidate.radius + other.radius;
      if SqrMagnitude(Sub(candidate.position, other.position)) < minDist * minDist {
        return false;
      }
      k := k + 1;
    }
    return true;
  }

  /**
   * Lines 93-107: draw a colour and the metal decision, and only for a
   * non-metal the glass decision; returns the triple and the next unused draw.
   */
  method ChooseSurface(draws: seq<Draw>, at: nat) returns (surface: Surface, next: nat)
    requires at + 3 <= |draws|
    ensures var m := Classify(draws[at + 1].value, draws[at + 2].value);
      && surface == SurfaceOf(m, draws[at].colorHSV)
      && next == at + if m == Metal then 2 else 3
  {
    var color := draws[at].colorHSV;
    var metal := draws[at + 1].value < MetalThreshold;
    var m: Material;
    if !metal {
      var glassy := draws[at + 2].value < GlassThreshold;
      m := if glassy then Glass else Diffuse;
      next := at + 3;
    } else {
      m := Metal;
      next := at + 2;
    }
    surface := SurfaceOf(m, color);
  }

  /** One iteration of the outer loop: draw a candidate, test it, and append it dressed if it is clear. */
  method PlaceCandidate(cfg: Config, draws: seq<Draw>, spheres: seq<Sphere>, used: nat)
    returns (next: seq<Sphere>, nextUsed: nat)
    requires used + MaxDrawsPerSlot <= |draws|
    ensures Generation(next, nextUsed) == Slot(cfg, draws, Generation(spheres, used))
  {
    var sphere := Candidate(cfg, draws[used].value, draws[used + 1].insideUnitCircle);
    var clear := IsClear(sphere, spheres);
    if clear {
      var surface;
      surface, nextUsed := ChooseSurface(draws, used + 2);
      next := spheres + [Dress(sphere, surface)];
    } else {
      next, nextUsed := spheres, used + 2;
    }
    assert Generation(next, nextUsed) == SlotGiven(cfg, draws, Generation(spheres, used), clear);
  }

  /** The outer `for` loop of `SetUpScene`, building the list of accepted spheres. */
  method BuildSpheres(cfg: Config, draws: seq<Draw>) returns (spheres: seq<Sphere>)
    requires DrawsNeeded(cfg.spheresMax as nat) <= |draws|
    ensures spheres == Scene(cfg, draws)
    ensures Separated(spheres)
    ensures |spheres| <= cfg.spheresMax as int
  {
    spheres := [];
    var used: nat := 0;
    var i := 0;
    while i < cfg.spheresMax as nat
      invariant 0 <= i <= cfg.spheresMax as nat
      invariant Generate(cfg, draws, i) == Generation(spheres, used)
    {
      spheres, used := PlaceCandidate(cfg, draws, spheres, used);
      i := i + 1;
    }
    GenerateSeparated(cfg, draws, i);
  }
}
