/**
 * The CPU side of the progressive ray tracer: the component that builds the
 * sphere scene when it is enabled, and that keeps the accumulation counter,
 * resetting it whenever the accumulated image no longer matches the view.
 *
 * Unity calls the handlers (OnEnable, Update, then Render from
 * OnRenderImage, once per frame); here the caller sequences them. Engine
 * inputs are parameters: the random draws, the camera's field of view and
 * the screen size.
 */
module RayTracing {
  import opened Numerics
  import opened Geometry
  import opened SceneGen
  import opened Accumulation
  import opened Engine

  class RayTracingMaster {
    var cfg: Config
    var lastFieldOfView: real
    var target: RenderTexture?
    var currentSample: uint32
    var sphereBuffer: ComputeBuffer?<Sphere>
    var transformsToWatch: seq<Transform>

    /** The render target the component holds has not been released. */
    ghost predicate Valid()
      reads this, target
    {
      target != null ==> !target.released
    }

    /** Field initialisers and `Awake`: watch the camera's and the light's transforms. */
    constructor (cfg: Config, cameraTransform: Transform, lightTransform: Transform)
      ensures Valid()
      ensures this.cfg == cfg && transformsToWatch == [cameraTransform, lightTransform]
      ensures currentSample == 0 && lastFieldOfView == 0.0
      ensures target == null && sphereBuffer == null
    {
      this.cfg := cfg;
      lastFieldOfView := 0.0;
      target := null;
      currentSample := 0;
      sphereBuffer := null;
      transformsToWatch := [cameraTransform, lightTransform];
    }

    /**
     * Re-enabling starts accumulation afresh and regenerates the whole scene,
     * through `SetUpSceneAsWritten`: an empty scene leaves the previous,
     * released buffer in the field.
     */
    method OnEnable(draws: seq<Draw>)
      requires DrawsNeeded(cfg.spheresMax as nat) <= |draws|
      requires Valid()
      modifies this`currentSample, this`sphereBuffer, sphereBuffer
      ensures Valid()
      ensures currentSample == 0
      ensures old(sphereBuffer) != null ==>
        old(sphereBuffer).released &&
        old(sphereBuffer).count == old(sphereBuffer.count) &&
        old(sphereBuffer).data == old(sphereBuffer.data)
      ensures var scene := Scene(cfg, draws);
        && (|scene| > 0 ==>
              sphereBuffer != null && fresh(sphereBuffer) && !sphereBuffer.released &&
              sphereBuffer.count == |scene| && sphereBuffer.data == scene)
        && (|scene| == 0 ==> sphereBuffer == old(sphereBuffer))
    {
      currentSample := 0;
      SetUpSceneAsWritten(draws);
    }

    /** `OnEnable` with the buffer handling of `SetUpSceneCorrected`. */
    method OnEnableCorrected(draws: seq<Draw>)
      requires DrawsNeeded(cfg.spheresMax as nat) <= |draws|
      requires Valid()
      modifies this`currentSample, this`sphereBuffer, sphereBuffer
      ensures Valid()
      ensures currentSample == 0
      ensures old(sphereBuffer) != null ==>
        old(sphereBuffer).released &&
        old(sphereBuffer).count == old(sphereBuffer.count) &&
        old(sphereBuffer).data == old(sphereBuffer.data)
      ensures var scene := Scene(cfg, draws);
        && (sphereBuffer != null <==> |scene| > 0)
        && (sphereBuffer != null ==>
              fresh(sphereBuffer) && !sphereBuffer.released &&
              sphereBuffer.count == |scene| && sphereBuffer.data == scene)
    {
      currentSample := 0;
      SetUpSceneCorrected(draws);
    }

    method OnDisable()
      modifies sphereBuffer
      ensures sphereBuffer != null ==>
        sphereBuffer.released &&
        sphereBuffer.count == old(sphereBuffer.count) &&
        sphereBuffer.data == old(sphereBuffer.data)
    {
      if sphereBuffer != null {
        sphereBuffer.Release();
      }
    }

    /**
     * Polls the view once per frame: a changed field of view or any watched
     * transform whose flag is set resets the counter; every flag is consumed.
     */
    method Update(fieldOfView: real)
      requires Valid()
      modifies this`currentSample, this`lastFieldOfView, transformsToWatch
      ensures Valid()
      ensures lastFieldOfView == fieldOfView
      ensures forall t :: t in transformsToWatch ==> !t.hasChanged
      ensures currentSample ==
        if old(lastFieldOfView) != fieldOfView || exists t :: t in transformsToWatch && old(t.hasChanged)
        then 0 else old(currentSample)
    {
      if fieldOfView != lastFieldOfView {
        currentSample := 0;
        lastFieldOfView := fieldOfView;
      }
      ghost var fovChanged := old(lastFieldOfView) != fieldOfView;
      var i := 0;
      while i < |transformsToWatch|
        invariant 0 <= i <= |transformsToWatch|
        invariant lastFieldOfView == fieldOfView
        invariant forall k :: 0 <= k < i ==> !transformsToWatch[k].hasChanged
        invariant forall k :: i <= k < |transformsToWatch| ==>
          transformsToWatch[k].hasChanged ==
            (old(transformsToWatch[k].hasChanged) && transformsToWatch[k] !in transformsToWatch[..i])
        invariant currentSample ==
          if fovChanged || exists k :: 0 <= k < i && old(transformsToWatch[k].hasChanged)
          then 0 else old(currentSample)
      {
        var t := transformsToWatch[i];
        if t.hasChanged {
          currentSample := 0;
          t.hasChanged := false;
        }
        i := i + 1;
      }
    }

    /**
     * `SetUpSceneAsWritten` with the field cleared once the old buffer is
     * released: an empty scene leaves no buffer at all, so none is bound to
     * the kernel.
     */
    method SetUpSceneCorrected(draws: seq<Draw>)
      requires DrawsNeeded(cfg.spheresMax as nat) <= |draws|
      modifies this`sphereBuffer, sphereBuffer
      ensures old(sphereBuffer) != null ==>
        old(sphereBuffer).released &&
        old(sphereBuffer).count == old(sphereBuffer.count) &&
        old(sphereBuffer).data == old(sphereBuffer.data)
      ensures var scene := Scene(cfg, draws);
        && (sphereBuffer != null <==> |scene| > 0)
        && (sphereBuffer != null ==>
              fresh(sphereBuffer) && !sphereBuffer.released &&
              sphereBuffer.count == |scene| && sphereBuffer.data == scene)
      ensures sphereBuffer != null ==>
        Separated(sphereBuffer.data) && sphereBuffer.count <= cfg.spheresMax as int
    {
      var spheres := BuildSpheres(cfg, draws);
      if sphereBuffer != null {
        sphereBuffer.Release();
        sphereBuffer := null;
      }
      if |spheres| > 0 {
        sphereBuffer := new ComputeBuffer<Sphere>(|spheres|);
        sphereBuffer.SetData(spheres);
      }
    }

    /**
     * Builds the scene and uploads it, exactly as the source has it: the old
     * buffer is released but the field keeps referring to it, so an empty
     * scene leaves a released buffer in place.
     */
    method SetUpSceneAsWritten(draws: seq<Draw>)
      requires DrawsNeeded(cfg.spheresMax as nat) <= |draws|
      modifies this`sphereBuffer, sphereBuffer
      ensures old(sphereBuffer) != null ==>
        old(sphereBuffer).released &&
        old(sphereBuffer).count == old(sphereBuffer.count) &&
        old(sphereBuffer).data == old(sphereBuffer.data)
      ensures var scene := Scene(cfg, draws);
        && (|scene| > 0 ==>
              sphereBuffer != null && fresh(sphereBuffer) && !sphereBuffer.released &&
              sphereBuffer.count == |scene| && sphereBuffer.data == scene)
        && (|scene| == 0 ==> sphereBuffer == old(sphereBuffer))
    {
      var spheres := BuildSpheres(cfg, draws);
      if sphereBuffer != null {
        sphereBuffer.Release();
      }
      if |spheres| > 0 {
        sphereBuffer := new ComputeBuffer<Sphere>(|spheres|);
        sphereBuffer.SetData(spheres);
      }
    }

    /** The buffer `SetShaderParameters` binds to the kernel: whatever non-null handle the field holds. */
    function SceneBufferToBind(): ComputeBuffer?<Sphere>
      reads this
    {
      sphereBuffer
    }

    /**
     * Makes the target match the screen: a missing or wrongly sized target is
     * released, replaced and the counter reset; otherwise nothing changes.
     */
    method InitRenderTexture(screenWidth: int, screenHeight: int)
      requires Valid()
      modifies this`target, this`currentSample, target
      ensures Valid()
      ensures target != null && target.width == screenWidth && target.height == screenHeight
      ensures var stale := old(target) == null || old(target.width) != screenWidth || old(target.height) != screenHeight;
        && (stale ==> fresh(target) && currentSample == 0 && (old(target) != null ==> old(target).released))
        && (!stale ==> target == old(target) && currentSample == old(currentSample))
    {
      if target == null || target.width != screenWidth || target.height != screenHeight {
        if target != null {
          target.Release();
        }
        target := new RenderTexture(screenWidth, screenHeight);
        currentSample := 0;
      }
    }

    /**
     * One frame: reconcile the target, dispatch enough 8x8 thread groups to
     * cover the screen, hand the current count to the blend shader as its
     * sample weight, then count the frame.
     */
    method Render(screenWidth: int, screenHeight: int) returns (groupsX: int, groupsY: int, sample: uint32)
      requires Valid()
      modifies this`target, this`currentSample, target
      ensures Valid()
      ensures target != null && target.width == screenWidth && target.height == screenHeight
      ensures groupsX == ThreadGroups(screenWidth) && groupsY == ThreadGroups(screenHeight)
      ensures var stale := old(target) == null || old(target.width) != screenWidth || old(target.height) != screenHeight;
        && sample == (if stale then 0 else old(currentSample))
        && (stale ==> fresh(target) && (old(target) != null ==> old(target).released))
        && (!stale ==> target == old(target))
      ensures currentSample == Increment(sample)
    {
      InitRenderTexture(screenWidth, screenHeight);
      groupsX := CeilToInt(screenWidth as real / 8.0);
      groupsY := CeilToInt(screenHeight as real / 8.0);
      sample := currentSample;
      currentSample := Increment(currentSample);
    }
  }

  /** A scene of up to 100 spheres; it is never empty. */
  const Populated: Config := Config(Vec2(3.0, 8.0), 100, 100.0)

  /**
   * The source's buffer handling on a disable/enable cycle that ends with an
   * empty scene (`SpheresMax` set to 0 in between): the kernel is still
   * handed the released buffer.
   */
  method StaleBufferAfterEmptyScene(draws: seq<Draw>) returns (bound: ComputeBuffer?<Sphere>)
    requires DrawsNeeded(Populated.spheresMax as nat) <= |draws|
    ensures bound != null && bound.released
  {
    SceneEmptyIff(Populated, draws);
    SceneEmptyIff(Populated.(spheresMax := 0), draws);
    var camera := new Transform(false);
    var light := new Transform(false);
    var m := new RayTracingMaster(Populated, camera, light);
    m.OnEnable(draws);
    m.OnDisable();
    m.cfg := Populated.(spheresMax := 0);
    m.OnEnable(draws);
    bound := m.SceneBufferToBind();
  }

  /** The same cycle with the field cleared on release: nothing is bound. */
  method NoBufferAfterEmptyScene(draws: seq<Draw>) returns (bound: ComputeBuffer?<Sphere>)
    requires DrawsNeeded(Populated.spheresMax as nat) <= |draws|
    ensures bound == null
  {
    SceneEmptyIff(Populated.(spheresMax := 0), draws);
    var camera := new Transform(false);
    var light := new Transform(false);
    var m := new RayTracingMaster(Populated, camera, light);
    m.OnEnableCorrected(draws);
    m.OnDisable();
    m.cfg := Populated.(spheresMax := 0);
    m.OnEnableCorrected(draws);
    bound := m.SceneBufferToBind();
  }

  /**
   * Two frames with the same field of view and no transform moved in
   * between: the second `Update` leaves the accumulation counter alone.
   */
  method RepeatedUpdate(m: RayTracingMaster, fieldOfView: real) returns (first: uint32, second: uint32)
    requires m.Valid()
    modifies m`currentSample, m`lastFieldOfView, m.transformsToWatch
    ensures second == first
  {
    m.Update(fieldOfView);
    first := m.currentSample;
    m.Update(fieldOfView);
    second := m.currentSample;
  }
}
