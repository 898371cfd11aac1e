/**
 Aim-down-sights controller (ADS.cs).

 An aim key toggles `isAiming` on its key-down and key-up edges. Every frame
 the controller first reads those edges and then steers the camera's field of
 view and the weapon layer's local position toward either the aiming pose or
 the resting pose, each by one linear interpolation with the factor
 `deltaTime * smoothTime`.

 The engine's numerics are not modelled: `Mathf.Lerp`, `Vector3.Lerp`,
 `Vector3.Distance`, the camera projection `ScreenToWorldPoint` and the
 transform conversions are function values handed in by the caller, so every
 statement below holds whatever they compute.
 */
module AimDownSights {

  datatype Option<T> = None | Some(value: T)

  datatype Vec3 = Vec3(x: real, y: real, z: real) {
    function Plus(o: Vec3): Vec3 { Vec3(x + o.x, y + o.y, z + o.z) }
  }

  /** Engine numerics the controller calls, left uninterpreted. */
  datatype Engine = Engine(
    lerp: (real, real, real) -> real,     // Mathf.Lerp(from, to, t)
    lerpVec: (Vec3, Vec3, real) -> Vec3,  // Vector3.Lerp(from, to, t)
    distance: (Vec3, Vec3) -> real,       // Vector3.Distance
    applyFov: (real, real) -> real)       // the camera's FOV after FOVManager.ApplyFOV(value), given its FOV before

  /** What the host supplies to one frame's Update. */
  datatype Frame = Frame(
    keyDown: bool,                        // Input.GetKeyDown(ADSKey)
    keyUp: bool,                          // Input.GetKeyUp(ADSKey)
    deltaTime: real,                      // Time.deltaTime
    screenWidth: int,                     // Screen.width
    screenHeight: int,                    // Screen.height
    cameraPosition: Vec3,                 // _camera.transform.position
    parentToWorld: Vec3 -> Vec3,          // world position of a point in the weapon parent's space
    worldToParent: Vec3 -> Vec3,          // WeaponADSLayer.parent.InverseTransformPoint
    screenToWorld: (real, Vec3) -> Vec3)  // _camera.ScreenToWorldPoint, for the camera's current FOV

  /** The serialized tuning values. */
  datatype Config = Config(smoothTime: real, offsetX: real, offsetY: real, offsetZ: real, aimingFOV: real)

  /** The tuning values the component ships with, and its rest FOV before Start overwrites it. */
  const ShippedConfig := Config(10.0, 10.0, 10.0, 10.0, 30.0)
  const ShippedDefaultFOV := 60.0

  /** What the resting pose is made of: the rest FOV, the rest weapon position and, when an FOV manager exists, its slider value. */
  datatype Setup = Setup(defaultFOV: real, originalWeaponPosition: Vec3, manager: Option<real>)

  /** Camera field of view and weapon layer local position. */
  datatype Pose = Pose(fov: real, weaponPosition: Vec3)

  /** How this frame's FOV is set: interpolated toward a target, or handed to the FOV manager. */
  datatype FovControl = Interpolate(target: real) | Delegate(value: real)

  /** The aiming state after one frame's key edges; key-up is read second and wins. */
  function NextAiming(aiming: bool, keyDown: bool, keyUp: bool): (r: bool)
    ensures keyUp ==> !r
    ensures keyDown && !keyUp ==> r
    ensures !keyDown && !keyUp ==> r == aiming
  {
    var afterDown := if keyDown then true else aiming;
    if keyUp then false else afterDown
  }

  /** The interpolation factor every lerp of a frame uses. */
  function Factor(cfg: Config, f: Frame): real
  {
    f.deltaTime * cfg.smoothTime
  }

  /** The screen centre, projected at the weapon's distance from the camera, in the weapon parent's space. */
  function ProjectedCentre(e: Engine, f: Frame, fov: real, weaponPosition: Vec3): Vec3
  {
    var depth := e.distance(f.parentToWorld(weaponPosition), f.cameraPosition);
    var screenCentre := Vec3(f.screenWidth as real / 2.0, f.screenHeight as real / 2.0, 0.0);
    f.worldToParent(f.screenToWorld(fov, Vec3(screenCentre.x, screenCentre.y, depth)))
  }

  /** The weapon position enters the projection only through its distance from the camera. */
  lemma ProjectedCentreByDistance(e: Engine, f: Frame, fov: real, w1: Vec3, w2: Vec3)
    requires e.distance(f.parentToWorld(w1), f.cameraPosition) == e.distance(f.parentToWorld(w2), f.cameraPosition)
    ensures ProjectedCentre(e, f, fov, w1) == ProjectedCentre(e, f, fov, w2)
  {
  }

  /** The weapon target while aiming: the projected centre moved by the offsets, at local depth offsetZ whatever the projection gave. */
  function AimedTarget(cfg: Config, e: Engine, f: Frame, fov: real, weaponPosition: Vec3): (r: Vec3)
    ensures r.z == cfg.offsetZ
    ensures r.x == ProjectedCentre(e, f, fov, weaponPosition).x + cfg.offsetX
    ensures r.y == ProjectedCentre(e, f, fov, weaponPosition).y + cfg.offsetY
  {
    var shifted := ProjectedCentre(e, f, fov, weaponPosition).Plus(Vec3(cfg.offsetX, cfg.offsetY, cfg.offsetZ));
    shifted.(z := cfg.offsetZ)
  }

  /** Who sets the FOV this frame, and toward what. */
  function FovControlFor(cfg: Config, s: Setup, aiming: bool): (r: FovControl)
    ensures aiming ==> r == Interpolate(cfg.aimingFOV)
    ensures !aiming ==> (r.Delegate? <==> s.manager.Some?)
    ensures r.Delegate? ==> !aiming && r.value == s.manager.value
    ensures !aiming && s.manager.None? ==> r == Interpolate(s.defaultFOV)
  {
    if aiming then Interpolate(cfg.aimingFOV)
    else match s.manager
      case Some(slider) => Delegate(slider)
      case None => Interpolate(s.defaultFOV)
  }

  /** The values handed to the FOV manager's ApplyFOV this frame. */
  function ManagerCalls(cfg: Config, s: Setup, aiming: bool): (r: seq<real>)
    ensures r != [] <==> !aiming && s.manager.Some?
    ensures r != [] ==> r == [s.manager.value]
  {
    match FovControlFor(cfg, s, aiming)
    case Delegate(slider) => [slider]
    case Interpolate(_) => []
  }

  /**
   The pose after one frame of HandleAiming. Each part moves from where it is
   now (nothing snaps), by the same factor, toward the target of the current
   aiming state; when the manager has the FOV, the camera gets whatever
   ApplyFOV makes of the slider value.
   */
  function NextPose(cfg: Config, e: Engine, f: Frame, s: Setup, aiming: bool, pose: Pose): (r: Pose)
    ensures aiming ==> r.fov == e.lerp(pose.fov, cfg.aimingFOV, Factor(cfg, f))
    ensures aiming ==>
              r.weaponPosition
              == e.lerpVec(pose.weaponPosition, AimedTarget(cfg, e, f, r.fov, pose.weaponPosition), Factor(cfg, f))
    ensures !aiming && s.manager.Some? ==> r.fov == e.applyFov(pose.fov, s.manager.value)
    ensures !aiming && s.manager.None? ==> r.fov == e.lerp(pose.fov, s.defaultFOV, Factor(cfg, f))
    ensures !aiming ==> r.weaponPosition == e.lerpVec(pose.weaponPosition, s.originalWeaponPosition, Factor(cfg, f))
  {
    var t := Factor(cfg, f);
    var fov := match FovControlFor(cfg, s, aiming)
      case Interpolate(target) => e.lerp(pose.fov, target, t)
      case Delegate(slider) => e.applyFov(pose.fov, slider);
    var target := if aiming then AimedTarget(cfg, e, f, fov, pose.weaponPosition) else s.originalWeaponPosition;
    Pose(fov, e.lerpVec(pose.weaponPosition, target, t))
  }

  // ---------------------------------------------------------------------------
  // Engine objects the controller holds references to.

  class Camera {
    var fieldOfView: real

    constructor (fieldOfView: real)
      ensures this.fieldOfView == fieldOfView
    {
      this.fieldOfView := fieldOfView;
    }
  }

  class Transform {
    var localPosition: Vec3

    constructor (localPosition: Vec3)
      ensures this.localPosition == localPosition
    {
      this.localPosition := localPosition;
    }
  }

  /**
   The scene's FOV manager. The controller sees its slider value and calls
   ApplyFOV; what ApplyFOV does with the value is the engine's `applyFov`,
   applied to the camera the controller uses.
   */
  class FovManager {
    var sliderValue: real
    /** Every value passed to ApplyFOV, oldest first. */
    ghost var applied: seq<real>

    constructor (sliderValue: real)
      ensures this.sliderValue == sliderValue && applied == []
    {
      this.sliderValue := sliderValue;
      applied := [];
    }

    method ApplyFOV(value: real, camera: Camera, applyFov: (real, real) -> real)
      modifies this, camera
      ensures applied == old(applied) + [value]
      ensures sliderValue == old(sliderValue)
      ensures camera.fieldOfView == applyFov(old(camera.fieldOfView), value)
    {
      applied := applied + [value];
      camera.fieldOfView := applyFov(camera.fieldOfView, value);
    }
  }

  class ADS {
    const weaponADSLayer: Transform
    var camera: Camera?
    const config: Config
    var isAiming: bool
    var defaultFOV: real
    var fovManager: FovManager?
    var originalWeaponPosition: Vec3

    /** The component as the engine creates it from its serialized fields, before Start. */
    constructor (weaponADSLayer: Transform, camera: Camera?, config: Config, defaultFOV: real, fovManager: FovManager?)
      ensures this.weaponADSLayer == weaponADSLayer && this.camera == camera && this.config == config
      ensures this.defaultFOV == defaultFOV && this.fovManager == fovManager
      ensures !isAiming && originalWeaponPosition == Vec3(0.0, 0.0, 0.0)
    {
      this.weaponADSLayer := weaponADSLayer;
      this.camera := camera;
      this.config := config;
      this.defaultFOV := defaultFOV;
      this.fovManager := fovManager;
      isAiming := false;
      originalWeaponPosition := Vec3(0.0, 0.0, 0.0);
    }

    /** The component with the values it ships with, as added to a game object. */
    constructor Shipped(weaponADSLayer: Transform, camera: Camera?)
      ensures this.weaponADSLayer == weaponADSLayer && this.camera == camera
      ensures config == Config(10.0, 10.0, 10.0, 10.0, 30.0) && defaultFOV == 60.0 && fovManager == null
      ensures !isAiming && originalWeaponPosition == Vec3(0.0, 0.0, 0.0)
    {
      this.weaponADSLayer := weaponADSLayer;
      this.camera := camera;
      config := ShippedConfig;
      defaultFOV := ShippedDefaultFOV;
      fovManager := null;
      isAiming := false;
      originalWeaponPosition := Vec3(0.0, 0.0, 0.0);
    }

    /** The resting pose's ingredients as the fields hold them now. */
    function CurrentSetup(): (r: Setup)
      reads this, fovManager
      ensures r.defaultFOV == defaultFOV && r.originalWeaponPosition == originalWeaponPosition
      ensures r.manager.Some? <==> fovManager != null
      ensures fovManager != null ==> r.manager.value == fovManager.sliderValue
    {
      Setup(defaultFOV, originalWeaponPosition, if fovManager == null then None else Some(fovManager.sliderValue))
    }

    /** The aiming state, the pose and the ApplyFOV log (empty without a manager) as they are now. */
    ghost function Observed(): AdsState
      requires camera != null
      reads this, camera, weaponADSLayer, fovManager
    {
      AdsState(isAiming, Pose(camera.fieldOfView, weaponADSLayer.localPosition),
               if fovManager == null then [] else fovManager.applied)
    }

    /**
     Captures the camera found in the parent, the weapon's rest position and the
     camera's FOV as the rest FOV, stops aiming, and records the scene's FOV
     manager, if any.
     */
    method Start(parentCamera: Camera, manager: FovManager?)
      modifies this
      ensures camera == parentCamera && fovManager == manager
      ensures originalWeaponPosition == weaponADSLayer.localPosition
      ensures defaultFOV == parentCamera.fieldOfView
      ensures !isAiming
    {
      camera := parentCamera;
      originalWeaponPosition := weaponADSLayer.localPosition;
      defaultFOV := camera.fieldOfView;
      UpdateAiming(false);
      fovManager := manager;
    }

    method UpdateAiming(aiming: bool)
      modifies this`isAiming
      ensures isAiming == aiming
    {
      isAiming := aiming;
    }

    /** Reads the aim key's edges: key-down starts aiming, then key-up stops it. */
    method MyInput(keyDown: bool, keyUp: bool)
      modifies this`isAiming
      ensures isAiming == NextAiming(old(isAiming), keyDown, keyUp)
    {
      if keyDown {
        UpdateAiming(true);
      }
      if keyUp {
        UpdateAiming(false);
      }
    }

    /** Moves the camera FOV and the weapon layer one step toward the pose of the current aiming state. */
    method HandleAiming(e: Engine, f: Frame)
      requires camera != null
      modifies camera, weaponADSLayer, fovManager
      ensures camera.fieldOfView
           == NextPose(config, e, f, old(CurrentSetup()), isAiming,
                       Pose(old(camera.fieldOfView), old(weaponADSLayer.localPosition))).fov
      ensures weaponADSLayer.localPosition
           == NextPose(config, e, f, old(CurrentSetup()), isAiming,
                       Pose(old(camera.fieldOfView), old(weaponADSLayer.localPosition))).weaponPosition
      ensures fovManager != null ==> fovManager.sliderValue == old(fovManager.sliderValue)
      ensures fovManager != null ==>
                fovManager.applied == old(fovManager.applied) + ManagerCalls(config, old(CurrentSetup()), isAiming)
    {
      var t := Factor(config, f);
      if isAiming {
        camera.fieldOfView := e.lerp(camera.fieldOfView, config.aimingFOV, t);

        var targetScreenPosition := Vec3(f.screenWidth as real / 2.0, f.screenHeight as real / 2.0, 0.0);
        var distanceFromCamera := e.distance(f.parentToWorld(weaponADSLayer.localPosition), f.cameraPosition);
        var targetWorldPosition :=
          f.screenToWorld(camera.fieldOfView, Vec3(targetScreenPosition.x, targetScreenPosition.y, distanceFromCamera));
        var targetLocalPosition := f.worldToParent(targetWorldPosition);

        targetLocalPosition := targetLocalPosition.Plus(Vec3(config.offsetX, config.offsetY, config.offsetZ));
        targetLocalPosition := targetLocalPosition.(z := config.offsetZ);

        weaponADSLayer.localPosition :=
          e.lerpVec(weaponADSLayer.localPosition, targetLocalPosition, t);
      } else {
        if fovManager != null {
          fovManager.ApplyFOV(fovManager.sliderValue, camera, e.applyFov);
        } else {
          camera.fieldOfView := e.lerp(camera.fieldOfView, defaultFOV, t);
        }

        weaponADSLayer.localPosition :=
          e.lerpVec(weaponADSLayer.localPosition, originalWeaponPosition, t);
      }
    }

    /** One frame: the key edges first, so this frame's aiming state picks this frame's targets. */
    method Update(e: Engine, f: Frame)
      requires camera != null
      modifies this`isAiming, camera, weaponADSLayer, fovManager
      ensures isAiming == NextAiming(old(isAiming), f.keyDown, f.keyUp)
      ensures originalWeaponPosition == old(originalWeaponPosition) && defaultFOV == old(defaultFOV)
      ensures Pose(camera.fieldOfView, weaponADSLayer.localPosition)
           == NextPose(config, e, f, old(CurrentSetup()), isAiming,
                       Pose(old(camera.fieldOfView), old(weaponADSLayer.localPosition)))
      ensures fovManager != null ==> fovManager.sliderValue == old(fovManager.sliderValue)
      ensures fovManager != null ==>
                fovManager.applied == old(fovManager.applied) + ManagerCalls(config, old(CurrentSetup()), isAiming)
      ensures CurrentSetup() == old(CurrentSetup())
      ensures Observed() == Tick(config, e, old(CurrentSetup()), old(Observed()), f)
    {
      MyInput(f.keyDown, f.keyUp);
      HandleAiming(e, f);
    }
  }

  // ---------------------------------------------------------------------------
  // A run of frames, as the host calls Update once per frame.

  /** The aiming state, the pose and the values handed to ApplyFOV so far. */
  datatype AdsState = AdsState(aiming: bool, pose: Pose, applied: seq<real>)

  /** One Update: the manager's log only grows, by at most one call. */
  function Tick(cfg: Config, e: Engine, s: Setup, st: AdsState, f: Frame): (r: AdsState)
    ensures st.applied <= r.applied && |r.applied| <= |st.applied| + 1
  {
    var aiming := NextAiming(st.aiming, f.keyDown, f.keyUp);
    AdsState(aiming, NextPose(cfg, e, f, s, aiming, st.pose), st.applied + ManagerCalls(cfg, s, aiming))
  }

  /** One Update per frame, in order: the manager's log only grows, by at most one call per frame. */
  function RunFrames(cfg: Config, e: Engine, s: Setup, st: AdsState, frames: seq<Frame>): (r: AdsState)
    ensures st.applied <= r.applied && |r.applied| <= |st.applied| + |frames|
    decreases |frames|
  {
    if frames == [] then st else RunFrames(cfg, e, s, Tick(cfg, e, s, st, frames[0]), frames[1..])
  }

  /** The host calling Update once per frame, in order: the controller ends as RunFrames says. */
  method PlayFrames(a: ADS, e: Engine, frames: seq<Frame>)
    requires a.camera != null
    modifies a`isAiming, a.camera, a.weaponADSLayer, a.fovManager
    ensures a.CurrentSetup() == old(a.CurrentSetup())
    ensures a.Observed() == RunFrames(a.config, e, old(a.CurrentSetup()), old(a.Observed()), frames)
    decreases |frames|
  {
    if frames != [] {
      a.Update(e, frames[0]);
      PlayFrames(a, e, frames[1..]);
    }
  }

  /** The aiming state read off the last frame that had an aim-key edge (key-up winning), or the initial one if none did. */
  function LastEdge(aiming: bool, frames: seq<Frame>): bool
    decreases |frames|
  {
    if frames == [] then aiming
    else
      var last := frames[|frames| - 1];
      if last.keyUp then false
      else if last.keyDown then true
      else LastEdge(aiming, frames[..|frames| - 1])
  }

  /** How many of the frames end with the controller resting. */
  function RestingFrames(aiming: bool, frames: seq<Frame>): nat
    decreases |frames|
  {
    if frames == [] then 0
    else RestingFrames(aiming, frames[..|frames| - 1]) + (if LastEdge(aiming, frames) then 0 else 1)
  }

  function Repeat(v: real, n: nat): (r: seq<real>)
    ensures |r| == n && forall i :: 0 <= i < n ==> r[i] == v
  {
    seq(n, _ => v)
  }

  lemma {:induction false} RunFramesSnoc(cfg: Config, e: Engine, s: Setup, st: AdsState, frames: seq<Frame>, f: Frame)
    ensures RunFrames(cfg, e, s, st, frames + [f]) == Tick(cfg, e, s, RunFrames(cfg, e, s, st, frames), f)
    decreases |frames|
  {
    if frames == [] {
      assert frames + [f] == [f];
    } else {
      assert (frames + [f])[0] == frames[0] && (frames + [f])[1..] == frames[1..] + [f];
      RunFramesSnoc(cfg, e, s, Tick(cfg, e, s, st, frames[0]), frames[1..], f);
    }
  }

  /** After any run of frames, the controller aims exactly when the last aim-key edge was a lone key-down. */
  lemma {:induction false} RunFramesAiming(cfg: Config, e: Engine, s: Setup, st: AdsState, frames: seq<Frame>)
    ensures RunFrames(cfg, e, s, st, frames).aiming == LastEdge(st.aiming, frames)
    decreases |frames|
  {
    if frames != [] {
      var init, last := frames[..|frames| - 1], frames[|frames| - 1];
      assert init + [last] == frames;
      RunFramesSnoc(cfg, e, s, st, init, last);
      RunFramesAiming(cfg, e, s, st, init);
    }
  }

  /**
   With an FOV manager, the controller hands it the slider value once for every
   frame that ends resting and at no other time; without one it never calls it.
   */
  lemma {:induction false} RunFramesManagerCalls(cfg: Config, e: Engine, s: Setup, st: AdsState, frames: seq<Frame>)
    ensures s.manager.Some? ==>
              RunFrames(cfg, e, s, st, frames).applied
              == st.applied + Repeat(s.manager.value, RestingFrames(st.aiming, frames))
    ensures s.manager.None? ==> RunFrames(cfg, e, s, st, frames).applied == st.applied
    decreases |frames|
  {
    if frames != [] {
      var init, last := frames[..|frames| - 1], frames[|frames| - 1];
      assert init + [last] == frames;
      RunFramesSnoc(cfg, e, s, st, init, last);
      RunFramesAiming(cfg, e, s, st, frames);
      RunFramesManagerCalls(cfg, e, s, st, init);
      if s.manager.Some? {
        var v, n := s.manager.value, RestingFrames(st.aiming, init);
        assert Repeat(v, n + 1) == Repeat(v, n) + [v];
      }
    }
  }

  /** With an FOV manager, one frame does not depend on the rest FOV. */
  lemma TickIgnoresDefaultFov(cfg: Config, e: Engine, s: Setup, st: AdsState, f: Frame, d: real)
    requires s.manager.Some?
    ensures Tick(cfg, e, s, st, f) == Tick(cfg, e, s.(defaultFOV := d), st, f)
  {
  }

  /** With an FOV manager, the rest FOV captured by Start never affects a run: the controller never interpolates toward it. */
  lemma {:induction false} ManagerMakesDefaultFovIrrelevant(cfg: Config, e: Engine, s: Setup, st: AdsState, frames: seq<Frame>, d: real)
    requires s.manager.Some?
    ensures RunFrames(cfg, e, s, st, frames) == RunFrames(cfg, e, s.(defaultFOV := d), st, frames)
    decreases |frames|
  {
    if frames != [] {
      TickIgnoresDefaultFov(cfg, e, s, st, frames[0], d);
      ManagerMakesDefaultFovIrrelevant(cfg, e, s, Tick(cfg, e, s, st, frames[0]), frames[1..], d);
    }
  }

  /** Input is read before the pose is updated: a frame's own key edges choose that frame's targets. */
  lemma InputBeforeAiming(cfg: Config, e: Engine, s: Setup, st: AdsState, f: Frame)
    ensures f.keyDown && !f.keyUp ==>
              Tick(cfg, e, s, st, f).pose.fov == e.lerp(st.pose.fov, cfg.aimingFOV, Factor(cfg, f))
    ensures f.keyUp ==>
              Tick(cfg, e, s, st, f).pose.weaponPosition
              == e.lerpVec(st.pose.weaponPosition, s.originalWeaponPosition, Factor(cfg, f))
  {
  }
}
