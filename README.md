# RoundBasedFPS gameplay scripts, modelled in Dafny

Two independent Unity behaviours of a round-based shooter.

- **DestructibleObject** (`destructible.dfy`, module `Destructible`): an integer
  health counter that starts at `maxHealth`. `TakeDamage` subtracts the damage
  as given. When the result is zero or below, the object tells the optional
  easter-egg manager that this game object was destroyed and then calls the
  engine's `Destroy` on it. The class keeps the health and whether an observer
  was found; a ghost log `calls` records the calls to the observer and to
  `Destroy`, in order. `RunDamage` replays a series of `TakeDamage` calls on
  values, and the lemmas about it cover health, call counts and bounds.
- **ADS** (`ads.dfy`, module `AimDownSights`): the aim-down-sights
  controller. The key-down and key-up edges of the aim key toggle `isAiming`.
  Every frame, `Update` reads those edges and then runs `HandleAiming`, which
  moves the camera's field of view and the weapon layer's local position one
  interpolation step toward the aiming pose or the resting pose. The camera,
  the weapon layer and the FOV manager are classes. Engine numerics are
  function values handed in by the caller, so every property holds whatever
  they compute. These are `Mathf.Lerp`, `Vector3.Lerp`, `Vector3.Distance`,
  `ScreenToWorldPoint`, `InverseTransformPoint` and the parent's
  local-to-world transform. `NextPose` specifies one frame, and `RunFrames`
  replays a series of `Update` calls.

The class methods (`TakeDamage`, `Update`, ...) are proved against the pure
functions (`HitCalls`, `NextAiming`, `NextPose`, `Tick`, ...). `TakeHits` and
`PlayFrames` call `TakeDamage` and `Update` once per element and are proved to
end in the state `RunDamage` and `RunFrames` give, so the lemmas about those
functions hold of any series of calls.

Behaviour of the code worth stating plainly:

- Health is not clamped. From a positive `maxHealth`, negative damage heals
  past it (`NegativeDamageHeals`). Health stays at or below `maxHealth` as
  long as no damage is negative (`NonNegativeDamageBounded`).
- There is no destroyed flag. Every hit that leaves health at zero or below
  calls `Destroy` again, and notifies again when an observer is present
  (`RunDamageCounts`, `StaysDepleted`).
- From 100 health, hits of 30 leave 70, 40 and 10, and only the fourth hit
  destroys (`ThirtyDamageExample`).

## Model

| member | source | states |
|---|---|---|
| `Destructible.HitCalls` | DestructibleObject.cs:22-30 | A hit makes calls exactly when the health it leaves is <= 0. `Destroy(self)` is made iff health <= 0. `OnObjectDestroyed(self)` is made iff health <= 0 and an observer is present. When both are made, the notification comes first and `Destroy` is last. There are never more than two calls. |
| `Destructible.DestructibleObject.constructor` | DestructibleObject.cs:7-11 | Before `Start`, health holds the C# default 0, no observer is known and no call has been made. |
| `Destructible.DestructibleObject.Start` | DestructibleObject.cs:13-17 | `currentHealth == maxHealth`. Whether an observer exists comes from the scene lookup, passed in as a flag. No call is made. |
| `Destructible.DestructibleObject.TakeDamage` | DestructibleObject.cs:18-31 | Health drops by exactly `damage`, with no sign check and no clamp. The call log grows by `HitCalls` of the new health: notify the observer if present, then `Destroy`, or nothing if health > 0. |
| `Destructible.RunDamage` | DestructibleObject.cs:18-31 | A series of `TakeDamage` calls on values, one per damage, in order. Its contract: at most 2·|damages| calls in all. |
| `Destructible.TakeHits` | DestructibleObject.cs:18-31 | The host calling `TakeDamage` once per damage leaves the health and call log that `RunDamage` gives. |
| `Destructible.RunDamageHealth` | DestructibleObject.cs:20 | After any series of hits, health is the starting health minus the total damage. |
| `Destructible.HealthsAt` | DestructibleObject.cs:20 | The health left by hit i is the start minus the damage of hits 0..i. |
| `Destructible.RunDamageCalls` | DestructibleObject.cs:18-31 | The calls of a series are, in order, the calls each hit makes for the health it leaves. |
| `Destructible.CallsForCounts` | DestructibleObject.cs:22-30 | One `Destroy` per hit that leaves health <= 0. The same number of notifications with an observer, none without one. |
| `Destructible.RunDamageCounts` | DestructibleObject.cs:18-31 | Over any series of hits, `Destroy` requests count the hits that leave health <= 0, with no "already destroyed" guard. Notifications match that count when an observer is present and are zero otherwise. |
| `Destructible.NonNegativeDamageBounded` | DestructibleObject.cs:15-20 | With no negative damage, health after every hit is at most the starting health. Starting from `Start`, that is `maxHealth`. |
| `Destructible.StaysDepleted` | DestructibleObject.cs:18-31 | With no negative damage, once a hit leaves health <= 0, every later hit does too. So every later hit asks again for destruction. |
| `Destructible.NegativeDamageHeals` | DestructibleObject.cs:20 | From a positive `maxHealth`, a negative hit raises health above `maxHealth` and makes no call. |
| `Destructible.ThirtyDamageHealths` | DestructibleObject.cs:15-20 | From 100, hits of 30 leave 70, 40, 10 and -20. |
| `Destructible.ThirtyDamageExample` | DestructibleObject.cs:15-30 | From 100, three hits of 30 leave 10 and make no call. The fourth leaves -20 and makes the destroy calls. |
| `Destructible.LethalHitExample` | DestructibleObject.cs:15-30 | From 100, a single hit of 100 makes exactly one `Destroy`, preceded by one notification iff an observer is present. |
| `AimDownSights.NextAiming` | ADS.cs:105-115 | A key-up edge leaves the controller not aiming, even with a key-down edge in the same frame. A lone key-down edge makes it aim. With no edge the state is unchanged. |
| `AimDownSights.ProjectedCentre` | ADS.cs:71-78 | No contract; computes the screen centre at the weapon's distance from the camera (`Vector3.Distance`), projected through `ScreenToWorldPoint` and brought into the weapon parent's space (`InverseTransformPoint`). |
| `AimDownSights.ProjectedCentreByDistance` | ADS.cs:74-78 | Two weapon positions at the same distance from the camera give the same projected centre: the weapon's position enters only through that distance. |
| `AimDownSights.AimedTarget` | ADS.cs:71-82 | The aiming weapon target has z exactly `offsetZ`, whatever the projection gives. Its x and y are the projected screen centre plus `offsetX` and `offsetY`. |
| `AimDownSights.FovControlFor` | ADS.cs:66-96 | While aiming, the FOV is interpolated toward `aimingFOV`. While resting, it is handed to the FOV manager iff one exists, passing the manager's slider value. Otherwise it is interpolated toward `defaultFOV`. |
| `AimDownSights.ManagerCalls` | ADS.cs:89-92 | `ApplyFOV` is called exactly in resting frames with a manager present, once, with the slider value. |
| `AimDownSights.NextPose` | ADS.cs:64-100 | One frame of `HandleAiming`. Both the FOV and the weapon position move from their current values toward the current state's target, with the same factor `deltaTime * smoothTime`. Aiming targets are `aimingFOV` and `AimedTarget`; the projection uses the FOV just set. Resting weapon target is always `originalWeaponPosition`. With a manager present, the resting FOV is whatever the manager's `ApplyFOV` of the slider value makes of the camera's current FOV. |
| `AimDownSights.ADS.constructor` | ADS.cs:10-27 | Serialized state before `Start`, with the inspector-set tuning, `defaultFOV` and FOV manager as given: not aiming, rest position zero. |
| `AimDownSights.ADS.Shipped` | ADS.cs:15-23 | The component with its declared defaults: `smoothTime`, `offsetX`, `offsetY`, `offsetZ` all 10, `aimingFOV` 30, `defaultFOV` 60, no FOV manager. |
| `AimDownSights.FovManager.ApplyFOV` | ADS.cs:91 | The manager's call is recorded with its value. The camera's FOV becomes the engine's `applyFov` of its old FOV and the value; the slider is unchanged. |
| `AimDownSights.ADS.Start` | ADS.cs:32-41 | `Start` takes the camera from the parent, captures the weapon's local position as `originalWeaponPosition` and the camera's FOV as `defaultFOV`, and records the FOV manager lookup. Afterwards the controller is not aiming. |
| `AimDownSights.ADS.UpdateAiming` | ADS.cs:121-124 | `isAiming` becomes the argument. |
| `AimDownSights.ADS.MyInput` | ADS.cs:105-115 | `isAiming` becomes `NextAiming` of the old state and this frame's edges. |
| `AimDownSights.ADS.HandleAiming` | ADS.cs:64-100 | The camera FOV and the weapon local position become `NextPose` of their old values under the current aiming state. With a manager, resting frames go through the manager's `ApplyFOV`, which sets the camera's FOV. The manager's `ApplyFOV` log grows by `ManagerCalls`. Its slider value is unchanged. |
| `AimDownSights.ADS.Update` | ADS.cs:46-50 | Edges are processed first: the new `isAiming` is the one that picks this frame's pose. `originalWeaponPosition` and `defaultFOV` are unchanged. The observed state (aiming flag, camera FOV, weapon position, manager log) becomes `Tick` of the old one. |
| `AimDownSights.Tick` | ADS.cs:46-50 | One `Update` on values: the aiming state after this frame's edges, then `NextPose` under it. Its contract: the manager's `ApplyFOV` log only grows, by at most one value. |
| `AimDownSights.RunFrames` | ADS.cs:46-50 | One `Tick` per frame, in order. Its contract: the `ApplyFOV` log only grows, by at most |frames| values in all. |
| `AimDownSights.PlayFrames` | ADS.cs:46-50 | The engine calling `Update` once per frame leaves the controller in the state `RunFrames` gives, with the resting setup (rest FOV, rest position, slider value) unchanged, so runs chain. |
| `AimDownSights.RunFramesAiming` | ADS.cs:105-115 | After any run of frames, the controller aims iff the last frame with an aim-key edge had a key-down and no key-up. With no edge, the initial state remains. |
| `AimDownSights.RunFramesManagerCalls` | ADS.cs:89-92 | With a manager, the `ApplyFOV` calls over a run are the slider value once per frame that ends resting. Without a manager there are none. |
| `AimDownSights.TickIgnoresDefaultFov` | ADS.cs:89-96 | With a manager present, one frame does not depend on `defaultFOV`. |
| `AimDownSights.ManagerMakesDefaultFovIrrelevant` | ADS.cs:87-96 | With a manager present, any run of frames ends in the same state whatever `defaultFOV` is: the FOV captured in `Start` is never the resting target. |
| `AimDownSights.InputBeforeAiming` | ADS.cs:46-50 | A frame with a lone key-down already interpolates toward `aimingFOV`. A frame with a key-up already steers the weapon toward `originalWeaponPosition`. |

## Left out

- C# 32-bit wrap-around of `currentHealth -= damage`: health is an unbounded integer.
- `Destroy`'s deferred end-of-frame removal. The engine's object lifetime, which in practice stops further `TakeDamage` calls, is not modelled. `Destroy` is a logged request.
- `FindObjectOfType`, `GetComponentInParent` and the `MonoBehaviour` lifecycle. Their results are arguments to `Start`. `Start` takes the parent camera as a non-null `Camera`, and `HandleAiming` and `Update` require `camera != null`, because the source dereferences it without a check.
- The internals of `FOVManager` and `EasterEggManager`. `ApplyFOV` and `OnObjectDestroyed` are recorded as calls. `ApplyFOV`'s effect is the engine's uninterpreted `applyFov`, taken to act on this controller's camera; any other effect it has is not modelled. `applyFov` depends only on the camera's old FOV and the value, and is the same function for a whole run, so a manager whose effect depends on the frame time or on its own state is not modelled.
- Null-reference failures other than the camera's: a missing `WeaponADSLayer` (ADS.cs:35,74,85,98) is excluded by its non-null `Transform` type; a missing `WeaponADSLayer.parent` (ADS.cs:78) cannot occur because every frame supplies the parent's `worldToParent`; a missing `fovManager.fovSlider` (ADS.cs:91) cannot occur because the slider value is a plain field of `FovManager`.
- `observerPresent` is fixed when `Start` runs. The source tests `easterEggManager != null` on every depleting hit, and a destroyed manager compares equal to null in Unity, so a manager destroyed after `Start` is still notified in the model.
- Floating-point numerics: `Mathf.Lerp`, `Vector3.Lerp` (their clamping of `t`, convergence and rounding), `Vector3.Distance`, `ScreenToWorldPoint`, `InverseTransformPoint`, the weapon's world position, and `Screen.width`/`Screen.height` as screen input. These are all uninterpreted, so convergence of the smoothing toward its target is not stated.
- `Input.GetKeyDown`/`GetKeyUp` on `ADSKey` are the frame's two boolean edges. The key code itself is not modelled.
- The `HandleInput` method, which reads mouse button 1 and is never called.
- `AimDownSights.RunFramesManagerCalls`: the slider value is held fixed over the run. The single-frame contracts of `HandleAiming` and `Update` read it afresh each frame.
