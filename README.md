# Rebouncebble League: the game-logic core in Dafny

This project models the four scripts of the Unity game that hold sequential
game logic, and proves what they guarantee:

- **LifeManager** (`Assets/Scripts/GameManager.cs`): two rows of life
  objects walked by two indices, the two win flags, the `restart` latch set
  by `CheckWin`, and `RestartGame`, which puts everything back. The two
  sides are guarded differently in the source. Red stops at
  `redLives.Length - 1`, so blue wins on the n-th red hit while the last red
  life is still shown. Blue uses `blueLives.Length`, so red wins only on the
  (n+1)-th blue hit, after every blue life is hidden. The model keeps this
  as written and proves both consequences.
- **HotAir** (`Assets/Scripts/HotAir.cs`): a timer that alternates between a
  spawned phase, in which one vent and its particle system are on, and a
  cooldown phase. Each deactivation moves a cyclic index to the next of the
  three vents.
- **Environmental_Ev** (`Assets/Scripts/Environmental_Ev.cs`): the same
  timer machine over one event object, instantiated at a random position
  inside a box and destroyed after the spawn duration.
- **BubbleMovement** (`Assets/Scripts/BubbleMovement.cs`): the ball. The
  model covers:
  - the shrinking base size;
  - the squish on impact and the recovery from it;
  - the gravity and floating gates;
  - the player and ground bounces;
  - the tag-based collision dispatch.

Each script becomes two modules:

- a pure module (`LifeRules`, `HotAirRules`, `SpawnRules`, `BubbleRules`)
  with the script's state as a datatype, one function per operation, and the
  lemmas about those functions;
- a component module (`LifeComponent`, `HotAirComponent`,
  `EnvironmentalComponent`, `BubbleComponent`) with a class that keeps the
  script's fields and arrays and updates them in place. Each method's
  postcondition ties the new state to the function of the pure module
  applied to the old state.

`Vectors` holds `Vec3` and the UnityEngine routines the scripts call.
Floats are `real`. The square root and `Vector3.Angle` are not computed:
they are carried by a `MathLib` value, and `Lawful` is all that is assumed
about them:

- the square root of zero is zero, and that of a non-negative number is its
  non-negative root;
- an angle lies in [0, 180] degrees.

Everything proved about the ball holds for every `MathLib` that meets these
promises.

`HandleGroundBounce` (`Assets/Scripts/BubbleMovement.cs:176-186`) does not
clamp, unlike `HandlePlayerCollision` (`:172`), so a ground bounce can leave
faster than `maxBounceVelocity` (`BubbleRules.GroundBounceNotClamped`).

## Model

| member | source | states |
|---|---|---|
| LifeRules.LoseRedLifeEffect | Assets/Scripts/GameManager.cs:30-42 | below `Length - 1`, exactly the life at the index is hidden and the index goes up by one; otherwise only `blueWins` is set; blue's lives, index and `redWins`, the `restart` latch and the panel and button visibility are never touched |
| LifeRules.LoseBlueLifeEffect | Assets/Scripts/GameManager.cs:44-56 | below `Length`, exactly the life at the index is hidden and the index goes up by one; otherwise only `redWins` is set; red's lives, index and `blueWins`, the `restart` latch and the panel and button visibility are never touched |
| LifeRules.CheckWinLatches | Assets/Scripts/GameManager.cs:58-77 | `restart` ends up set iff it was set or a side has won; the red panel is shown iff it already was or red won, the blue panel iff it already was or blue alone won; no life or index changes |
| LifeRules.RestartGameResets | Assets/Scripts/GameManager.cs:79-100 | without `restart` nothing changes; with it the board is fresh (no wins, indices 0, every life shown, panels hidden, latch cleared) with both rows the same size |
| LifeRules.RestartGameIdempotent | Assets/Scripts/GameManager.cs:79-100 | a second immediate restart changes nothing |
| LifeRules.FreshMatches | Assets/Scripts/GameManager.cs:81-98 | after a restart, life i of each side is hidden iff i is below that side's index |
| LifeRules.OperationsKeepBounds | Assets/Scripts/GameManager.cs:30-100 | every operation keeps `currentRedIndex <= max(0, redLives.Length - 1)` and `currentBlueIndex <= blueLives.Length`, so each write to a row is in bounds |
| LifeRules.ApplyKeepsLivesMatch | Assets/Scripts/GameManager.cs:30-100 | each loss, frame or restart keeps "life i is hidden iff i is below the index" on both sides |
| LifeRules.RunKeepsLivesMatch | Assets/Scripts/GameManager.cs:26-100 | the same correspondence holds after any sequence of losses, frames and restarts |
| LifeRules.RedHitsCount | Assets/Scripts/GameManager.cs:30-42 | from a fresh board, the first k < n red hits hide red lives 0..k-1 and neither side has won |
| LifeRules.BlueHitsCount | Assets/Scripts/GameManager.cs:44-56 | from a fresh board, the first k <= n blue hits hide blue lives 0..k-1 and neither side has won |
| LifeRules.RedLosesOnNthHit | Assets/Scripts/GameManager.cs:32-39 | with n >= 1 red lives, blue wins on exactly the n-th red hit, and the last red life is still shown then |
| LifeRules.BlueLosesOnNPlusFirstHit | Assets/Scripts/GameManager.cs:46-53 | with n blue lives, the n-th blue hit hides the last one with no winner; red wins only on hit n + 1 |
| LifeComponent.LifeManager.constructor | Assets/Scripts/GameManager.cs:8-20 | indices 0, no wins and no latch, as the field initialisers set them; the rows and the visibility of the panels and the button come from the scene |
| LifeComponent.LifeManager.LoseRedLife | Assets/Scripts/GameManager.cs:30-42 | the board after the call is `LifeRules.LoseRedLife` of the board before |
| LifeComponent.LifeManager.LoseBlueLife | Assets/Scripts/GameManager.cs:44-56 | the board after the call is `LifeRules.LoseBlueLife` of the board before |
| LifeComponent.LifeManager.CheckWin | Assets/Scripts/GameManager.cs:58-77 | the board after the call is `LifeRules.CheckWin` of the board before |
| LifeComponent.LifeManager.Update | Assets/Scripts/GameManager.cs:26-29 | a frame is one `CheckWin` |
| LifeComponent.LifeManager.RestartGame | Assets/Scripts/GameManager.cs:79-100 | the board after the call is `LifeRules.RestartGame` of the board before |
| LifeComponent.LifeManager.ShowAll | Assets/Scripts/GameManager.cs:90-97 | after the loop every life object of the row is active |
| HotAirRules.ActivateNext | Assets/Scripts/HotAir.cs:54-63 | keeps the state well formed (two rows of equal length, index inside them) |
| HotAirRules.DeactivateCurrent | Assets/Scripts/HotAir.cs:65-77 | keeps the state well formed; the `% Length` step keeps the index inside the rows |
| HotAirRules.Update | Assets/Scripts/HotAir.cs:38-52 | keeps the state well formed and the number of vents |
| HotAirRules.Run | Assets/Scripts/HotAir.cs:38-52 | any run of frames keeps the state well formed and the number of vents |
| HotAirRules.RunKeepsInv | Assets/Scripts/HotAir.cs:38-77 | over any run of frames at most one vent is on (the one at the index, while spawned) and the particles stay in lockstep with the vents |
| HotAirRules.StartedInv | Assets/Scripts/HotAir.cs:22-36 | after Start no vent is on and vents and particles agree |
| HotAirRules.AtMostOneActive | Assets/Scripts/HotAir.cs:57-69 | under the invariant no two vents are on at once, and an active vent's particles are on |
| HotAirRules.ActivateNextEffect | Assets/Scripts/HotAir.cs:54-63 | from cooldown, activation switches on exactly the vent and particles at the index, enters the spawned phase with timer 0, keeps the index and the invariant |
| HotAirRules.DeactivateCurrentEffect | Assets/Scripts/HotAir.cs:65-77 | from the spawned phase, deactivation leaves every vent and particle system off, enters cooldown with timer 0 and moves the index to `(index + 1) % Length` |
| HotAirRules.UpdateAtMostOneTransition | Assets/Scripts/HotAir.cs:38-52 | a frame flips the phase iff that phase's duration has run out and never twice; otherwise only the timer advances by dt; a flip resets the timer and moves the index only when leaving the spawned phase |
| HotAirRules.UpdateKeepsInv | Assets/Scripts/HotAir.cs:38-77 | every frame keeps "vent i is on iff i is the index and the phase is spawned" and keeps particles in lockstep with vents |
| HotAirRules.UpdateNextVent | Assets/Scripts/HotAir.cs:38-77 | an activating frame keeps the index; any other frame keeps the vent due next |
| HotAirRules.RoundRobin | Assets/Scripts/HotAir.cs:72 | in any run, the first activation switches on the vent due next and each later one the vent after the previous, cyclically |
| HotAirRules.RoundRobinFromStart | Assets/Scripts/HotAir.cs:22-77 | from Start with three vents, the k-th activation switches on vent k mod 3: 0, 1, 2, 0, ... |
| HotAirComponent.HotAir.constructor | Assets/Scripts/HotAir.cs:13-36 | the arrays gather the three vents and particle systems and the state is the Start state (all off, index 0, cooldown, timer 0) |
| HotAirComponent.HotAir.SwitchOffAll | Assets/Scripts/HotAir.cs:28-35 | after the loop every object of the array is inactive |
| HotAirComponent.HotAir.Update | Assets/Scripts/HotAir.cs:38-52 | the state after the frame is `HotAirRules.Update` of the state before |
| HotAirComponent.HotAir.ActivateNext | Assets/Scripts/HotAir.cs:54-63 | the state after the call is `HotAirRules.ActivateNext` of the state before |
| HotAirComponent.HotAir.DeactivateCurrent | Assets/Scripts/HotAir.cs:65-77 | the state after the call is `HotAirRules.DeactivateCurrent` of the state before |
| SpawnRules.InitialInv | Assets/Scripts/Environmental_Ev.cs:13-17 | the initial spawner (no instance, cooldown, timer 0) satisfies the invariant |
| SpawnRules.AtMostOneLive | Assets/Scripts/Environmental_Ev.cs:23-37 | under the invariant at most one instance is live |
| SpawnRules.UpdateEffect | Assets/Scripts/Environmental_Ev.cs:19-38 | when spawned and the spawn duration has run out, the live instance is destroyed and the timer and phase reset; when in cooldown and the cooldown has run out, one instance is created at the drawn position; otherwise only the timer advances by dt |
| SpawnRules.CreatesOnlyWhenNoneLive | Assets/Scripts/Environmental_Ev.cs:30-37 | an instance newly live after a frame was created from cooldown with nothing live before |
| SpawnRules.UpdateKeepsInv | Assets/Scripts/Environmental_Ev.cs:19-38 | a frame keeps "live instances were created here and lie in the box; exactly the current one is live while spawned, none in cooldown" |
| SpawnRules.RunKeepsInv | Assets/Scripts/Environmental_Ev.cs:19-46 | over any run of frames with in-box draws, the invariant holds and at most one instance is live |
| EnvironmentalComponent.EnvironmentalEvent.constructor | Assets/Scripts/Environmental_Ev.cs:5-17 | the serialized bounds and durations, and the initial spawner |
| EnvironmentalComponent.EnvironmentalEvent.RandomPosition | Assets/Scripts/Environmental_Ev.cs:40-46 | each coordinate lies between its axis bounds, in whichever order they are given |
| EnvironmentalComponent.EnvironmentalEvent.Update | Assets/Scripts/Environmental_Ev.cs:19-38 | for some in-box draw, the state after the frame is `SpawnRules.Update` of the state before |
| Vectors.Max | Assets/Scripts/BubbleMovement.cs:93-95 | Mathf.Max is at least both arguments and is one of them |
| Vectors.MathfLerpRange | Assets/Scripts/BubbleMovement.cs:88 | Mathf.Lerp returns its first end at t <= 0, its second at t >= 1, and always a value between them |
| Vectors.LerpRange | Assets/Scripts/BubbleMovement.cs:234-238 | Vector3.Lerp returns the target at t >= 1, the start at t <= 0, and never overshoots on any axis |
| Vectors.MagnitudeNonNegative | Assets/Scripts/BubbleMovement.cs:139 | a magnitude is never negative |
| Vectors.DistanceProperties | Assets/Scripts/BubbleMovement.cs:241 | Vector3.Distance is never negative and is zero from a point to itself |
| Vectors.ClampMagnitudeProperties | Assets/Scripts/BubbleMovement.cs:172 | for a non-negative bound, Vector3.ClampMagnitude never returns a vector longer than the bound, returns a vector within the bound unchanged, and otherwise only shortens it along its own direction |
| Vectors.SqrtStrictlyIncreasing | Assets/Scripts/BubbleMovement.cs:166-169 | the square root is strictly increasing on the non-negative reals |
| BubbleRules.SizeAt | Assets/Scripts/BubbleMovement.cs:88-95 | the base size is never below `minSize` |
| BubbleRules.SizeAtStart | Assets/Scripts/BubbleMovement.cs:88-95 | at elapsed time 0 the base size is the start size, when that is not below the floor |
| BubbleRules.SizeAtEnd | Assets/Scripts/BubbleMovement.cs:85-97 | from `sizeTimer` on, the base size is exactly `minSize` |
| BubbleRules.DefaultShrinkReachesFloor | Assets/Scripts/BubbleMovement.cs:25-27 | with the default tuning a size-10 ball is at 0.1 after 40 seconds |
| BubbleRules.SizeNonIncreasing | Assets/Scripts/BubbleMovement.cs:88-95 | with a positive start size above the floor, the base size never grows as time passes |
| BubbleRules.ShrinkMultiplierAntitone | Assets/Scripts/BubbleMovement.cs:88 | the scale multiplier never grows as elapsed time grows |
| BubbleRules.MathfLerpAntitone | Assets/Scripts/BubbleMovement.cs:88 | Mathf.Lerp toward a smaller end decreases as its parameter grows |
| BubbleRules.SquishShape | Assets/Scripts/BubbleMovement.cs:217-227 | for 0 < squishAmount < 1 and a positive base, the squish is lower than the base and wider on x and z |
| BubbleRules.RecoverSettles | Assets/Scripts/BubbleMovement.cs:229-252 | after a recovery step the ball is still squished or shows exactly its base scale; an unsquished ball shows its base; the squish never starts here |
| BubbleRules.RecoverCompletes | Assets/Scripts/BubbleMovement.cs:234-245 | a step with `dt * squishRecoverySpeed >= 1` always snaps to the base and ends the squish |
| BubbleRules.RecoverNoOvershoot | Assets/Scripts/BubbleMovement.cs:234-238 | while squished, each axis of the new scale lies between the old scale and the base |
| BubbleRules.ForceGates | Assets/Scripts/BubbleMovement.cs:101-130 | for non-zero gravity, gravity is queued, on the vertical axis only, iff the float time since the last bounce is over and the ray misses the ground; the push of 2 is queued iff the ball moves down |
| BubbleRules.LaunchSpeedSquare | Assets/Scripts/BubbleMovement.cs:166-182 | with non-negative force and speed, the launch speed is the non-negative root of `2 * force * (speed + 5)` |
| BubbleRules.HitFromBelowBonus | Assets/Scripts/BubbleMovement.cs:143-157 | the jump multiplier applies only to upward hits, the extra 1.5 only to upward hits at under 45 degrees, and such a hit gets a strictly higher vertical floor |
| BubbleRules.LaunchSpeedIncreasing | Assets/Scripts/BubbleMovement.cs:166-169 | a larger positive force gives a strictly larger launch speed |
| BubbleRules.PlayerBounceUnclamped | Assets/Scripts/BubbleMovement.cs:159-170 | before clamping, the vertical speed is at least `sqrt(2 * force * (impactSpeed + 5))` |
| BubbleRules.PlayerBounceBounded | Assets/Scripts/BubbleMovement.cs:172 | a player hit never leaves the ball faster than `maxBounceVelocity`, and a bounce within the bound is not altered |
| BubbleRules.PlayerBounceRises | Assets/Scripts/BubbleMovement.cs:166-172 | with non-negative forces and bound, a player hit never sends the ball downward |
| BubbleRules.GroundBounceShape | Assets/Scripts/BubbleMovement.cs:178-184 | horizontal components are damped by `bounceDamping`; the vertical one is the launch speed for `abs(vy)`, the same whichever way the ball moved, and non-negative for a non-negative force |
| BubbleRules.GroundBounceExample | Assets/Scripts/BubbleMovement.cs:178-182 | with the default force 45, landing at 3 bounces up at sqrt(720) |
| BubbleRules.GroundBounceNotClamped | Assets/Scripts/BubbleMovement.cs:176-186 | whenever `2 * groundBounceForce * (abs(vy) + 5)` exceeds the squared bound, the ground bounce leaves faster than `maxBounceVelocity` |
| BubbleRules.DefaultGroundBounceExceedsBound | Assets/Scripts/BubbleMovement.cs:6-9 | with the default tuning, landing at 20 leaves faster than 40 |
| BubbleRules.CollisionDispatch | Assets/Scripts/BubbleMovement.cs:188-215 | every contact squishes; "Player"/"Player2" get the player bounce (within the bound), the time and that player's material; "Ground" gets the ground bounce and the time and keeps the material; any other tag keeps velocity, time and material |
| BubbleComponent.BubbleMovement.constructor | Assets/Scripts/BubbleMovement.cs:34-58 | full size uniform base and rendered scale, default material, not squished, at rest |
| BubbleComponent.BubbleMovement.FixedUpdate | Assets/Scripts/BubbleMovement.cs:73-81 | the five steps in order: gravity gate, air resistance, floating gate on the damped velocity, size step, recovery step against the new base |
| BubbleComponent.BubbleMovement.DecreaseSize | Assets/Scripts/BubbleMovement.cs:83-99 | while `elapsedTime < sizeTimer`, time advances by dt and the base becomes the uniform `SizeAt` (at least `minSize`); afterwards neither changes again |
| BubbleComponent.BubbleMovement.ApplyGravity | Assets/Scripts/BubbleMovement.cs:101-109 | the queued acceleration is `GravityStep` of the one before |
| BubbleComponent.BubbleMovement.ApplyAirResistance | Assets/Scripts/BubbleMovement.cs:117-121 | the velocity is scaled by `airResistance` |
| BubbleComponent.BubbleMovement.ApplyFloating | Assets/Scripts/BubbleMovement.cs:123-130 | the queued acceleration is `FloatingStep` of the one before |
| BubbleComponent.BubbleMovement.HandlePlayerCollision | Assets/Scripts/BubbleMovement.cs:132-174 | the velocity becomes `PlayerBounce` of the old one and `lastBounceTime` the current time |
| BubbleComponent.BubbleMovement.HandleGroundBounce | Assets/Scripts/BubbleMovement.cs:176-186 | the velocity becomes `GroundBounce` of the old one and `lastBounceTime` the current time |
| BubbleComponent.BubbleMovement.OnCollisionEnter | Assets/Scripts/BubbleMovement.cs:188-215 | the body after the call is `BubbleRules.OnCollisionEnter` of the body before |
| BubbleComponent.BubbleMovement.ApplySquishEffect | Assets/Scripts/BubbleMovement.cs:217-227 | the rendered scale becomes the squish of the current base and the ball is squished |
| BubbleComponent.BubbleMovement.RecoverFromSquish | Assets/Scripts/BubbleMovement.cs:229-252 | the rendered scale and flag after the call are `Recover` of those before |

## Left out

- Rendering: materials are three identities; the UI panels and the restart
  button are visibility flags; `SetActive`, `Instantiate` and `Destroy` act
  on flag arrays and on a map of live instances.
- Physics integration: the rigid body's own step is not modelled.
  `AddForce(..., ForceMode.Acceleration)` is recorded as a queued
  acceleration, and `SetupRigidbody`'s settings are not modelled.
- `IsTouchingGround` (`Physics.Raycast`) is a boolean parameter. `Time.time`
  and `Time.deltaTime` are parameters, and the time step is assumed
  non-negative.
- `Random.Range` is a nondeterministic choice in the box; its distribution is
  not modelled. Unity's float `Random.Range` returns the lower bound for
  equal bounds, and the model allows that too.
- Single-precision rounding, infinities and NaN are not modelled: floats are
  reals. The ball's constructor and size step require
  `startSizeXYZ != 0`, where the script would produce an infinity or NaN.
- `Mathf.Sqrt` and `Vector3.Angle` have no definition here, only the promises
  of `Lawful`. `Vector3.normalized` is defined from them, but nothing is
  proved about its direction or length, because no property of the scripts
  rests on it.
- `Vectors.ClampMagnitude`: the engine divides each component by the
  magnitude and multiplies by the bound. The model scales by
  bound / magnitude, which is the same over the reals.
- `Collision.contacts[0]` is assumed to exist; the model receives the first
  contact point directly.
- `Debug.Log` calls and the `LifeManager` singleton field `instance` are
  left out. So is `Start`'s `AddListener(RestartGame)`: the button press is
  the `RestartGame` call itself.
- `hitCount` and `horizontalBounceFactor` are declared but never read by the
  script. `horizontalBounceFactor` is kept in `Tuning` but takes part in no
  behaviour. `originalScale` is read only in `Start`, to set both scales,
  and is kept as a field.
- Convergence of the squish recovery over many frames is not proved; only a
  single step and the case `dt * squishRecoverySpeed >= 1` are.
- `LifeComponent.LifeManager`: the scene's two rows are assumed to be
  different arrays.
- `HotAirComponent.HotAir`: Start's arrays hold three vents and three
  particle systems, as in the scene.
- The cameras, the player controllers and input handlers, `RestartGame.cs`
  (a scene reload), `bubble.cs` and `Bubble.cs` are not part of this model.
  The last two are other declarations of a `BubbleMovement` class, built on
  random impulses and vector force math.
