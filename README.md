# Stealth shooter game rules in Dafny

This project models the discrete rules of a small Unity stealth shooter:

- **Soldiers** (`Enemy.cs`) patrol waypoints and spot the player through a three-gate sight test. A soldier that sees the player raises a flag shared by every soldier, chases the player and strikes them on a cooldown. A hit puts a soldier into a short Damage reaction, and the soldier can die.
- **The alert directory** (`EnemyGlobalAlertSystem.cs`) is a static list of soldiers with a broadcast over it.
- **Surveillance cameras** (`SurveillanceCamera.cs`) sweep back and forth, and broadcast the alert on every frame they see the player.
- **The player** has health and stamina counters (`PlayerStats.cs`), a magazine-fed weapon (`PlayerShoot.cs`), and pick-ups, either a medikit or a magazine (`ItemPickup.cs`).
- **The asset records** (`Soldier`, `SurveillanceCameraData`, `PlayerStatsData`, `ItemData`) become datatypes.

Modules:

- `Vision`: the sight test shared by soldiers and cameras. The engine answers three queries: within range, within the cone, and a clear ray. The model keeps only the order of the gates and how they combine.
- `EnemyModel`: a soldier's decision state as a value (`Brain`), with one function per engine entry point.
  - The entry points are a frame, a physics step, a hit, and the coroutine scheduler resuming due timers.
  - Running coroutines are a sequence of timers in start order. `StopAllCoroutines` empties it.
  - A clock tick runs every timer whose wait is over, in start order.
- `EnemyAI`: the soldier component as a class. `World` holds the static `globalAlert` that all soldiers share.
  - Each engine entry point (`Update`, `FixedUpdate`, `TakeDamage`, `Tick`) is proved to compute the matching `EnemyModel` function on the soldier's `Snapshot()` and to keep the invariant `Reachable`. `PatrolLogic` is proved to compute its model function as well, but it does not restate the invariant.
  - The helpers they call (`ChasePlayerMovement`, `TryAttackPlayer`, `AlertAfter3Sec`, `BackToChase`, `Die`, `StopAllCoroutines`, `SetState`) state their effect on the fields.
- `EnemyProperties`: lemmas over `EnemyModel`. They cover single calls and arbitrary runs of engine calls. A run may include `AlertRaised`, which stands for another soldier raising the shared flag (`Enemy.cs:102` run on a different instance).
- `AlertSystem`: Register and Unregister, the broadcast as a function, and the registry class whose foreach loop is proved to compute it.
  - `ForceAlert` is not defined anywhere in the code. The broadcast therefore takes it as a parameter that says what each callback does to the directory.
  - A callback that adds or removes a member makes the C# enumerator throw on its next step. This is modelled as an incomplete broadcast, by means of `List<T>`'s version counter.
- `Surveillance`: the camera.
- `Stats`, `Shooting`, `Pickups`: the player side.

The engine supplies the inputs the model cannot compute, as parameters:

- Time: `dt`, `now`.
- Geometry: within range, within the cone, clear ray, at the waypoint, within attack range, wall ahead.
- Key presses.
- The components found on a collider.

`Start` runs before the first frame, so it is folded into each constructor. The engine stops calling `Update` and `FixedUpdate` on a soldier or camera that disabled itself (its asset is missing) or on a camera whose `Destroy` has taken effect at the end of a frame. These frame methods therefore return immediately in the model. Public methods such as `TakeDamage`, and a trigger callback such as `OnTriggerEnter`, have no such guard.

The code is followed where it departs from the intended design:

- Dead is not a terminal state: a pending return timer can revive a dead soldier (`DeathKeepsReturnTimer`, `DeadSoldierPatrolsAgain`).
- The three-second alert started by a hit is cancelled two statements later and never runs (`SurvivableHit`, `TickReachable`).
- The broadcast walks the live list, not a snapshot of it.

## Model

| member | source | states |
|---|---|---|
| Vision.Judge | Assets/Scripts/Enemy/Enemy.cs:186-201 | The verdict names the first failing gate (range, then cone, then ray), and Visible holds exactly when all three pass |
| EnemyAI.World.constructor | Assets/Scripts/Enemy/Enemy.cs:41 | The shared alert starts lowered |
| EnemyAI.Enemy.constructor | Assets/Scripts/Enemy/Enemy.cs:13-73 | The serialised state is kept, as Start never resets it. Without an asset the soldier disables itself; otherwise health is the asset's maxHealth, the player is looked up by tag when unassigned, and its stats are taken only when a player exists. The invariant holds exactly when the soldier is not loaded in Damage, nor Dead with health left; in particular it holds for the default Patrol |
| EnemyAI.Enemy.CheckVision | Assets/Scripts/Enemy/Enemy.cs:179-201 | The soldier sees the player exactly when it has a player reference and all three gates (range, cone, clear ray) pass |
| EnemyAI.Enemy.Update | Assets/Scripts/Enemy/Enemy.cs:75-105 | A frame computes EnemyModel.Update on the snapshot, with sight asked only with a player reference; a disabled soldier is untouched; the invariant is kept |
| EnemyAI.Enemy.FixedUpdate | Assets/Scripts/Enemy/Enemy.cs:107-111 | A physics step computes EnemyModel.FixedUpdate, and the player's health drops by the clamped hit exactly when it reports an attack; every other field of the player's stats is unchanged and their bounds invariant is kept |
| EnemyAI.Enemy.ChasePlayerMovement | Assets/Scripts/Enemy/Enemy.cs:143-163 | Without a player nothing changes; otherwise the timer grows by dt and a strike within range once the cooldown is reached resets it and damages the player; only the stats' health changes and their bounds invariant is kept |
| EnemyAI.Enemy.TryAttackPlayer | Assets/Scripts/Enemy/Enemy.cs:165-176 | Below the cooldown nothing happens; otherwise the timer resets even without stats to hit, and a present stats component loses max(0, damagePerHit) health, floored at 0, with every other stats field unchanged and the bounds invariant kept |
| EnemyAI.Enemy.TakeDamage | Assets/Scripts/Enemy/Enemy.cs:205-222 | A hit computes EnemyModel.TakeDamage: the started three-second alert is cancelled by StopAllCoroutines and only the return timer remains |
| EnemyAI.Enemy.Tick | Assets/Scripts/Enemy/Enemy.cs:224-240 | The scheduler's loop over the due coroutines computes EnemyModel.Tick: each due body runs once, in start order, and the others keep waiting |
| EnemyAI.Enemy.AlertAfter3Sec | Assets/Scripts/Enemy/Enemy.cs:224-232 | Unless dead, the shared alert rises and the state becomes Alert; a dead soldier is untouched |
| EnemyAI.Enemy.BackToChase | Assets/Scripts/Enemy/Enemy.cs:234-240 | The state becomes Alert if the shared alert is up, else Chase if the player was seen, else Patrol |
| EnemyAI.Enemy.Die | Assets/Scripts/Enemy/Enemy.cs:242-258 | The state becomes Dead and nothing else of the decision state changes, so the running coroutines survive |
| EnemyAI.Enemy.StopAllCoroutines | Assets/Scripts/Enemy/Enemy.cs:220 | No coroutine is left running |
| EnemyAI.Enemy.PatrolLogic | Assets/Scripts/Enemy/Enemy.cs:114-140 | Computes EnemyModel.PatrolLogic; the waypoint index it reads is in range |
| EnemyAI.Enemy.SetState | Assets/Scripts/Enemy/Enemy.cs:267-271 | The state is the one given |
| EnemyProperties.TickIdle | Assets/Scripts/Enemy/Enemy.cs:224-240 | With no coroutine running a clock tick changes nothing |
| EnemyProperties.FireAllKeepsFlags | Assets/Scripts/Enemy/Enemy.cs:224-240 | Coroutine bodies never lower either flag and never touch health, the pending timers or the patrol index |
| EnemyProperties.TickReachable | Assets/Scripts/Enemy/Enemy.cs:216-240 | In a reachable state a tick either changes nothing or runs exactly the return timer (destination read from the flags at that moment) and clears it; the shared alert never rises on a tick |
| EnemyProperties.ReturnNeverChases | Assets/Scripts/Enemy/Enemy.cs:237-239 | In every reachable state the return destination is Alert when the shared alert is up and Patrol otherwise: the Chase branch never runs, because having seen the player always raises the shared alert |
| EnemyProperties.DamageEnds | Assets/Scripts/Enemy/Enemy.cs:234-240 | A reachable soldier in Damage leaves it, for Alert or Patrol, once its return deadline is reached |
| EnemyProperties.TakeDamagePreserves | Assets/Scripts/Enemy/Enemy.cs:205-222 | A hit keeps the reachable-state invariant: at most one coroutine, always the return timer; armed in Damage; no health when Dead; having seen the player implies the shared alert |
| EnemyProperties.UpdatePreserves | Assets/Scripts/Enemy/Enemy.cs:75-105 | A frame keeps the reachable-state invariant, including a valid patrol index |
| EnemyProperties.FixedUpdatePreserves | Assets/Scripts/Enemy/Enemy.cs:107-111 | A physics step keeps the reachable-state invariant |
| EnemyProperties.TickPreserves | Assets/Scripts/Enemy/Enemy.cs:224-240 | A clock tick keeps the reachable-state invariant |
| EnemyProperties.StepPreserves | Assets/Scripts/Enemy/Enemy.cs:75-240 | Every kind of engine call, and another soldier raising the shared alert, keeps the reachable-state invariant |
| EnemyProperties.RunPreserves | Assets/Scripts/Enemy/Enemy.cs:75-240 | Any sequence of engine calls and alerts raised elsewhere keeps the reachable-state invariant |
| EnemyProperties.DeadIgnoresHit | Assets/Scripts/Enemy/Enemy.cs:207 | A hit on a dead soldier changes nothing |
| EnemyProperties.LethalHit | Assets/Scripts/Enemy/Enemy.cs:209-214 | A hit that brings health to 0 or below sets Dead and lowers health by the damage, leaving the running coroutines and both flags as they were |
| EnemyProperties.SurvivableHit | Assets/Scripts/Enemy/Enemy.cs:216-221 | A survivable hit sets Damage, lowers health by the damage, and leaves exactly one coroutine, the return timer due 0.15 s after the hit; no three-second alert is left |
| EnemyProperties.SecondHitRestartsWindow | Assets/Scripts/Enemy/Enemy.cs:219-221 | After two survivable hits the soldier is in Damage until 0.15 s after the second one and leaves it for the return destination from then on |
| EnemyProperties.RestartExample | Assets/Scripts/Enemy/Enemy.cs:219-236 | With hits at 0.0 s and 0.1 s, the soldier is still in Damage at 0.2 s and back on patrol at 0.25 s |
| EnemyProperties.DeathKeepsReturnTimer | Assets/Scripts/Enemy/Enemy.cs:221-258 | A survivable hit, then a lethal one within the window, then a tick after it leave the soldier with health at or below 0 in Alert, Chase or Patrol, and in Alert or Patrol when it started from a reachable state |
| EnemyProperties.DeadSoldierPatrolsAgain | Assets/Scripts/Enemy/Enemy.cs:234-258 | A new 50-health soldier hit for 10 and then for 45 within 0.15 s patrols again with -5 health |
| EnemyProperties.DeadAndIdleIsFinal | Assets/Scripts/Enemy/Enemy.cs:77-81 | A dead soldier with no coroutine running is unchanged by any sequence of calls except in the shared flag, which another soldier may raise; with the flag already up it is unchanged entirely |
| EnemyProperties.FrameIgnoredWhenDeadOrHit | Assets/Scripts/Enemy/Enemy.cs:77-86 | A frame changes nothing in Dead or Damage |
| EnemyProperties.GlobalAlertPreempts | Assets/Scripts/Enemy/Enemy.cs:88-92 | With the shared alert up, a patrolling or idle soldier's frame only switches it to Alert: no patrol step and no sight test |
| EnemyProperties.SightStartsChase | Assets/Scripts/Enemy/Enemy.cs:97-104 | A frame that reaches the sight test and sees the player raises both flags and sets Chase, leaving health and the coroutines alone |
| EnemyProperties.FlagsAreSticky | Assets/Scripts/Enemy/Enemy.cs:99-104 | Neither hasDetectedOnce nor the shared alert is ever lowered, by any sequence of calls and alerts raised elsewhere |
| EnemyProperties.HealthNeverRises | Assets/Scripts/Enemy/Enemy.cs:209 | While all hits are non-negative, health never increases over any sequence of calls |
| EnemyProperties.NoWaypointsMeansNormal | Assets/Scripts/Enemy/Enemy.cs:116-120 | With no waypoints the patrol step only sets Normal |
| EnemyProperties.PatrolAdvance | Assets/Scripts/Enemy/Enemy.cs:122-133 | At a waypoint the index advances by one (mod the count) exactly when the wait timer reaches the wait time, which resets the timer; otherwise the timer grows by dt; away from a waypoint nothing changes; the index stays in range |
| EnemyProperties.AttackCadence | Assets/Scripts/Enemy/Enemy.cs:157-173 | A chasing physics step adds dt to the timer; it attacks exactly when in range with the cooldown reached, which resets the timer; only the timer changes; outside Chase/Alert or without a player nothing happens |
| AlertSystem.RegisterContents | Assets/Scripts/Enemy/EnemyGlobalAlertSystem.cs:8-12 | Register yields exactly the old members plus e, and the list stays duplicate-free |
| AlertSystem.RegisterIdempotent | Assets/Scripts/Enemy/EnemyGlobalAlertSystem.cs:10 | Registering twice equals registering once; registering a member is a no-op |
| AlertSystem.RegisterKeepsOrder | Assets/Scripts/Enemy/EnemyGlobalAlertSystem.cs:11 | The other members keep their relative order |
| AlertSystem.RemoveFirstIsWithout | Assets/Scripts/Enemy/EnemyGlobalAlertSystem.cs:17 | On a duplicate-free list, removing the first occurrence removes every occurrence |
| AlertSystem.UnregisterContents | Assets/Scripts/Enemy/EnemyGlobalAlertSystem.cs:14-18 | On a duplicate-free list, Unregister removes exactly e, keeps the others in order and keeps the list duplicate-free; an absent e is a no-op |
| AlertSystem.UnregisterKeepsOrder | Assets/Scripts/Enemy/EnemyGlobalAlertSystem.cs:17 | The other members keep their relative order, even when the list has duplicates |
| AlertSystem.RegisterUnregisterRoundTrip | Assets/Scripts/Enemy/EnemyGlobalAlertSystem.cs:8-18 | Registering a newcomer and then unregistering it restores the list |
| AlertSystem.MutatesIffChanges | Assets/Scripts/Enemy/EnemyGlobalAlertSystem.cs:10-17 | A callback reaches List.Add or List.Remove exactly when it changes the list |
| AlertSystem.Walk | Assets/Scripts/Enemy/EnemyGlobalAlertSystem.cs:23-26 | From a position on, the loop completes iff no callback mutates the list, invoking every remaining member in order; otherwise it stops right after the first mutating callback, having invoked a non-empty prefix, and the list holds that callback's edit |
| AlertSystem.Broadcast | Assets/Scripts/Enemy/EnemyGlobalAlertSystem.cs:21-27 | The broadcast completes iff no callback mutates the directory; it then invoked every member once in registration order and left the membership unchanged; otherwise it invoked a non-empty prefix |
| AlertSystem.QuietBroadcast | Assets/Scripts/Enemy/EnemyGlobalAlertSystem.cs:21-27 | With callbacks that leave the directory alone, every member is alerted once, in order, and nothing changes |
| AlertSystem.SelfUnregisterThrows | Assets/Scripts/Enemy/EnemyGlobalAlertSystem.cs:14-26 | A member that unregisters itself when alerted makes the broadcast fail no later than at that member |
| AlertSystem.AlertRegistry.constructor | Assets/Scripts/Enemy/EnemyGlobalAlertSystem.cs:6 | The directory starts empty |
| AlertSystem.AlertRegistry.Register | Assets/Scripts/Enemy/EnemyGlobalAlertSystem.cs:8-12 | The list becomes Registered(old list, e), the version moves exactly when it changes, and duplicate-freedom is kept |
| AlertSystem.AlertRegistry.Unregister | Assets/Scripts/Enemy/EnemyGlobalAlertSystem.cs:14-18 | The list becomes Unregistered(old list, e), the version moves exactly when it changes, and duplicate-freedom is kept |
| AlertSystem.AlertRegistry.ForceAlert | Assets/Scripts/Enemy/EnemyGlobalAlertSystem.cs:25 | One callback's edit is applied through Register or Unregister |
| AlertSystem.AlertRegistry.AlertAllEnemies | Assets/Scripts/Enemy/EnemyGlobalAlertSystem.cs:21-27 | The foreach loop, stopping once the version moved, returns exactly Broadcast(old members) and leaves the list it describes |
| Surveillance.Bounce | Assets/Scripts/Enemy/SurveillanceCamera.cs:61-65 | A wall hit negates the turn rate, keeping its magnitude; without one the rate is unchanged |
| Surveillance.AlarmsExactly | Assets/Scripts/Enemy/SurveillanceCamera.cs:39-51 | A camera frame broadcasts exactly when the camera is enabled, not destroyed at an earlier frame boundary, has a player, and all three gates pass |
| Surveillance.SurveillanceCamera.constructor | Assets/Scripts/Enemy/SurveillanceCamera.cs:10-37 | The serialised turn rate is kept, no Destroy is pending, and the yaw starts at 0. Without an asset the camera disables itself with health 0 and no player lookup; otherwise health is the asset's maxHealth and the player is looked up by tag when unassigned |
| Surveillance.SurveillanceCamera.Update | Assets/Scripts/Enemy/SurveillanceCamera.cs:39-52 | Without a player (or disabled, or once a Destroy has taken effect) nothing happens; a Destroy requested earlier in the same frame does not stop it; otherwise the camera bounces, turns by rotationSpeed times dt, and broadcasts on every frame it sees the player, with no latch, the directory becoming the broadcast's result |
| Surveillance.SurveillanceCamera.RotateByRaycastBounce | Assets/Scripts/Enemy/SurveillanceCamera.cs:55-69 | The rate is Bounce(old rate, wall hit) and the yaw advances by the new rate times dt |
| Surveillance.SurveillanceCamera.CanSeePlayer | Assets/Scripts/Enemy/SurveillanceCamera.cs:72-96 | The answer is Vision.CanSee of the three gates, asked in order |
| Surveillance.SurveillanceCamera.TakeDamage | Assets/Scripts/Enemy/SurveillanceCamera.cs:99-106 | Health drops by dmg and a Destroy is requested exactly when health is at or below 0 (or one already was); it does not take effect within the frame |
| Surveillance.SurveillanceCamera.EndOfFrame | Assets/Scripts/Enemy/SurveillanceCamera.cs:104 | At the frame boundary a requested Destroy takes effect, and a destroyed camera stays destroyed |
| Stats.Max | Assets/Scripts/Player/PlayerStats.cs:119 | The result is the larger argument |
| Stats.MaxReal | Assets/Scripts/Player/PlayerStats.cs:33 | The result is the larger argument |
| Stats.Clamp | Assets/Scripts/Player/PlayerStats.cs:28 | The result lies in [lo, hi], equals v inside it, lo below it and hi above it |
| Stats.Wrap32 | Assets/Scripts/Player/PlayerStats.cs:132 | The result is a 32-bit int congruent to x modulo 2^32, and x itself when x fits |
| Stats.ClampedAdd | Assets/Scripts/Player/PlayerStats.cs:129-141 | The exact sum clamped to [0, max]: in range, never below an in-range value for a heal, never above it for a drain |
| Stats.AsWrittenAgreesWithoutOverflow | Assets/Scripts/Player/PlayerStats.cs:132 | When the sum fits in 32 bits, the code's add equals the intended one |
| Stats.HugeHealKillsAsWritten | Assets/Scripts/Player/PlayerStats.cs:132 | A heal of Int32Max on 100/100 health gives 0 as written and 100 as intended |
| Stats.PlayerStats.constructor | Assets/Scripts/Player/PlayerStats.cs:5-20 | The inspector values, regen running, controller enabled |
| Stats.PlayerStats.OnEnable | Assets/Scripts/Player/PlayerStats.cs:23-46 | From the asset or from the current values: max health and max stamina at least 1, both counters clamped into [0, max], regen interval at least 0.0001 |
| Stats.PlayerStats.Reset | Assets/Scripts/Player/PlayerStats.cs:48-53 | The defaults 100/100 health, 10/10 stamina and a 1 s regen interval |
| Stats.PlayerStats.Update | Assets/Scripts/Player/PlayerStats.cs:55-85 | Paused: nothing changes. Otherwise the timer grows by dt, and on reaching the interval it resets and stamina rises by 1 if below max. At zero health the controller is disabled. The respawn key restores both counters. The bounds invariant is kept |
| Stats.PlayerStats.Die | Assets/Scripts/Player/PlayerStats.cs:86-93 | The player is immobilised |
| Stats.PlayerStats.RespawnPlayer | Assets/Scripts/Player/PlayerStats.cs:95-109 | Health and stamina return to their maxima and movement is re-enabled |
| Stats.PlayerStats.PauseRegen | Assets/Scripts/Player/PlayerStats.cs:111-115 | The pause flag is set; resuming resets the timer, pausing keeps it |
| Stats.PlayerStats.TakeDamage | Assets/Scripts/Player/PlayerStats.cs:117-121 | Health becomes max(0, health - max(0, dmg)): never negative, never higher |
| Stats.PlayerStats.DrainStamina | Assets/Scripts/Player/PlayerStats.cs:123-126 | Stamina becomes max(0, stamina - max(0, amount)): never negative, never higher |
| Stats.PlayerStats.AddHealth | Assets/Scripts/Player/PlayerStats.cs:129-134 | Health becomes the clamped sum, keeping the bounds invariant |
| Stats.PlayerStats.AddStamina | Assets/Scripts/Player/PlayerStats.cs:136-141 | Stamina becomes the clamped sum, keeping the bounds invariant |
| Shooting.ShotInterval | Assets/Scripts/Player/PlayerShoot.cs:58 | The delay is 1 / max(0.01, fireRate): positive, at most 100 s, and exactly 100 s for rates at or below 0.01 |
| Shooting.PlayerShoot.constructor | Assets/Scripts/Player/PlayerShoot.cs:5-25 | The inspector values; the first shot is allowed from time 0 |
| Shooting.PlayerShoot.Reset | Assets/Scripts/Player/PlayerShoot.cs:27-37 | Damage 20, range 25, fire rate 2, magazine size 15, a full magazine and 2 spares |
| Shooting.PlayerShoot.Update | Assets/Scripts/Player/PlayerShoot.cs:39-63 | Without a camera nothing happens. Otherwise the reload key reloads when allowed. A shot fires only when pressed, at or after nextAllowed, with a round loaded; it spends one round and moves nextAllowed past now by the shot interval. A refused shot changes neither the rounds nor nextAllowed. Rounds never go negative |
| Shooting.PlayerShoot.TryReload | Assets/Scripts/Player/PlayerShoot.cs:65-88 | A full magazine or no spares: no change. Otherwise one spare is used and the magazine is full; the total of rounds drops by exactly the rounds discarded |
| Shooting.PlayerShoot.ResetAmmo | Assets/Scripts/Player/PlayerShoot.cs:127-134 | A full magazine and 2 spares |
| Pickups.Classify | Assets/Scripts/Items/ItemPickup.cs:9-20 | The item applies exactly when the collider is the tagged player with both components and an asset; not-tagged and missing-component are recognised exactly |
| Pickups.ItemPickup.constructor | Assets/Scripts/Items/ItemPickup.cs:5 | The item holds its asset and is not yet consumed |
| Pickups.ItemPickup.OnTriggerEnter | Assets/Scripts/Items/ItemPickup.cs:7-34 | The outcome is Classify of the contact. Without an effect neither component changes and the item stays. A medikit sets health to the clamped sum, changes no other stats field and leaves the weapon alone. A magazine adds magsToAdd spares with no cap, changes no other weapon field and leaves the stats alone. Both components keep their invariants. The item is consumed exactly when applied |

## Left out

- Geometry and physics are engine queries passed in as booleans: distances, `Vector3.Angle`, `Physics.Raycast`, the rigidbody's velocity and its kinematic toggles, `LookRotation`, and the pivot's rotation (kept only as an accumulated yaw).
- The attack range is used only in the engine's distance test, reported to `FixedUpdate` as `inAttackRange`, so it is not a field of `Tuning`.
- `Awake`'s rigidbody lookup is left out. The model assumes every soldier has a Rigidbody. Without one, `Awake` reports an error and then throws. The velocity writes throw too: in `PatrolLogic` before the sight test (`Enemy.cs:138`), in `ChasePlayerMovement` before the attack timer (`Enemy.cs:153`), and in `Die` (`Enemy.cs:253`). None of these paths is modelled.
- Presentation is left out: `stateText`, `UpdateStateUI`, `FaceTextToCamera`, the `HideStateText` coroutine, gizmos, the renderers and colliders `Die` hides, and every `Debug.Log`.
- `PatrolPath.cs`, the player controller, camera, HUD, pause menu and `PlayerRespawn.cs` are not part of this model: they are input, camera and UI plumbing.
- The scene reload on F2 in `PlayerStats.Update` is left out. It is engine I/O.
- A reload re-creates the scene's components but not static state. The shared `globalAlert` and the registry's list therefore survive it. `EnemyAI.World.constructor` (the alert starts lowered) and `AlertSystem.AlertRegistry.constructor` (the list starts empty) describe only the first load.
- EnemyAI.Enemy.constructor: the serialised `state` is a parameter, but the entry points require `Valid()`. A soldier loaded in Damage (no return timer, so frames skip it until it is hit) or loaded Dead with health left (frozen for good) is therefore described only by the constructor and by the `EnemyModel` functions, not by the class methods or `RunPreserves`.
- Every entry of `patrolPoints` is assumed non-null. A null waypoint makes `PatrolLogic` throw at `Enemy.cs:122-123`, and `Tuning.patrolPointCount` cannot express one.
- Pressing keys and buttons, and `Time.time`/`Time.deltaTime`, are parameters.
- `Shoot` is left out: its two raycasts and the damage dispatch (a soldier first, then a camera). `PlayerShoot.Update` reports only that a shot was fired. The targets' own `TakeDamage` methods are modelled.
- `ForceAlert` is not defined in the code. `AlertSystem.Broadcast` takes the callback's effect on the directory as a parameter, and nothing in the code calls `Register`.
- A callback makes at most one edit, a `ListEdit`: no change, one Register or one Unregister. A callback that made several calls would bump the version more than once and could undo its own change. Neither case is modelled, and `MutatesIffChanges` speaks about one edit only.
- The camera's `pivot` defaulting to its own transform is left out. It matters only to geometry.
- `Destroy(gameObject)` is a flag.
  - For the camera, `TakeDamage` sets `destroyRequested`, and `EndOfFrame`, the frame boundary, turns it into `destroyed`, which guards `Update`. A camera shot dead earlier in a frame therefore still turns and can still broadcast in that frame's `Update`. Whether its `Update` runs before or after the shot is the engine's script order, which the caller chooses.
  - For a pick-up, the flag only records the call. Unity defers `Destroy` to the end of the frame, and `OnTriggerEnter` never reads the flag. A second contact before then (another collider, say) applies the item again, and the model allows this. The removal of the object itself is not modelled.
- Unity floats are modelled as Dafny reals, without rounding.
- `remainingMags` and `bulletsInMag` are unbounded integers. A 32-bit overflow from stacking an enormous number of magazine pick-ups is not modelled.
- Stats.PlayerStats.AddHealth: the class uses the intended clamped add rather than the 32-bit wrapping sum the code computes. The wrapping behaviour is `Stats.ClampedAddAsWritten` (see Findings).
- Stats.PlayerStats.AddStamina: as for AddHealth.
- Unity's `Reset` runs only in the editor. Both `Reset` methods are modelled as plain operations.

## Findings

| source | as written | input that shows it | evidently intended | confidence | as-written member | corrected member |
|---|---|---|---|---|---|---|
| Assets/Scripts/Player/PlayerStats.cs:132 | `Mathf.Clamp(health + amount, 0, maxHealth)` adds in unchecked 32-bit arithmetic, so a large heal wraps negative before the clamp | health 100 of 100, `AddHealth(int.MaxValue)` gives 0 (the same holds for `AddStamina` at line 139) | a heal never lowers health: clamp the exact sum | not executed | Stats.ClampedAddAsWritten (shown by Stats.HugeHealKillsAsWritten) | Stats.ClampedAdd |
