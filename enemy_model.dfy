/**
 * The soldier's decision logic as values: one Brain per soldier and one
 * function per entry point the engine calls (a frame, a physics step, a hit,
 * the coroutine scheduler's resumption of due timers). The class in
 * enemy.dfy is proved to compute exactly these functions.
 */
module EnemyModel {

  datatype State = Patrol | Normal | Chase | Alert | Damage | Dead

  /** The soldier asset; only maxHealth feeds the decision logic, the rest feeds the geometry. */
  datatype Soldier = Soldier(maxHealth: real, moveSpeed: real, viewAngle: real, viewDistance: real, eyeHeight: real)

  /**
   * Per-soldier inspector values that the decisions read. The attack range is
   * consumed by the engine's distance test, reported to FixedUpdate as a flag.
   */
  datatype Tuning = Tuning(patrolPointCount: nat, patrolWaitTime: real, damagePerHit: int, attackCooldown: real)

  /** The two delayed transitions a hit can start. */
  datatype TimerKind = AlertAfter3Sec | BackToChase

  /** A started coroutine: what it does and when its wait ends. */
  datatype Timer = Timer(kind: TimerKind, deadline: real)

  const AlertDelay: real := 3.0
  const ReturnDelay: real := 0.15

  /**
   * Everything the decisions read and write. globalAlert is the flag shared by
   * all soldiers; pending lists the running coroutines in the order they started.
   */
  datatype Brain = Brain(
    state: State,
    health: real,
    hasDetectedOnce: bool,
    globalAlert: bool,
    patrolIndex: nat,
    patrolWaitTimer: real,
    attackTimer: real,
    pending: seq<Timer>)

  /** Where a soldier goes when its hit reaction ends, decided when the timer fires. */
  function ReturnDestination(globalAlert: bool, hasDetectedOnce: bool): State {
    if globalAlert then Alert
    else if hasDetectedOnce then Chase
    else Patrol
  }

  /**
   * A hit. A dead soldier ignores it; a lethal one kills without stopping the
   * coroutines; any other one stops every coroutine (the three-second alert it
   * may have just started included) and starts the return timer.
   */
  function TakeDamage(b: Brain, dmg: real, now: real): Brain {
    if b.state == Dead then b
    else if b.health - dmg <= 0.0 then b.(health := b.health - dmg, state := Dead)
    else b.(health := b.health - dmg, state := Damage, pending := [Timer(BackToChase, now + ReturnDelay)])
  }

  /** The patrol step of a frame; the walking itself is the engine's. */
  function PatrolLogic(b: Brain, t: Tuning, dt: real, atWaypoint: bool): Brain {
    if t.patrolPointCount == 0 then b.(state := Normal)
    else if !atWaypoint then b
    else if b.patrolWaitTimer + dt >= t.patrolWaitTime then
      b.(patrolWaitTimer := 0.0, patrolIndex := (b.patrolIndex + 1) % t.patrolPointCount)
    else b.(patrolWaitTimer := b.patrolWaitTimer + dt)
  }

  /** A frame. seesPlayer is the sight test, asked after the patrol step. */
  function Update(b: Brain, t: Tuning, dt: real, atWaypoint: bool, seesPlayer: bool): Brain {
    if b.state == Dead || b.state == Damage then b
    else if b.globalAlert && b.state != Chase && b.state != Alert then b.(state := Alert)
    else
      var p := if b.state == Patrol then PatrolLogic(b, t, dt, atWaypoint) else b;
      if seesPlayer then p.(hasDetectedOnce := true, globalAlert := true, state := Chase) else p
  }

  /** A physics step and whether it ended in an attack on the player. */
  datatype Strike = Strike(brain: Brain, attacked: bool)

  /**
   * A physics step. Chasing advances the attack timer; an attack within range
   * once the cooldown is reached resets it, whether or not the player has a
   * stats component to receive the damage.
   */
  function FixedUpdate(b: Brain, t: Tuning, dt: real, hasPlayer: bool, inAttackRange: bool): Strike {
    if (b.state == Chase || b.state == Alert) && hasPlayer then
      var timer := b.attackTimer + dt;
      if inAttackRange && timer >= t.attackCooldown then Strike(b.(attackTimer := 0.0), true)
      else Strike(b.(attackTimer := timer), false)
    else Strike(b, false)
  }

  /** The body of a coroutine after its wait. */
  function Fire(b: Brain, k: TimerKind): Brain {
    match k
    case BackToChase => b.(state := ReturnDestination(b.globalAlert, b.hasDetectedOnce))
    case AlertAfter3Sec => if b.state != Dead then b.(globalAlert := true, state := Alert) else b
  }

  /** The timers whose wait is over at time now, in start order. */
  function DueTimers(ts: seq<Timer>, now: real): seq<Timer> {
    if ts == [] then []
    else (if ts[0].deadline <= now then [ts[0]] else []) + DueTimers(ts[1..], now)
  }

  /** The timers still waiting at time now, in start order. */
  function WaitingTimers(ts: seq<Timer>, now: real): seq<Timer> {
    if ts == [] then []
    else (if ts[0].deadline <= now then [] else [ts[0]]) + WaitingTimers(ts[1..], now)
  }

  /** Runs the bodies of ts one after another. */
  function FireAll(b: Brain, ts: seq<Timer>): Brain
    decreases ts
  {
    if ts == [] then b else FireAll(Fire(b, ts[0].kind), ts[1..])
  }

  /** The scheduler at time now: every due coroutine resumes once and finishes. */
  function Tick(b: Brain, now: real): Brain {
    FireAll(b.(pending := WaitingTimers(b.pending, now)), DueTimers(b.pending, now))
  }

  /** The patrol cursor indexes a waypoint (or stays 0 with none). */
  predicate PatrolIndexValid(b: Brain, t: Tuning) {
    b.patrolIndex == 0 || b.patrolIndex < t.patrolPointCount
  }

  /**
   * What holds of every soldier from construction on, whatever the engine
   * calls: at most one coroutine runs and it is the return timer, a soldier in
   * Damage always has it armed, a dead soldier has no health left, and having
   * seen the player implies the shared alert is raised.
   */
  predicate Reachable(b: Brain, t: Tuning) {
    && PatrolIndexValid(b, t)
    && |b.pending| <= 1
    && (forall i :: 0 <= i < |b.pending| ==> b.pending[i].kind == BackToChase)
    && (b.state == Damage ==> |b.pending| == 1)
    && (b.state == Dead ==> b.health <= 0.0)
    && (b.hasDetectedOnce ==> b.globalAlert)
  }
}
